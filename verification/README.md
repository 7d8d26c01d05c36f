# image2taxonomy core, modelled in Dafny

image2taxonomy classifies product photos into the Shopify product taxonomy. A Rails app
stores products and enqueues a Sidekiq job per product; a Go worker pops those jobs, asks a
local llama-server (a vision model constrained by a GBNF grammar) for a JSON envelope of
title, description and taxonomy path, and writes the outcome back to the `products` table.
A separate Go program compiles the grammar from the taxonomy.

This project models that core, one Dafny module per source file:

| module | file | what it models |
|---|---|---|
| `GenGrammar` (gen_grammar.dfy) | go-worker/cmd/gen-grammar/main.go | `clean`, `generateRule`, `findBaseCategory`, the fixed grammar header and the assembly in `main` |
| `ImageResize` (image_resize.dfy) | go-worker/internal/image/resize.go | `ResizeToMinDimension`: the target size, the skip test, the encoder choice and every error path |
| `Ai` (service.dfy) | go-worker/internal/ai/service.go | `NewEngine` (launch arguments, health polling), `Engine.AnalyzeImage`, `waitForServer` |
| `Db` (postgres.dfy) | go-worker/internal/db/postgres.go | `UpdateStatus`: the conditional column update on the products table |
| `Queue` (queue.dfy) | go-worker/internal/queue/worker.go | `processJob` and `cleanJSON` |
| `Quote` (quote.dfy) | go-worker/internal/queue/worker.go | the `%q` quoting of the failure payload, and JSON string quoting |
| `ProductModel` (product.dfy) | rails-app/app/models/product.rb | the status enum, the column defaults and `set_default_title` |
| `Pipeline` (pipeline.dfy) | worker.go with postgres.go | what one job does to a product row end to end |

`Wrappers` (Option, Result), `Json` (JSON values and an abstract codec), `Format` (`%d`)
and `Ascii` (ASCII character classes and lower-casing) are shared helpers.

How the model is built:

- Code that loops stays a loop: `clean`, `generateRule`, the grammar assembly,
  `findBaseCategory`, `waitForServer` and the argument switch are methods proved equal to a
  specification function (or to a property stated outright) whose own properties are lemmas.
- The objects that change state are classes: `Ai.Engine` records the images it was asked
  about and the chat requests it sent; `Db.Products` holds the table rows and the statements
  executed; `ProductModel.Product` is the Rails record.
- The outside world is a parameter. What the file system, the image codecs, the HTTP server
  and the clock do during a call is a value (`ImageResize.ResizeEnv`, `Ai.AnalysisEnv`, a
  trace of health polls, `now`), so every branch of the Go code is reachable from the model.
- JSON parsing and writing, by Go's encoding/json and by Postgres' `json` type, is a
  `Json.Codec` pair of functions that the model does not define; what a property needs of
  them (that a written value reads back, say) is a hypothesis of that lemma.

Where the design and the code differ, the model follows the code:

- `clean` detects neither name collisions nor names that clean to nothing; a name starting
  with a character that is not an ASCII letter or digit makes `clean` panic (it indexes an
  empty builder), so `GenGrammar.Cleaned` requires `GenGrammar.Cleanable`.
- Category names go into the grammar's string literals unescaped.
- Only a level above 0 makes the children continuation optional; level 0 (and a negative
  level) names the rule `taxonomy-inner`.
- `cleanJSON` accepts the text `null` (it decodes into a nil map without error) and returns
  `null`; any other non-object value is rejected with json.Unmarshal's type error.
- Jobs are decoded into a typed record whose arguments are untyped JSON values; the two type assertions at
  worker.go:53-54 panic on a job whose first two arguments are not a number and a string, so
  `Queue.ProcessJob` requires `Queue.ArgsTyped`.
- `generateRule` recognises the last child by comparing addresses; children decoded by
  json.Unmarshal are distinct objects, so the model uses the child's index.
- The new side is computed in float64 and truncated; the model computes it as floor
  division of integers, which is the same for sides below 2^26 pixels.

## Model

| member | source | states |
|---|---|---|
| Format.DecimalRoundTrip | go-worker/internal/ai/service.go:46 | the `%d` text of any integer parses back to that integer |
| GenGrammar.Cleaned | go-worker/cmd/gen-grammar/main.go:123-135 | the cleaned name is a rule-name fragment (lower-case letters, digits, no two dashes in a row), no longer than the input, empty only for the empty name, starting with the lowered first character |
| GenGrammar.Clean | go-worker/cmd/gen-grammar/main.go:123-135 | the character loop returns exactly `Cleaned(s)` |
| GenGrammar.CleanIdempotent | go-worker/cmd/gen-grammar/main.go:123-135 | cleaning a cleaned name changes nothing |
| GenGrammar.FragmentIsFixedPoint | go-worker/cmd/gen-grammar/main.go:125-133 | a name that is already a rule-name fragment is returned unchanged |
| GenGrammar.CleanIgnoresCase | go-worker/cmd/gen-grammar/main.go:128-129 | two names that differ only in ASCII case clean to the same rule name |
| GenGrammar.CleanIsSqueezedTransliteration | go-worker/cmd/gen-grammar/main.go:125-133 | cleaning is: lower-case letters and digits kept, upper case lowered, every other character a dash, then each run of dashes squeezed to one |
| GenGrammar.RuleName | go-worker/cmd/gen-grammar/main.go:82-88 | the rule name is `taxonomy-` followed by the cleaned name when the level is above 0, and `taxonomy-inner` otherwise |
| GenGrammar.ContinuationOptionalIffNested | go-worker/cmd/gen-grammar/main.go:92-98 | a category with children references its children rule, and that reference is optional (`?`) exactly when the level is above 0 |
| GenGrammar.GenerateRule | go-worker/cmd/gen-grammar/main.go:81-112 | the string-building loop returns exactly the rule `Rule(c)` |
| GenGrammar.AppendAlternatives | go-worker/cmd/gen-grammar/main.go:100-105 | the loop over the children appends exactly their alternation: one `\ttaxonomy-<name>` line per child, separated by a bar and a line break, none after the last |
| GenGrammar.AlternativesNameEachChild | go-worker/cmd/gen-grammar/main.go:99-106 | reading the children rule's alternation back gives one rule reference per child, in order, none dropped or repeated |
| GenGrammar.FindBaseCategory | go-worker/cmd/gen-grammar/main.go:114-121 | returns the first vertical with the given name; fails with `base category not found: <name>` exactly when none has it |
| GenGrammar.EnvelopeFieldsInOrder | go-worker/cmd/gen-grammar/main.go:66 | the root rule requires the `title`, `description` and `taxonomy` keys, in that order |
| GenGrammar.BuildGrammar | go-worker/cmd/gen-grammar/main.go:66-76 | the grammar is the fixed header followed by the rule of each category, in order |
| GenGrammar.CompileGrammar | go-worker/cmd/gen-grammar/main.go:57-76 | fails exactly when the taxonomy has no `Apparel & Accessories` vertical; otherwise the header plus the rules of the first such vertical, the only one whose names must be cleanable |
| GenGrammar.LaterVerticalsNotRead | go-worker/cmd/gen-grammar/main.go:114-121 | verticals after the selected one are never read: appending any, even a second `Apparel & Accessories` with names that cannot be cleaned, keeps the taxonomy compilable |
| ImageResize.PlanDimensions | go-worker/internal/image/resize.go:36-45 | the shorter side becomes the target and the other side keeps the aspect ratio, rounded down |
| ImageResize.SkipIffShortSideFits | go-worker/internal/image/resize.go:47-51 | the resize is skipped exactly when the shorter side is at most the target |
| ImageResize.ResizeShrinksToTarget | go-worker/internal/image/resize.go:36-51 | an image that is resized ends with its shorter side at the target and is never enlarged in either dimension |
| ImageResize.Ext | go-worker/internal/image/resize.go:69 | filepath.Ext: the suffix from the last dot of the last path element, or empty |
| ImageResize.PngIffPngSuffix | go-worker/internal/image/resize.go:68-75 | the PNG encoder is used exactly when the path ends in `.png` in any case; JPEG at quality 90 otherwise |
| ImageResize.ExtOfDottedSuffix | go-worker/internal/image/resize.go:69 | a path ending in a dot-suffix with no dot or slash after it has that suffix as its extension |
| ImageResize.ResizeToMinDimension | go-worker/internal/image/resize.go:15-90 | each failure returns its own wrapped error (`failed to open image: `, `failed to decode image: `, `failed to create temp file: `, `failed to encode resized image: `, `failed to close temp file: `) and leaves no file; a skip returns the input path with the original size; a resize returns the temporary file, written with the chosen encoder at the planned size, exactly when create, encode and close all succeed |
| ImageResize.ReturnedImageFits | go-worker/internal/image/resize.go:36-89 | the image at any returned path has its shorter side at most the target and is no larger than the original in either dimension; a resized one has its shorter side exactly at the target |
| Ai.BaseName | go-worker/internal/ai/service.go:32 | filepath.Base: the text after the last slash |
| Ai.LaunchArgs | go-worker/internal/ai/service.go:35-72 | model, port 8080 and context 8192 always; `-ngl` and `--device` for metal, gpu (as cuda) and arm only; `--mmproj` beside the model only when that file exists |
| Ai.BuildArgs | go-worker/internal/ai/service.go:35-72 | the switch and appends build exactly `LaunchArgs` |
| Ai.UnknownModeFallsBackToCpu | go-worker/internal/ai/service.go:57-63 | an unknown acceleration mode gives the same arguments as `cpu` |
| Ai.WaitForServer | go-worker/internal/ai/service.go:253-281 | ready exactly when some poll answers 200 before any poll has returned past the deadline; it stops at the first 200 or the first late poll |
| Ai.InterpretResponse | go-worker/internal/ai/service.go:219-250 | success exactly for status 200 with a parsed body that has a choice, giving the first choice's content; each failure carries its message and the body; the truncation warning exactly when the first choice stopped on `length` |
| Ai.TruncationOnlyWarns | go-worker/internal/ai/service.go:241-250 | a truncated generation still returns its content |
| Ai.Analyze | go-worker/internal/ai/service.go:107-251 | resize and encode failures send no request; otherwise one request with the grammar, 768 tokens and the image as a JPEG data URL; a temporary resized file is removed on every path; a transport failure gives `request failed: ` and an unreadable body `failed to read response: ` with the underlying error; otherwise the result is the reply's interpretation |
| Ai.NoTemporaryFileSurvives | go-worker/internal/ai/service.go:114-117 | whenever resizing made a new file, AnalyzeImage removes it |
| Ai.Engine.constructor | go-worker/internal/ai/service.go:93-97 | the engine talks to `http://localhost:8080` with the grammar it was given, and has made no calls yet |
| Ai.Engine.AnalyzeImage | go-worker/internal/ai/service.go:107-251 | returns the analysis result, and records the call and the request it sent, if any |
| Ai.NewEngine | go-worker/internal/ai/service.go:24-98 | an unreadable grammar or a failed start is reported before any server runs; the server is launched with `LaunchArgs`; it is kept exactly when it comes up within two minutes, and killed otherwise |
| Db.Text | go-worker/internal/db/postgres.go:25 | `->>` gives a value exactly when the payload is an object with that key set to something other than null; a string's contents are given unquoted |
| Db.Updated | go-worker/internal/db/postgres.go:23-30 | status and updated_at are always set; each of title, description, taxonomy, violations and error_message is replaced exactly when the payload carries it, and kept otherwise |
| Db.Applied | go-worker/internal/db/postgres.go:22-35 | only the row with the given id changes; a payload that is not JSON changes nothing |
| Db.TitleAndTaxonomyOnly | go-worker/internal/db/postgres.go:25-29 | a payload with only a title and a taxonomy leaves description, violations and error_message as they were |
| Db.UpdateIdempotent | go-worker/internal/db/postgres.go:23-31 | repeating a statement at the same time changes nothing more |
| Db.UpdatesCompose | go-worker/internal/db/postgres.go:25-29 | two successive updates are one update whose payload merges both, the later winning |
| Db.Products.constructor | go-worker/internal/db/postgres.go:13-19 | a new connection has run no statement |
| Db.Products.UpdateStatus | go-worker/internal/db/postgres.go:21-36 | runs the statement on the table and fails exactly when the payload is not JSON |
| Quote.GoQuoteNotJson | go-worker/internal/queue/worker.go:61 | `%q` of a message holding BEL is `"\a"`, which is not a JSON string |
| Quote.GoQuoteTagNotJson | go-worker/internal/queue/worker.go:61 | `%q` of a message holding the tag letter U+E0067 (in the Scotland flag emoji) is `"\U000e0067"`, which is not a JSON string |
| Quote.JsonQuoteRoundTrip | go-worker/internal/queue/worker.go:61 | JSON quoting gives a JSON string for every message, which reads back as that message |
| Quote.QuotesAgree | go-worker/internal/queue/worker.go:61 | on messages with no control that lacks a JSON short escape, no DEL and no rune above U+FFFF, the model's `%q` and JSON quoting agree |
| Queue.TrimSpace | go-worker/internal/queue/worker.go:90 | the result is the input with its leading and trailing Unicode white space removed, and starts and ends with no white space |
| Queue.TrimSpaceIdempotent | go-worker/internal/queue/worker.go:90 | trimming twice is trimming once |
| Queue.CleanJson | go-worker/internal/queue/worker.go:88-105 | succeeds exactly when the trimmed text decodes to an object or to null, giving the compact rewrite (or `null`); failures start with `invalid JSON: ` |
| Queue.CleanJsonIdempotent | go-worker/internal/queue/worker.go:88-105 | cleaning cleaned output gives it back, for a writer whose output reads back |
| Queue.Truncate | go-worker/internal/queue/worker.go:53 | float64 to int conversion rounds toward zero |
| Queue.PayloadsAgree | go-worker/internal/queue/worker.go:61 | the failure payload as written (with the model's `%q`) and the JSON one coincide on messages with no control that lacks a JSON short escape, no DEL and no rune above U+FFFF |
| Queue.Terminal | go-worker/internal/queue/worker.go:58-83 | the write for the job's product is `complete` with the cleaned JSON exactly when analysis and cleaning succeed; otherwise `failed` with the error message, prefixed `JSON parsing error: ` when cleaning failed, in a payload quoted by `%q` as the worker writes it (or as a JSON string, the corrected quoting) |
| Queue.JobEffect | go-worker/internal/queue/worker.go:40-86 | a job of another class or with fewer than two arguments causes nothing; an analysis job causes one engine call for its image and one write for its product |
| Queue.ProcessJob | go-worker/internal/queue/worker.go:40-86 | the engine's calls, the store's statements and the table rows change exactly as `JobEffect` says, with failures quoted by `%q`; the engine's request log grows by the request the analysis sent, if any, and not at all for a dropped job |
| ProductModel.StatusValuesRoundTrip | rails-app/app/models/product.rb:4 | each status is stored as its own string, and only those four strings name a status |
| ProductModel.StripExtension | rails-app/app/models/product.rb:12 | the default title is a prefix of the file name |
| ProductModel.StripAtMatch | rails-app/app/models/product.rb:12 | where `\.[^.]+$` matches, the title is the name before the match |
| ProductModel.StripWithoutMatch | rails-app/app/models/product.rb:12 | where the pattern matches nowhere, the title is the whole name |
| ProductModel.StripsOnlyLastExtension | rails-app/app/models/product.rb:12 | `name.ext` loses only `.ext`, keeping earlier dots |
| ProductModel.TarGzExample | rails-app/app/models/product.rb:12 | `a.tar.gz` is titled `a.tar` |
| ProductModel.NoExtensionKept | rails-app/app/models/product.rb:12 | a name with no dot, or ending in a dot, is its own title |
| ProductModel.Product.constructor | rails-app/db/migrate/20251129223539_create_products.rb:7-8 | a new product is pending with empty violations |
| ProductModel.Product.SetDefaultTitle | rails-app/app/models/product.rb:11-13 | a product without a title gets the file name without its extension; a present title, even an empty one, is kept |
| Pipeline.WorkerWritesEnumStatuses | go-worker/internal/queue/worker.go:59-83 | every status the worker writes is one of the Rails enum's values |
| Pipeline.FailedJobKeepsContent | go-worker/internal/queue/worker.go:59-63 | a failed analysis whose message has no control without a JSON short escape, no DEL and no rune above U+FFFF marks the row failed with its message and keeps title, description, taxonomy and violations |
| Pipeline.IntendedFailureMarksRow | go-worker/internal/queue/worker.go:59-63 | with the payload quoted as a JSON string, every failed analysis, whatever its message, marks the row failed with that message and keeps its content |
| Pipeline.BellFailureLeavesRowUnmarked | go-worker/internal/queue/worker.go:59-63 | the message BEL is written as `{"error_message": "\a"}`, not JSON; a store that rejects it leaves the table, and the row's status, unchanged |
| Pipeline.CompletedJobKeepsStaleError | go-worker/internal/db/postgres.go:29 | a completed row keeps the error_message of an earlier failure unless the new payload carries one |
| Pipeline.AnalysisJobExample | go-worker/internal/queue/worker.go:44-58 | the job `[42, "/img/42.jpg"]` analyses that image once and writes to product 42 once |
| Pipeline.OtherJobsIgnored | go-worker/internal/queue/worker.go:41-46 | another job class, or a payload that is not valid JSON (which leaves the zero job), touches neither the engine nor the table |
| Pipeline.ShortJobsDropped | go-worker/internal/queue/worker.go:48-51 | a job with fewer than two arguments is dropped |

## Left out

- The worker's queue loop (`StartWorker`, worker.go:22-38) and its entry point (go-worker/cmd/worker/main.go): blocking Redis pops, logging and retries are I/O; one iteration is `Queue.ProcessJob`.
- Decoding the job payload (worker.go:42): json.Unmarshal is library work, and `Queue.ProcessJob` takes the record it leaves. That record is the zero job only for text that is not valid JSON; a type mismatch in one field (a numeric `jid`, say) still fills `class` and `args`, and such a job is processed like any other.
- The gen-grammar program's HTTP fetch, taxonomy decoding and file write (main.go:35-55, 77): I/O; `GenGrammar.CompileGrammar` takes the decoded taxonomy.
- Pixel work: image decoding, bilinear scaling and PNG/JPEG encoding are library calls; the model keeps the dimensions, the encoder chosen and each call's success or error.
- Base64 encoding, the prompt texts and the temperature of the chat request: `Ai.ChatRequest` keeps the grammar, the token budget and the image URL.
- Process control: `exec.Command`, the environment variables, stdout wiring and `Engine.Close` are outside the model; `Ai.Launch` records whether the server was started, kept or killed.
- The `time.After(timeout)` case of `waitForServer`: it is re-armed on every iteration and cannot fire before the deadline check after a one-second tick; the model keeps the deadline check.
- The `failed to marshal payload` and `failed to create request` errors of AnalyzeImage: the payload is a map of strings and numbers and the URL is fixed, so neither can occur.
- The `failed to marshal JSON` error of cleanJSON: a map that json.Unmarshal produced always marshals.
- JSON parsing and writing are abstract (`Json.Codec`); in particular the model does not say where Go and Postgres differ on duplicate keys or number precision.
- Db.Text: for a non-string value, `->>` gives the value's JSON text as Postgres writes it; the model uses the codec's writer for that text.
- Ai.BaseName: filepath.Dir/Join also clean the path (`.`, `..`, repeated slashes); the model only inserts `mmproj-` before the last element.
- Quote.QuotesAgree: excludes runes above U+FFFF, where `%q` writes non-printable ones as `\U` escapes that JSON does not have. Among the runes it covers, the real `%q` also writes non-printable ones below U+10000 (`\u0085`, `\u200b`, `\ufeff`, ...) as `\uXXXX`, which JSON quoting keeps raw; the model's `%q` keeps them raw too, so there the texts differ, though both read back as the same string.
- Queue.PayloadsAgree: the same restriction as Quote.QuotesAgree; on messages with non-printable runes between U+0080 and U+FFFF the real payloads differ in text but not in the string they carry.
- Pipeline.FailedJobKeepsContent: stated only for messages on which the two quotings agree; Pipeline.BellFailureLeavesRowUnmarked shows what happens otherwise.
- Quote.GoEscape: exact for ASCII, and writes `\U` escapes for the tag block and planes 15 and 16; every other non-ASCII rune is kept as it is, while `%q` also escapes the other non-printable ones (as `\uXXXX` below U+10000, as `\U` above, depending on the Unicode tables of the Go release). Invalid UTF-8, which `%q` writes as `\xNN` bytes, cannot occur in a Dafny string.
- ImageResize.ResizeToMinDimension: requires `ImageResize.DecodesToPixels`, that a decoded image has a positive width and height; for an empty image Go divides by zero in float64 and converts the infinite or NaN quotient to int, which the model does not follow.
- Queue.ProcessJob: requires the first two arguments to be a number and a string; the Go code panics otherwise, and the panic is not modelled.
- Queue.Truncate: does not model the platform-dependent result of converting a float64 outside the 64-bit int range.
- ProductModel.StripExtension: requires a name without a line break, because `$` in a Ruby regexp matches before any line break; Active Storage sanitizes file names, replacing line breaks, so its names have none.
- Db.Products.UpdateStatus: the connection, the SQL text and statement errors other than invalid JSON are not modelled; an id with no row changes nothing and is not an error.
- The `error_message` column: UpdateStatus writes it, but the migration does not create it; the model assumes it exists.
- The Rails controller, the JavaScript poll controller and the job class that enqueues work are outside the core.

## Findings

| source | as written | input that shows it | evidently intended | confidence | as-written member | corrected member |
|---|---|---|---|---|---|---|
| go-worker/internal/queue/worker.go:61 | the failure payload quotes the message with Go's `%q`, which writes `\a`, `\v` and `\xNN` escapes for controls and invalid UTF-8, and `\UXXXXXXXX` escapes for non-printable runes above U+FFFF, none of which JSON has; Postgres then rejects the payload, UpdateStatus fails, and the ignored error leaves the product unmarked | an analysis error whose message holds BEL (byte 0x07), or a tag character such as U+E0067 of a subdivision-flag emoji, e.g. in an API error body | quote the message as a JSON string so the row becomes `failed` with that message | medium, not executed | Pipeline.BellFailureLeavesRowUnmarked | Pipeline.IntendedFailureMarksRow |
