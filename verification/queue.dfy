/**
 * The job consumer (go-worker/internal/queue/worker.go): which queued jobs are acted on,
 * the one engine call and the one terminal status write each of them gets, and cleanJSON.
 * The engine and the store are the objects of `Ai.Engine` and `Db.Products`, which record
 * the calls made to them.
 */
module Queue {
  import opened Wrappers
  import opened Json
  import ImageResize
  import Ai
  import Db
  import Quote

  // ---------------------------------------------------------------------------
  // strings.TrimSpace
  // ---------------------------------------------------------------------------

  /** unicode.IsSpace: the ASCII white space characters and the Unicode space separators. */
  predicate IsSpace(c: char)
  {
    c == '\t' || c == '\n' || c == 11 as char || c == 12 as char || c == '\r' || c == ' '
    || c == 0x85 as char || c == 0xA0 as char || c == 0x1680 as char
    || (0x2000 as char <= c <= 0x200A as char)
    || c == 0x2028 as char || c == 0x2029 as char || c == 0x202F as char || c == 0x205F as char
    || c == 0x3000 as char
  }

  /** Every character of `s` from `lo` up to `hi` is white space. */
  predicate SpaceBetween(s: string, lo: int, hi: int)
  {
    forall i :: lo <= i < hi && 0 <= i < |s| ==> IsSpace(s[i])
  }

  /** The number of space characters `s` starts with. */
  function LeadingSpace(s: string): (n: nat)
    ensures n <= |s| && SpaceBetween(s, 0, n) && (n == |s| || !IsSpace(s[n]))
    decreases |s|
  {
    if s != [] && IsSpace(s[0]) then 1 + LeadingSpace(s[1..]) else 0
  }

  /** The number of space characters `s` ends with. */
  function TrailingSpace(s: string): (n: nat)
    ensures n <= |s| && SpaceBetween(s, |s| - n, |s|) && (n == |s| || !IsSpace(s[|s| - n - 1]))
    decreases |s|
  {
    if s != [] && IsSpace(s[|s| - 1]) then 1 + TrailingSpace(s[..|s| - 1]) else 0
  }

  /** strings.TrimSpace: `s` without its leading and trailing white space. */
  function TrimSpace(s: string): (r: string)
    ensures var i := LeadingSpace(s);
            && i + |r| <= |s| && r == s[i..i + |r|] && SpaceBetween(s, i + |r|, |s|)
    ensures r == [] || (!IsSpace(r[0]) && !IsSpace(r[|r| - 1]))
  {
    var i := LeadingSpace(s);
    var t := s[i..];
    t[..|t| - TrailingSpace(t)]
  }

  /** Text that neither starts nor ends with white space is left as it is. */
  lemma TrimSpaceOfTrimmed(s: string)
    requires s == [] || (!IsSpace(s[0]) && !IsSpace(s[|s| - 1]))
    ensures TrimSpace(s) == s
  {
    if s != [] {
      assert LeadingSpace(s) == 0;
      assert TrailingSpace(s) == 0;
    }
  }

  /** Trimming twice trims nothing more. */
  lemma TrimSpaceIdempotent(s: string)
    ensures TrimSpace(TrimSpace(s)) == TrimSpace(s)
  {
    TrimSpaceOfTrimmed(TrimSpace(s));
  }

  // ---------------------------------------------------------------------------
  // cleanJSON (worker.go:88-105)
  // ---------------------------------------------------------------------------

  /** The tail of the error json.Unmarshal reports when the text holds a non-object value. */
  const MapTypeMismatch := " into Go value of type map[string]interface {}"

  /** The prefix cleanJSON puts on a decoding error. */
  const InvalidJson := "invalid JSON: "

  /**
   * cleanJSON: trim, decode into a map, write it back compactly. JSON null decodes into a
   * nil map without error and is written back as `null`.
   */
  function CleanJson(input: string, codec: Codec): (r: Result<string, string>)
    ensures var d := codec.decode(TrimSpace(input));
            r.Ok? <==> d.Ok? && (d.value.Object? || d.value.Null?)
    ensures var d := codec.decode(TrimSpace(input));
            r.Ok? && d.value.Object? ==> r.value == codec.marshal(d.value)
    ensures var d := codec.decode(TrimSpace(input));
            r.Ok? && d.value.Null? ==> r.value == "null"
    ensures r.Err? ==> |r.error| >= |InvalidJson| && r.error[..|InvalidJson|] == InvalidJson
  {
    match codec.decode(TrimSpace(input))
    case Err(e) => Err(InvalidJson + e)
    case Ok(Null) => Ok("null")
    case Ok(Object(m)) => Ok(codec.marshal(Object(m)))
    case Ok(v) => Err(InvalidJson + ("json: cannot unmarshal " + KindName(v) + MapTypeMismatch))
  }

  /** The writer emits no surrounding white space and reads back as what it wrote. */
  predicate CompactRoundTrip(codec: Codec, v: Json)
  {
    ReadsBack(codec, v) && TrimSpace(codec.marshal(v)) == codec.marshal(v)
  }

  /** Cleaning cleaned JSON changes nothing. */
  lemma CleanJsonIdempotent(input: string, codec: Codec)
    requires CleanJson(input, codec).Ok?
    requires codec.decode(TrimSpace(input)).value.Object? ==> CompactRoundTrip(codec, codec.decode(TrimSpace(input)).value)
    requires codec.decode("null") == Ok(Null)
    ensures CleanJson(CleanJson(input, codec).value, codec) == CleanJson(input, codec)
  {
    var v := codec.decode(TrimSpace(input)).value;
    if v.Null? {
      TrimSpaceOfTrimmed("null");
    }
  }

  // ---------------------------------------------------------------------------
  // processJob (worker.go:40-86)
  // ---------------------------------------------------------------------------

  /** A Sidekiq payload as json.Unmarshal leaves it in the typed record; only the arguments are untyped JSON values. */
  datatype SidekiqJob = SidekiqJob(jobClass: string, args: seq<Json>, jid: string)

  /**
   * What a payload that is not valid JSON leaves behind; the unmarshal error is ignored.
   * A type mismatch in one field leaves the other fields filled.
   */
  const ZeroJob := SidekiqJob("", [], "")

  /** A job processJob acts on. */
  predicate IsAnalysisJob(job: SidekiqJob)
  {
    job.jobClass == "ProductAnalysisJob" && |job.args| >= 2
  }

  /** The type assertions of worker.go:53-54, which panic otherwise. */
  predicate ArgsTyped(job: SidekiqJob)
  {
    IsAnalysisJob(job) ==> job.args[0].Number? && job.args[1].String?
  }

  /** Go's conversion of a float64 to int: toward zero. */
  function Truncate(x: real): (n: int)
    ensures 0.0 <= x ==> n as real <= x < n as real + 1.0
    ensures x < 0.0 ==> n as real - 1.0 < x <= n as real
  {
    if x >= 0.0 then x.Floor else -((-x).Floor)
  }

  function ProductId(job: SidekiqJob): int
    requires IsAnalysisJob(job) && ArgsTyped(job)
  {
    Truncate(job.args[0].n)
  }

  function ImagePath(job: SidekiqJob): string
    requires IsAnalysisJob(job) && ArgsTyped(job)
  {
    job.args[1].s
  }

  /** `{"error_message": %q}` as worker.go:61 and 72 write it. */
  function ErrorPayloadAsWritten(message: string): string
  {
    "{\"error_message\": " + Quote.GoQuote(message) + "}"
  }

  /** The failure payload with the message as a JSON string. */
  function ErrorPayload(message: string): string
  {
    "{\"error_message\": " + Quote.JsonQuote(message) + "}"
  }

  /** How a failure message is quoted into its payload. */
  datatype Quoting =
    | GoVerbQ     // Go's `%q`, as worker.go:61 and 72 do
    | JsonString  // a JSON string literal, as the `json` column needs

  function FailurePayload(quoting: Quoting, message: string): string
  {
    match quoting
    case GoVerbQ => ErrorPayloadAsWritten(message)
    case JsonString => ErrorPayload(message)
  }

  /** The two payloads coincide on messages with no control JSON spells differently, no DEL and no rune above U+FFFF. */
  lemma PayloadsAgree(message: string)
    requires forall i :: 0 <= i < |message| ==> !Quote.GoOnlyEscape(message[i])
    ensures ErrorPayloadAsWritten(message) == ErrorPayload(message)
  {
    Quote.QuotesAgree(message);
  }

  /** The text worker.go:72 puts before cleanJSON's error. */
  const ParsingError := "JSON parsing error: "

  /**
   * The one status write that ends a job the engine analysed (worker.go:59-83); the worker
   * quotes failures with `GoVerbQ`.
   */
  function Terminal(id: int, analysis: Result<string, string>, codec: Codec, quoting: Quoting): (s: Db.Statement)
    ensures s.id == id
    ensures s.status == "complete" || s.status == "failed"
    ensures s.status == "complete" <==> analysis.Ok? && CleanJson(analysis.value, codec).Ok?
    ensures s.status == "complete" ==> s.metadataJson == CleanJson(analysis.value, codec).value
    ensures analysis.Err? ==> s.metadataJson == FailurePayload(quoting, analysis.error)
    ensures analysis.Ok? && CleanJson(analysis.value, codec).Err?
            ==> s.metadataJson == FailurePayload(quoting, ParsingError + CleanJson(analysis.value, codec).error)
  {
    if analysis.Err? then
      Db.Statement(id, "failed", FailurePayload(quoting, analysis.error))
    else
      match CleanJson(analysis.value, codec)
      case Err(e) => Db.Statement(id, "failed", FailurePayload(quoting, ParsingError + e))
      case Ok(cleaned) => Db.Statement(id, "complete", cleaned)
  }

  /** The engine calls and the status writes one job causes. */
  datatype Effect = Effect(calls: seq<string>, writes: seq<Db.Statement>)

  function JobEffect(job: SidekiqJob, grammar: string, env: Ai.AnalysisEnv, codec: Codec): (e: Effect)
    requires ArgsTyped(job) && ImageResize.DecodesToPixels(env.resize)
    ensures !IsAnalysisJob(job) ==> e == Effect([], [])
    ensures IsAnalysisJob(job) ==> e.calls == [ImagePath(job)] && |e.writes| == 1 && e.writes[0].id == ProductId(job)
    ensures IsAnalysisJob(job) && Ai.Analyze(grammar, ImagePath(job), env).result.Err? ==> e.writes[0].status == "failed"
  {
    if !IsAnalysisJob(job) then Effect([], [])
    else
      var path := ImagePath(job);
      Effect([path], [Terminal(ProductId(job), Ai.Analyze(grammar, path, env).result, codec, GoVerbQ)])
  }

  /** The table after a job's writes. */
  function AfterWrites(rows: map<int, Db.Row>, writes: seq<Db.Statement>, now: int, codec: Codec): map<int, Db.Row>
  {
    if writes == [] then rows else AfterWrites(Db.Applied(rows, writes[0], now, codec), writes[1..], now, codec)
  }

  /**
   * processJob on the job json.Unmarshal decoded from the payload: drop it, or analyse the
   * image once and write the terminal status once. The store's error is only logged.
   */
  method ProcessJob(job: SidekiqJob, engine: Ai.Engine, store: Db.Products, env: Ai.AnalysisEnv, codec: Codec, now: int)
    requires ArgsTyped(job) && ImageResize.DecodesToPixels(env.resize)
    modifies engine, store
    ensures var e := JobEffect(job, engine.grammar, env, codec);
            && engine.analyzed == old(engine.analyzed) + e.calls
            && store.executed == old(store.executed) + e.writes
            && store.rows == AfterWrites(old(store.rows), e.writes, now, store.codec)
    ensures !IsAnalysisJob(job) ==> engine.requests == old(engine.requests)
    ensures IsAnalysisJob(job)
            ==> var a := Ai.Analyze(engine.grammar, ImagePath(job), env);
                engine.requests == old(engine.requests) + (if a.request.Some? then [a.request.value] else [])
  {
    if job.jobClass != "ProductAnalysisJob" {
      return;
    }
    if |job.args| < 2 {
      return;
    }
    var productId := Truncate(job.args[0].n);
    var imagePath := job.args[1].s;
    var result := engine.AnalyzeImage(imagePath, env);
    var write: Db.Statement;
    if result.Err? {
      write := Db.Statement(productId, "failed", ErrorPayloadAsWritten(result.error));
    } else {
      var cleaned := CleanJson(result.value, codec);
      if cleaned.Err? {
        write := Db.Statement(productId, "failed", ErrorPayloadAsWritten(ParsingError + cleaned.error));
      } else {
        write := Db.Statement(productId, "complete", cleaned.value);
      }
    }
    var _ := store.UpdateStatus(write.id, write.status, write.metadataJson, now);
  }
}
