/**
 * The llama-server engine (go-worker/internal/ai/service.go): the launch argument list,
 * the health-poll decision, engine construction, and the classification of a
 * chat-completions reply. Processes, HTTP, clocks and files are outside the model; what
 * they do during a call enters as explicit values (a poll trace, an `AnalysisEnv`).
 */
module Ai {
  import opened Wrappers
  import Format
  import ImageResize

  // ---------------------------------------------------------------------------
  // Launch arguments (service.go:30-72)
  // ---------------------------------------------------------------------------

  /** The last element of a slash-separated path (Go's filepath.Base on a clean path). */
  function BaseName(path: string): (b: string)
    ensures |b| <= |path| && b == path[|path| - |b|..]
    ensures forall i :: 0 <= i < |b| ==> b[i] != '/'
    ensures |b| < |path| ==> path[|path| - |b| - 1] == '/'
    decreases |path|
  {
    if |path| == 0 || path[|path| - 1] == '/' then ""
    else BaseName(path[..|path| - 1]) + [path[|path| - 1]]
  }

  /** The projector file beside the model: `mmproj-` put in front of the model's file name. */
  function MmprojPath(modelPath: string): string
  {
    var k := |modelPath| - |BaseName(modelPath)|;
    modelPath[..k] + "mmproj-" + modelPath[k..]
  }

  /** The `--device` value of each acceleration mode that offloads layers; None for the rest. */
  function Device(acceleration: string): Option<string>
  {
    match acceleration
    case "metal" => Some("metal")
    case "gpu" => Some("cuda")
    case "arm" => Some("arm")
    case _ => None
  }

  /** The argument list NewEngine passes to llama-server. */
  function LaunchArgs(modelPath: string, acceleration: string, gpuLayers: int, projectorExists: bool): (args: seq<string>)
    ensures |args| == 6 + (if Device(acceleration).Some? then 4 else 0) + (if projectorExists then 2 else 0)
    ensures args[..6] == ["-m", modelPath, "--port", "8080", "-c", "8192"]
    ensures Device(acceleration).Some?
            ==> args[6..10] == ["-ngl", Format.DecimalString(gpuLayers), "--device", Device(acceleration).value]
    ensures projectorExists ==> args[|args| - 2..] == ["--mmproj", MmprojPath(modelPath)]
  {
    var accel := if Device(acceleration).Some?
      then ["-ngl", Format.DecimalString(gpuLayers), "--device", Device(acceleration).value] else [];
    var proj := if projectorExists then ["--mmproj", MmprojPath(modelPath)] else [];
    ["-m", modelPath, "--port", "8080", "-c", "8192"] + accel + proj
  }

  /** Builds the list by successive appends, one `switch` case per mode. */
  method BuildArgs(modelPath: string, acceleration: string, gpuLayers: int, projectorExists: bool)
    returns (args: seq<string>)
    ensures args == LaunchArgs(modelPath, acceleration, gpuLayers, projectorExists)
  {
    var d := Format.DecimalString(gpuLayers);
    args := ["-m", modelPath, "--port", "8080", "-c", "8192"];
    if acceleration == "metal" {
      args := args + ["-ngl", d];
      args := args + ["--device", "metal"];
      assert args == ["-m", modelPath, "--port", "8080", "-c", "8192", "-ngl", d, "--device", "metal"];
    } else if acceleration == "gpu" {
      args := args + ["-ngl", d];
      args := args + ["--device", "cuda"];
      assert args == ["-m", modelPath, "--port", "8080", "-c", "8192", "-ngl", d, "--device", "cuda"];
    } else if acceleration == "arm" {
      args := args + ["-ngl", d];
      args := args + ["--device", "arm"];
      assert args == ["-m", modelPath, "--port", "8080", "-c", "8192", "-ngl", d, "--device", "arm"];
    } else if acceleration == "cpu" {
    } else {
    }
    if projectorExists {
      args := args + ["--mmproj", MmprojPath(modelPath)];
    }
  }

  /** CPU mode and every unrecognised mode launch with the same arguments. */
  lemma UnknownModeFallsBackToCpu(modelPath: string, acceleration: string, gpuLayers: int, projectorExists: bool)
    requires acceleration !in {"metal", "gpu", "arm"}
    ensures LaunchArgs(modelPath, acceleration, gpuLayers, projectorExists)
         == LaunchArgs(modelPath, "cpu", 0, projectorExists)
    ensures "-ngl" !in LaunchArgs(modelPath, acceleration, gpuLayers, projectorExists)[6..]
  {
  }

  // ---------------------------------------------------------------------------
  // Health polling (service.go:253-281)
  // ---------------------------------------------------------------------------

  datatype PollOutcome = Responded(status: int) | Unreachable

  /** One GET of /health and the time, in milliseconds after polling began, when it returned. */
  datatype Poll = Poll(outcome: PollOutcome, finishedAt: int)

  /** The two-minute limit NewEngine gives the server (service.go:88), in milliseconds. */
  const HealthTimeout := 120_000

  predicate Ready(p: Poll) { p.outcome == Responded(200) }

  /** Some poll answers 200 and every poll before it returned by the deadline. */
  predicate ComesUp(polls: seq<Poll>, timeout: int)
  {
    exists i :: 0 <= i < |polls| && Ready(polls[i]) && forall j :: 0 <= j < i ==> polls[j].finishedAt <= timeout
  }

  /**
   * waitForServer over the polls it makes: ready on the first 200; otherwise, once a poll
   * returns after the deadline, not ready. 503s and unreachable polls just go on. The trace
   * reaches past the deadline, as time does.
   */
  method WaitForServer(polls: seq<Poll>, timeout: int) returns (ready: bool, used: nat)
    requires |polls| > 0 && polls[|polls| - 1].finishedAt > timeout
    ensures ready <==> ComesUp(polls, timeout)
    ensures 0 < used <= |polls| && (ready <==> Ready(polls[used - 1]))
    ensures forall j :: 0 <= j < used - 1 ==> !Ready(polls[j]) && polls[j].finishedAt <= timeout
  {
    var i := 0;
    while true
      invariant 0 <= i < |polls|
      invariant forall j :: 0 <= j < i ==> !Ready(polls[j]) && polls[j].finishedAt <= timeout
      decreases |polls| - i
    {
      if Ready(polls[i]) {
        return true, i + 1;
      }
      if polls[i].finishedAt > timeout {
        return false, i + 1;
      }
      i := i + 1;
    }
  }

  // ---------------------------------------------------------------------------
  // The engine
  // ---------------------------------------------------------------------------

  /** What became of the llama-server process. */
  datatype Launch = NotLaunched | Killed(args: seq<string>) | Serving(args: seq<string>)

  /** The parts of a chat-completions request the model keeps (service.go:165-191). */
  datatype ChatRequest = ChatRequest(grammar: string, maxTokens: int, imageUrl: string)

  datatype HttpReply = HttpReply(status: int, body: string)

  datatype Choice = Choice(content: string, finishReason: string)

  /** The decoded reply body: only `choices` is read. */
  datatype ChatResponse = ChatResponse(choices: seq<Choice>)

  /** What the file system and the server do during one AnalyzeImage call. */
  datatype AnalysisEnv = AnalysisEnv(
    resize: ImageResize.ResizeEnv,        // the preprocessing step
    encoded: Result<string, string>,      // base64 text of the file sent, or the read error
    reply: Result<HttpReply, string>,     // the HTTP exchange, or the transport error
    readError: Option<string>,            // reading the reply body
    parsed: Result<ChatResponse, string>) // json.Unmarshal of that body

  /** The result of a reply, and whether the truncation warning was printed. */
  datatype Interpretation = Interpretation(result: Result<string, string>, truncated: bool)

  /** Classification of the server's reply (service.go:219-250). */
  function InterpretResponse(status: int, body: string, parsed: Result<ChatResponse, string>): (r: Interpretation)
    ensures r.result.Ok? <==> status == 200 && parsed.Ok? && |parsed.value.choices| > 0
    ensures r.result.Ok? ==> r.result.value == parsed.value.choices[0].content
    ensures status != 200 ==> r.result == Err("API error (" + Format.DecimalString(status) + "): " + body)
    ensures status == 200 && parsed.Err?
            ==> r.result == Err("failed to parse chat response: " + parsed.error + "\nResponse: " + body)
    ensures status == 200 && parsed.Ok? && parsed.value.choices == []
            ==> r.result == Err("no choices in response: " + body)
    ensures r.truncated <==> r.result.Ok? && parsed.value.choices[0].finishReason == "length"
  {
    if status != 200 then
      Interpretation(Err("API error (" + Format.DecimalString(status) + "): " + body), false)
    else if parsed.Err? then
      Interpretation(Err("failed to parse chat response: " + parsed.error + "\nResponse: " + body), false)
    else if |parsed.value.choices| == 0 then
      Interpretation(Err("no choices in response: " + body), false)
    else
      var first := parsed.value.choices[0];
      Interpretation(Ok(first.content), first.finishReason == "length")
  }

  /** A truncated generation is reported, never refused: finish_reason does not affect the result. */
  lemma TruncationOnlyWarns(status: int, body: string, choices: seq<Choice>, reason: string)
    requires |choices| > 0
    ensures InterpretResponse(status, body, Ok(ChatResponse(choices[0 := Choice(choices[0].content, reason)]))).result
         == InterpretResponse(status, body, Ok(ChatResponse(choices))).result
  {
  }

  /** The image target size AnalyzeImage asks for (service.go:109). */
  const AnalysisSize := 768

  /** The generation limit of the chat request (service.go:188), independent of the image size. */
  const MaxTokens := 768

  /** The resized file, the request sent, the classified reply and the temporary file removed. */
  datatype Analysis = Analysis(result: Result<string, string>, request: Option<ChatRequest>, truncated: bool, removed: Option<string>)

  /** One AnalyzeImage call (service.go:107-251) with the engine's grammar. */
  function Analyze(grammar: string, imagePath: string, env: AnalysisEnv): (a: Analysis)
    requires ImageResize.DecodesToPixels(env.resize)
    ensures var resized := ImageResize.ResizeToMinDimension(imagePath, AnalysisSize, env.resize).result;
            && (resized.Err? ==> a == Analysis(Err("failed to resize image: " + resized.error), None, false, None))
            && (resized.Ok? && env.encoded.Err? ==> a.result == Err("failed to encode image: " + env.encoded.error))
            && (a.request.Some? <==> resized.Ok? && env.encoded.Ok?)
            && (resized.Ok? && resized.value != imagePath ==> a.removed == Some(resized.value))
            && (a.removed.Some? ==> resized.Ok? && a.removed.value == resized.value != imagePath)
    ensures a.request.Some?
            ==> a.request.value == ChatRequest(grammar, MaxTokens, "data:image/jpeg;base64," + env.encoded.value)
    ensures a.request.Some? && env.reply.Err? ==> a.result == Err("request failed: " + env.reply.error)
    ensures a.request.Some? && env.reply.Ok? && env.readError.Some?
            ==> a.result == Err("failed to read response: " + env.readError.value)
    ensures a.result.Ok? ==> a.request.Some? && env.reply.Ok? && env.readError.None? && env.reply.value.status == 200
    ensures a.request.Some? && env.reply.Ok? && env.readError.None?
            ==> var i := InterpretResponse(env.reply.value.status, env.reply.value.body, env.parsed);
                a.result == i.result && a.truncated == i.truncated
  {
    var resized := ImageResize.ResizeToMinDimension(imagePath, AnalysisSize, env.resize).result;
    if resized.Err? then
      Analysis(Err("failed to resize image: " + resized.error), None, false, None)
    else
      var removed := if resized.value != imagePath then Some(resized.value) else None;
      if env.encoded.Err? then
        Analysis(Err("failed to encode image: " + env.encoded.error), None, false, removed)
      else
        var request := ChatRequest(grammar, MaxTokens, "data:image/jpeg;base64," + env.encoded.value);
        if env.reply.Err? then
          Analysis(Err("request failed: " + env.reply.error), Some(request), false, removed)
        else if env.readError.Some? then
          Analysis(Err("failed to read response: " + env.readError.value), Some(request), false, removed)
        else
          var i := InterpretResponse(env.reply.value.status, env.reply.value.body, env.parsed);
          Analysis(i.result, Some(request), i.truncated, removed)
  }

  /** A temporary file the preprocessing leaves behind is removed before AnalyzeImage returns. */
  lemma NoTemporaryFileSurvives(grammar: string, imagePath: string, env: AnalysisEnv)
    requires ImageResize.DecodesToPixels(env.resize)
    ensures var left := ImageResize.ResizeToMinDimension(imagePath, AnalysisSize, env.resize).leftover;
            left.Some? && left.value != imagePath ==> Analyze(grammar, imagePath, env).removed == left
  {
  }

  class Engine {
    const args: seq<string>
    const apiURL: string
    const grammar: string
    /** The image paths AnalyzeImage has been called with, in order. */
    var analyzed: seq<string>
    /** The chat requests sent to the server, in order. */
    var requests: seq<ChatRequest>

    constructor (args: seq<string>, grammar: string)
      ensures this.args == args && this.grammar == grammar && apiURL == "http://localhost:8080"
      ensures analyzed == [] && requests == []
    {
      this.args := args;
      this.grammar := grammar;
      apiURL := "http://localhost:8080";
      analyzed := [];
      requests := [];
    }

    /** AnalyzeImage: records the call and the request it sends, and returns the outcome. */
    method AnalyzeImage(imagePath: string, env: AnalysisEnv) returns (r: Result<string, string>)
      requires ImageResize.DecodesToPixels(env.resize)
      modifies this
      ensures var a := Analyze(grammar, imagePath, env);
              && r == a.result
              && analyzed == old(analyzed) + [imagePath]
              && requests == old(requests) + (if a.request.Some? then [a.request.value] else [])
    {
      var a := Analyze(grammar, imagePath, env);
      analyzed := analyzed + [imagePath];
      if a.request.Some? {
        requests := requests + [a.request.value];
      }
      r := a.result;
    }
  }

  /**
   * NewEngine (service.go:24-98): read the grammar, build the arguments, start the server
   * and wait for it; a server that never comes up is killed.
   */
  method NewEngine(modelPath: string, grammarFile: Result<string, string>, acceleration: string, gpuLayers: int,
                   projectorExists: bool, startError: Option<string>, polls: seq<Poll>)
    returns (r: Result<Engine, string>, launch: Launch)
    requires |polls| > 0 && polls[|polls| - 1].finishedAt > HealthTimeout
    ensures grammarFile.Err? ==> r == Err("failed to read grammar: " + grammarFile.error) && launch == NotLaunched
    ensures grammarFile.Ok? && startError.Some?
            ==> r == Err("failed to start llama server: " + startError.value) && launch == NotLaunched
    ensures launch != NotLaunched ==> launch.args == LaunchArgs(modelPath, acceleration, gpuLayers, projectorExists)
    ensures grammarFile.Ok? && startError.None? ==> (launch.Serving? <==> ComesUp(polls, HealthTimeout))
    ensures launch != NotLaunched <==> grammarFile.Ok? && startError.None?
    ensures grammarFile.Ok? && startError.None? && !ComesUp(polls, HealthTimeout)
            ==> launch == Killed(LaunchArgs(modelPath, acceleration, gpuLayers, projectorExists))
                && r == Err("llama-server failed to start after 2 minutes")
    ensures launch.Killed? ==> r == Err("llama-server failed to start after 2 minutes")
    ensures r.Ok? <==> launch.Serving?
    ensures r.Ok? ==> fresh(r.value) && r.value.args == launch.args && r.value.grammar == grammarFile.value
                      && r.value.apiURL == "http://localhost:8080" && r.value.analyzed == [] && r.value.requests == []
  {
    if grammarFile.Err? {
      return Err("failed to read grammar: " + grammarFile.error), NotLaunched;
    }
    var args := BuildArgs(modelPath, acceleration, gpuLayers, projectorExists);
    if startError.Some? {
      return Err("failed to start llama server: " + startError.value), NotLaunched;
    }
    var ready, _ := WaitForServer(polls, HealthTimeout);
    if !ready {
      return Err("llama-server failed to start after 2 minutes"), Killed(args);
    }
    var engine := new Engine(args, grammarFile.value);
    return Ok(engine), Serving(args);
  }
}
