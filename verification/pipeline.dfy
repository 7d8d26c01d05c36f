/**
 * What a queued job does to a product row, end to end: the worker's dispatch
 * (go-worker/internal/queue/worker.go:40-86) followed by the store's partial update
 * (go-worker/internal/db/postgres.go:21-36), read against the Rails status enum
 * (rails-app/app/models/product.rb:4).
 */
module Pipeline {
  import opened Wrappers
  import opened Json
  import ImageResize
  import Ai
  import Db
  import Queue
  import ProductModel
  import Quote

  /** Every status the worker writes is one of the Rails enum's stored values. */
  lemma WorkerWritesEnumStatuses(job: Queue.SidekiqJob, grammar: string, env: Ai.AnalysisEnv, codec: Codec)
    requires Queue.ArgsTyped(job) && ImageResize.DecodesToPixels(env.resize)
    ensures forall w :: w in Queue.JobEffect(job, grammar, env, codec).writes ==> ProductModel.FromValue(w.status).Some?
  {
    var e := Queue.JobEffect(job, grammar, env, codec);
    if Queue.IsAnalysisJob(job) {
      assert e.writes[0].status == "complete" || e.writes[0].status == "failed";
    }
  }

  /**
   * A failed analysis, with a message `%q` and JSON quote alike, marks the row failed and
   * records the message, and keeps the title, description, taxonomy and violations it had.
   * The store must read the failure payload as the one-member object it spells.
   */
  lemma FailedJobKeepsContent(rows: map<int, Db.Row>, id: int, message: string, now: int, goCodec: Codec, dbCodec: Codec)
    requires id in rows
    requires forall i :: 0 <= i < |message| ==> !Quote.GoOnlyEscape(message[i])
    requires dbCodec.decode(Queue.ErrorPayloadAsWritten(message)) == Ok(Object(map["error_message" := String(message)]))
    ensures var row := rows[id];
            var after := Db.Applied(rows, Queue.Terminal(id, Err(message), goCodec, Queue.GoVerbQ), now, dbCodec)[id];
            && after.processingStatus == Some(ProductModel.Value(ProductModel.Failed))
            && after.errorMessage == Some(message)
            && after.title == row.title && after.description == row.description
            && after.taxonomy == row.taxonomy && after.violations == row.violations
  {
    Queue.PayloadsAgree(message);
    IntendedFailureMarksRow(rows, id, message, now, goCodec, dbCodec);
  }

  /**
   * With the payload quoted as a JSON string, every failed analysis marks the row failed
   * with its message and keeps the row's content, whatever characters the message holds.
   */
  lemma IntendedFailureMarksRow(rows: map<int, Db.Row>, id: int, message: string, now: int, goCodec: Codec, dbCodec: Codec)
    requires id in rows
    requires dbCodec.decode(Queue.ErrorPayload(message)) == Ok(Object(map["error_message" := String(message)]))
    ensures var row := rows[id];
            var after := Db.Applied(rows, Queue.Terminal(id, Err(message), goCodec, Queue.JsonString), now, dbCodec)[id];
            && after.processingStatus == Some(ProductModel.Value(ProductModel.Failed))
            && after.errorMessage == Some(message)
            && after.title == row.title && after.description == row.description
            && after.taxonomy == row.taxonomy && after.violations == row.violations
  {
    var doc := Object(map["error_message" := String(message)]);
    assert !Db.Carries(doc, "title") && !Db.Carries(doc, "description") && !Db.Carries(doc, "taxonomy");
    assert !Db.Carries(doc, "violations") && Db.Carries(doc, "error_message");
  }

  /**
   * A failed analysis whose message is the single character BEL: the worker writes
   * `{"error_message": "\a"}`, whose string is not a JSON string (RFC 8259 section 7 has no
   * `\a` escape). A store that rejects that text leaves the whole table, and so the row's
   * status, as it was: the product is never marked failed.
   */
  lemma BellFailureLeavesRowUnmarked(rows: map<int, Db.Row>, id: int, now: int, goCodec: Codec, dbCodec: Codec)
    requires dbCodec.decode(Queue.ErrorPayloadAsWritten([Quote.Bell])).Err?
    ensures Queue.ErrorPayloadAsWritten([Quote.Bell]) == "{\"error_message\": " + "\"\\a\"" + "}"
    ensures !Quote.IsJsonString(Quote.GoQuote([Quote.Bell]))
    ensures Db.Applied(rows, Queue.Terminal(id, Err([Quote.Bell]), goCodec, Queue.GoVerbQ), now, dbCodec) == rows
  {
    Quote.GoQuoteNotJson();
  }

  /**
   * A successful analysis whose object the store reads back fills the columns it carries;
   * an error_message left by an earlier failure survives unless the object carries one.
   */
  lemma {:induction false} CompletedJobKeepsStaleError(rows: map<int, Db.Row>, id: int, raw: string, now: int,
                                                        goCodec: Codec, dbCodec: Codec)
    requires id in rows
    requires goCodec.decode(Queue.TrimSpace(raw)).Ok? && goCodec.decode(Queue.TrimSpace(raw)).value.Object?
    requires var doc := goCodec.decode(Queue.TrimSpace(raw)).value;
             dbCodec.decode(goCodec.marshal(doc)) == Ok(doc)
    ensures var doc := goCodec.decode(Queue.TrimSpace(raw)).value;
            var after := Db.Applied(rows, Queue.Terminal(id, Ok(raw), goCodec, Queue.GoVerbQ), now, dbCodec)[id];
            && after.processingStatus == Some(ProductModel.Value(ProductModel.Complete))
            && (Db.Carries(doc, "title") ==> after.title == Db.Text(doc, "title", dbCodec))
            && (!Db.Carries(doc, "error_message") ==> after.errorMessage == rows[id].errorMessage)
  {
    var doc := goCodec.decode(Queue.TrimSpace(raw)).value;
    var s := Queue.Terminal(id, Ok(raw), goCodec, Queue.GoVerbQ);
    assert s.metadataJson == goCodec.marshal(doc);
  }

  /** The job `[42, "/img/42.jpg"]` analyses that image once and writes once, to product 42. */
  lemma AnalysisJobExample(grammar: string, env: Ai.AnalysisEnv, codec: Codec)
    requires ImageResize.DecodesToPixels(env.resize)
    ensures var job := Queue.SidekiqJob("ProductAnalysisJob", [Number(42.0), String("/img/42.jpg")], "j1");
            var e := Queue.JobEffect(job, grammar, env, codec);
            e.calls == ["/img/42.jpg"] && |e.writes| == 1 && e.writes[0].id == 42
  {
    var job := Queue.SidekiqJob("ProductAnalysisJob", [Number(42.0), String("/img/42.jpg")], "j1");
    assert Queue.ProductId(job) == 42;
  }

  /**
   * Another job class, or a payload that is not valid JSON (which leaves the zero job),
   * touches neither the engine nor the store.
   */
  lemma OtherJobsIgnored(args: seq<Json>, grammar: string, env: Ai.AnalysisEnv, codec: Codec)
    requires ImageResize.DecodesToPixels(env.resize)
    ensures Queue.JobEffect(Queue.SidekiqJob("OtherJob", args, "j2"), grammar, env, codec) == Queue.Effect([], [])
    ensures Queue.JobEffect(Queue.ZeroJob, grammar, env, codec) == Queue.Effect([], [])
  {
  }

  /** A job with fewer than two arguments is dropped, whatever its class. */
  lemma ShortJobsDropped(jobClass: string, args: seq<Json>, grammar: string, env: Ai.AnalysisEnv, codec: Codec)
    requires |args| < 2 && ImageResize.DecodesToPixels(env.resize)
    ensures Queue.JobEffect(Queue.SidekiqJob(jobClass, args, "j3"), grammar, env, codec) == Queue.Effect([], [])
  {
  }
}
