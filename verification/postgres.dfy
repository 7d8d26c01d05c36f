/**
 * The products table and the one statement the worker runs against it
 * (go-worker/internal/db/postgres.go:21-36): an UPDATE that always sets the status and
 * `updated_at`, and overwrites each of five columns only when the JSON payload carries that
 * key with a non-null value. The connection and SQL execution are outside the model.
 */
module Db {
  import opened Wrappers
  import opened Json

  /** A products row; None is SQL NULL. */
  datatype Row = Row(
    title: Option<string>,
    description: Option<string>,
    taxonomy: Option<string>,
    processingStatus: Option<string>,
    violations: Option<Json>,
    errorMessage: Option<string>,
    createdAt: int,
    updatedAt: int)

  /** One UpdateStatus call: its three parameters. */
  datatype Statement = Statement(id: int, status: string, metadataJson: string)

  /** A member that `->>` reports as non-NULL: present in an object and not JSON null. */
  predicate Carries(doc: Json, key: string)
  {
    doc.Object? && key in doc.members && doc.members[key] != Null
  }

  /** The text `->>` yields for a value: a string's contents, any other value's JSON text. */
  function Render(v: Json, codec: Codec): string
  {
    if v.String? then v.s else codec.marshal(v)
  }

  /** `doc->>key`: NULL unless the document is an object carrying the key. */
  function Text(doc: Json, key: string, codec: Codec): (t: Option<string>)
    ensures t.Some? <==> Carries(doc, key)
    ensures t.Some? && doc.members[key].String? ==> t.value == doc.members[key].s
  {
    if Carries(doc, key) then Some(Render(doc.members[key], codec)) else None
  }

  /** The column keeps `prior` unless the payload carries `key`. */
  function Overwrite(prior: Option<string>, doc: Json, key: string, codec: Codec): Option<string>
  {
    if Text(doc, key, codec).Some? then Text(doc, key, codec) else prior
  }

  /** The SET list applied to one row (postgres.go:24-30). */
  function Updated(row: Row, status: string, doc: Json, now: int, codec: Codec): (r: Row)
    ensures r.processingStatus == Some(status) && r.updatedAt == now && r.createdAt == row.createdAt
    ensures Carries(doc, "title") ==> r.title == Some(Render(doc.members["title"], codec))
    ensures !Carries(doc, "title") ==> r.title == row.title
    ensures Carries(doc, "description") ==> r.description == Some(Render(doc.members["description"], codec))
    ensures !Carries(doc, "description") ==> r.description == row.description
    ensures Carries(doc, "taxonomy") ==> r.taxonomy == Some(Render(doc.members["taxonomy"], codec))
    ensures !Carries(doc, "taxonomy") ==> r.taxonomy == row.taxonomy
    ensures Carries(doc, "violations") ==> r.violations == Some(doc.members["violations"])
    ensures !Carries(doc, "violations") ==> r.violations == row.violations
    ensures Carries(doc, "error_message") ==> r.errorMessage == Some(Render(doc.members["error_message"], codec))
    ensures !Carries(doc, "error_message") ==> r.errorMessage == row.errorMessage
  {
    row.(
      processingStatus := Some(status),
      title := Overwrite(row.title, doc, "title", codec),
      description := Overwrite(row.description, doc, "description", codec),
      taxonomy := Overwrite(row.taxonomy, doc, "taxonomy", codec),
      violations := if Carries(doc, "violations") then Some(doc.members["violations"]) else row.violations,
      errorMessage := Overwrite(row.errorMessage, doc, "error_message", codec),
      updatedAt := now)
  }

  /** The table after one statement: the payload is read as `json` first, and only row `id` changes. */
  function Applied(rows: map<int, Row>, s: Statement, now: int, codec: Codec): (r: map<int, Row>)
    ensures r.Keys == rows.Keys
    ensures forall k :: k in rows && k != s.id ==> r[k] == rows[k]
    ensures codec.decode(s.metadataJson).Err? ==> r == rows
    ensures codec.decode(s.metadataJson).Ok? && s.id in rows
            ==> r[s.id] == Updated(rows[s.id], s.status, codec.decode(s.metadataJson).value, now, codec)
  {
    match codec.decode(s.metadataJson)
    case Err(_) => rows
    case Ok(doc) => if s.id in rows then rows[s.id := Updated(rows[s.id], s.status, doc, now, codec)] else rows
  }

  /** A payload with only `title` and `taxonomy` leaves description, violations and error_message alone. */
  lemma TitleAndTaxonomyOnly(row: Row, status: string, title: Json, taxonomy: Json, now: int, codec: Codec)
    ensures var r := Updated(row, status, Object(map["title" := title, "taxonomy" := taxonomy]), now, codec);
            r.description == row.description && r.violations == row.violations && r.errorMessage == row.errorMessage
  {
  }

  /** Running the same statement twice at the same time is the same as running it once. */
  lemma UpdateIdempotent(row: Row, status: string, doc: Json, now: int, codec: Codec)
    ensures Updated(Updated(row, status, doc, now, codec), status, doc, now, codec) == Updated(row, status, doc, now, codec)
  {
  }

  /** The members `->>` reports as non-NULL. */
  function Carried(doc: Json): (m: map<string, Json>)
    ensures forall k :: k in m <==> Carries(doc, k)
    ensures forall k :: k in m ==> doc.Object? && k in doc.members && m[k] == doc.members[k]
  {
    if doc.Object? then map k | k in doc.members && doc.members[k] != Null :: doc.members[k] else map[]
  }

  /** One payload that does what two successive ones do: the later's carried members win. */
  function Merge(first: Json, second: Json): (d: Json)
    ensures d.Object?
    ensures forall k :: Carries(d, k) <==> Carries(first, k) || Carries(second, k)
    ensures forall k :: Carries(second, k) ==> k in d.members && d.members[k] == second.members[k]
    ensures forall k :: Carries(first, k) && !Carries(second, k) ==> k in d.members && d.members[k] == first.members[k]
  {
    Object(Carried(first) + Carried(second))
  }

  /** Two statements on a row compose into one whose payload merges theirs. */
  lemma {:induction false} UpdatesCompose(row: Row, s1: string, d1: Json, t1: int, s2: string, d2: Json, t2: int, codec: Codec)
    ensures Updated(Updated(row, s1, d1, t1, codec), s2, d2, t2, codec) == Updated(row, s2, Merge(d1, d2), t2, codec)
  {
    MergedText(d1, d2, "title", codec);
    MergedText(d1, d2, "description", codec);
    MergedText(d1, d2, "taxonomy", codec);
    MergedText(d1, d2, "error_message", codec);
  }

  /** What `->>` reads from a merged payload: the later payload's member if it carries one. */
  lemma MergedText(d1: Json, d2: Json, key: string, codec: Codec)
    ensures Text(Merge(d1, d2), key, codec) == Overwrite(Text(d1, key, codec), d2, key, codec)
  {
  }

  /** The products table, as the worker's connection sees it. */
  class Products {
    var rows: map<int, Row>
    /** The statements executed, in order. */
    var executed: seq<Statement>
    /** How the database reads a `json` parameter. */
    const codec: Codec

    constructor (rows: map<int, Row>, codec: Codec)
      ensures this.rows == rows && this.codec == codec && executed == []
    {
      this.rows := rows;
      this.codec := codec;
      executed := [];
    }

    /** UpdateStatus (postgres.go:21-36); `now` is the database clock. Fails only on invalid JSON. */
    method UpdateStatus(id: int, status: string, metadataJson: string, now: int) returns (err: Option<string>)
      modifies this
      ensures executed == old(executed) + [Statement(id, status, metadataJson)]
      ensures rows == Applied(old(rows), Statement(id, status, metadataJson), now, codec)
      ensures err.Some? <==> codec.decode(metadataJson).Err?
    {
      executed := executed + [Statement(id, status, metadataJson)];
      var parsed := codec.decode(metadataJson);
      if parsed.Err? {
        return Some(parsed.error);
      }
      if id in rows {
        rows := rows[id := Updated(rows[id], status, parsed.value, now, codec)];
      }
      err := None;
    }
  }
}
