/**
 * The Rails product record (rails-app/app/models/product.rb): the processing_status enum
 * and the before_create hook that names an untitled product after its image file.
 */
module ProductModel {
  import opened Wrappers
  import opened Json

  datatype ProcessingStatus = Pending | Processing | Complete | Failed

  /** The string each status is stored as (product.rb:4). */
  function Value(s: ProcessingStatus): string
  {
    match s
    case Pending => "pending"
    case Processing => "processing"
    case Complete => "complete"
    case Failed => "failed"
  }

  /** The status a stored string stands for, if any. */
  function FromValue(v: string): Option<ProcessingStatus>
  {
    match v
    case "pending" => Some(Pending)
    case "processing" => Some(Processing)
    case "complete" => Some(Complete)
    case "failed" => Some(Failed)
    case _ => None
  }

  /** Exactly the four stored strings name a status, each a different one. */
  lemma StatusValuesRoundTrip(s: ProcessingStatus, v: string)
    ensures FromValue(Value(s)) == Some(s)
    ensures FromValue(v).Some? ==> Value(FromValue(v).value) == v
  {
  }

  // ---------------------------------------------------------------------------
  // The default title: filename.gsub(/\.[^.]+$/, '')
  // ---------------------------------------------------------------------------

  predicate NoNewline(f: string) { forall i :: 0 <= i < |f| ==> f[i] != '\n' }

  /** The pattern `\.[^.]+$` matches at `i`: a dot, then one or more non-dots to the end. */
  predicate MatchesAt(f: string, i: int)
  {
    0 <= i && i + 1 < |f| && f[i] == '.' && forall j :: i < j < |f| ==> f[j] != '.'
  }

  /** The position of the last dot. */
  function LastDot(f: string): (k: Option<nat>)
    ensures k.Some? ==> k.value < |f| && f[k.value] == '.' && forall j :: k.value < j < |f| ==> f[j] != '.'
    ensures k.None? ==> forall j :: 0 <= j < |f| ==> f[j] != '.'
    decreases |f|
  {
    if f == [] then None
    else if f[|f| - 1] == '.' then Some(|f| - 1)
    else LastDot(f[..|f| - 1])
  }

  /** The file name without its last extension (product.rb:12, on names without a line break). */
  function StripExtension(f: string): (r: string)
    requires NoNewline(f)
    ensures |r| <= |f| && r == f[..|r|]
  {
    match LastDot(f)
    case None => f
    case Some(k) => if k + 1 < |f| then f[..k] else f
  }

  /** Where the pattern matches, everything from that dot on is removed. */
  lemma StripAtMatch(f: string, i: int)
    requires NoNewline(f) && MatchesAt(f, i)
    ensures StripExtension(f) == f[..i]
  {
    var k := LastDot(f);
    assert k.Some?;
    assert k.value == i;
  }

  /** Where the pattern matches nowhere, the name is kept whole. */
  lemma StripWithoutMatch(f: string)
    requires NoNewline(f) && forall i :: !MatchesAt(f, i)
    ensures StripExtension(f) == f
  {
    var k := LastDot(f);
    if k.Some? && k.value + 1 < |f| {
      assert MatchesAt(f, k.value);
    }
  }

  /** Only the last extension goes: `name.ext` loses `.ext` and keeps every earlier dot. */
  lemma {:induction false} StripsOnlyLastExtension(name: string, ext: string)
    requires NoNewline(name) && NoNewline(ext)
    requires |ext| > 0 && forall j :: 0 <= j < |ext| ==> ext[j] != '.'
    ensures StripExtension(name + "." + ext) == name
  {
    var f := name + "." + ext;
    StripAtMatch(f, |name|);
    assert f[..|name|] == name;
  }

  /** `a.tar.gz` becomes `a.tar`. */
  lemma TarGzExample()
    ensures StripExtension("a.tar.gz") == "a.tar"
  {
    StripsOnlyLastExtension("a.tar", "gz");
    assert "a.tar" + "." + "gz" == "a.tar.gz";
  }

  /** A name without a dot, or ending in a dot, is used as it is. */
  lemma {:induction false} NoExtensionKept(f: string)
    requires NoNewline(f)
    requires (forall j :: 0 <= j < |f| ==> f[j] != '.') || (|f| > 0 && f[|f| - 1] == '.')
    ensures StripExtension(f) == f
  {
    if |f| > 0 && f[|f| - 1] == '.' {
      assert LastDot(f) == Some(|f| - 1);
    }
  }

  // ---------------------------------------------------------------------------
  // The record
  // ---------------------------------------------------------------------------

  class Product {
    var title: Option<string>
    /** The attached image's file name. */
    const filename: string
    var processingStatus: ProcessingStatus
    var violations: Json

    /** A new record: the column defaults of the products migration. */
    constructor (title: Option<string>, filename: string)
      ensures this.title == title && this.filename == filename
      ensures processingStatus == Pending && violations == Object(map[])
    {
      this.title := title;
      this.filename := filename;
      processingStatus := Pending;
      violations := Object(map[]);
    }

    /** set_default_title: `title ||= ...`; a present title, even an empty one, is kept. */
    method SetDefaultTitle()
      requires NoNewline(filename)
      modifies this`title
      ensures old(title).Some? ==> title == old(title)
      ensures old(title).None? ==> title == Some(StripExtension(filename))
    {
      if title.None? {
        title := Some(StripExtension(filename));
      }
    }
  }
}
