/**
 * Image preprocessing (go-worker/internal/image/resize.go): the decisions inside
 * ResizeToMinDimension. Opening, decoding, scaling and encoding pixels are library work;
 * their outcomes enter as a `ResizeEnv` value, and the model keeps the integer dimension
 * plan, the skip rule, the choice of encoder and the error paths.
 */
module ImageResize {
  import opened Wrappers
  import opened Ascii

  datatype Dimensions = Dimensions(width: int, height: int)

  function Min(a: int, b: int): int { if a <= b then a else b }

  function Max(a: int, b: int): int { if a <= b then b else a }

  /**
   * The output size (resize.go:36-45): the shorter side becomes `target` and the longer
   * side is scaled by the same factor, rounded down. Go computes the scaled side as
   * `int(float64(a) * float64(t) / float64(b))`; for positive sides below 2^26 the float
   * quotient truncates to the same value as the integer floor division used here.
   */
  function PlanDimensions(width: int, height: int, target: nat): (d: Dimensions)
    requires width > 0 && height > 0
    ensures width < height ==> d.width == target
    ensures width < height ==> d.height * width <= height * target < (d.height + 1) * width
    ensures width >= height ==> d.height == target
    ensures width >= height ==> d.width * height <= width * target < (d.width + 1) * height
  {
    if width < height then Dimensions(target, height * target / width)
    else Dimensions(width * target / height, target)
  }

  /** The skip test of resize.go:48, applied to the planned size. */
  predicate SkipsResize(width: int, height: int, target: nat, plan: Dimensions)
  {
    (width <= plan.width && height <= plan.height) || (width < target && height < target)
  }

  /** Multiplying by a positive factor keeps strict order, in both directions. */
  lemma MulStrict(x: int, y: int, b: int)
    requires b > 0
    ensures x < y <==> x * b < y * b
  {
    if x < y {
      assert y * b - x * b == (y - x) * b;
    } else {
      assert x * b - y * b == (x - y) * b;
    }
  }

  lemma ScaledAtLeast(a: int, b: int, t: nat)
    requires a >= 0 && b > 0 && t >= b
    ensures a * t / b >= a
  {
    var q := a * t / b;
    assert a * t - a * b == a * (t - b);
    assert a * b <= a * t < (q + 1) * b;
    MulStrict(a, q + 1, b);
  }

  lemma ScaledAtMost(a: int, b: int, t: nat)
    requires a >= 0 && b > 0 && t <= b
    ensures a * t / b <= a
  {
    var q := a * t / b;
    assert a * b - a * t == a * (b - t);
    assert q * b <= a * t <= a * b;
    MulStrict(a, q, b);
  }

  /** The image is left alone exactly when its shorter side is at most the target. */
  lemma {:induction false} SkipIffShortSideFits(width: int, height: int, target: nat)
    requires width > 0 && height > 0
    ensures SkipsResize(width, height, target, PlanDimensions(width, height, target))
        <==> Min(width, height) <= target
  {
    var plan := PlanDimensions(width, height, target);
    if width < height {
      if width <= target {
        ScaledAtLeast(height, width, target);
      }
    } else {
      if height <= target {
        ScaledAtLeast(width, height, target);
      }
    }
  }

  /**
   * A resize brings the shorter side to the target exactly, keeps the longer side at or
   * above it, and never makes either side larger than it was.
   */
  lemma {:induction false} ResizeShrinksToTarget(width: int, height: int, target: nat)
    requires width > 0 && height > 0
    requires !SkipsResize(width, height, target, PlanDimensions(width, height, target))
    ensures var plan := PlanDimensions(width, height, target);
            && Min(plan.width, plan.height) == target
            && Max(plan.width, plan.height) >= target
            && plan.width <= width && plan.height <= height
  {
    SkipIffShortSideFits(width, height, target);
    if width < height {
      ScaledAtLeast(target, width, height);
      assert height * target / width == target * height / width;
      ScaledAtMost(height, width, target);
    } else {
      ScaledAtLeast(target, height, width);
      assert width * target / height == target * width / height;
      ScaledAtMost(width, height, target);
    }
  }

  // ---------------------------------------------------------------------------
  // Encoder choice (resize.go:69-75)
  // ---------------------------------------------------------------------------

  datatype Encoder = Png | Jpeg(quality: int)

  /**
   * Go's filepath.Ext on a slash-separated path: the suffix from the final `.` of the
   * last path element, or "" when that element has no `.`.
   */
  function Ext(path: string): (e: string)
    ensures |e| <= |path| && e == path[|path| - |e|..]
    ensures e != [] ==> e[0] == '.'
    ensures forall i :: 0 < i < |e| ==> e[i] != '.' && e[i] != '/'
    ensures e == [] ==> forall i :: 0 <= i < |path| && (forall j :: i < j < |path| ==> path[j] != '/') ==> path[i] != '.'
    decreases |path|
  {
    if |path| == 0 || path[|path| - 1] == '/' then ""
    else if path[|path| - 1] == '.' then "."
    else
      var e := Ext(path[..|path| - 1]);
      if e == [] then [] else e + [path[|path| - 1]]
  }

  /** ASCII lower-casing (Go's strings.ToLower, whose other mappings never yield ".png"). */
  function LowerAll(s: string): (t: string)
    ensures |t| == |s|
    ensures forall i :: 0 <= i < |s| ==> t[i] == LowerAscii(s[i])
  {
    seq(|s|, i requires 0 <= i < |s| => LowerAscii(s[i]))
  }

  /** PNG when the lower-cased extension is ".png", otherwise JPEG at quality 90. */
  function ChooseEncoder(path: string): Encoder
  {
    if LowerAll(Ext(path)) == ".png" then Png else Jpeg(90)
  }

  /** The encoder is PNG exactly for paths ending in `.png` in any ASCII letter case. */
  lemma PngIffPngSuffix(path: string)
    ensures ChooseEncoder(path) == Png <==> |path| >= 4 && LowerAll(path[|path| - 4..]) == ".png"
  {
    var e := Ext(path);
    if |path| >= 4 && LowerAll(path[|path| - 4..]) == ".png" {
      var s := path[|path| - 4..];
      assert s[0] == '.' && s[1] != '.' && s[2] != '.' && s[3] != '.' by {
        assert LowerAll(s)[0] == '.' && LowerAll(s)[1] == 'p' && LowerAll(s)[2] == 'n' && LowerAll(s)[3] == 'g';
      }
      ExtOfDottedSuffix(path, |path| - 4);
    }
    if LowerAll(e) == ".png" {
      assert |e| == 4;
    }
  }

  /** When the last `.` of the path sits at `k` with no `/` after it, Ext starts there. */
  lemma {:induction false} ExtOfDottedSuffix(path: string, k: nat)
    requires k < |path| && path[k] == '.'
    requires forall j :: k < j < |path| ==> path[j] != '.' && path[j] != '/'
    ensures Ext(path) == path[k..]
    decreases |path|
  {
    if k < |path| - 1 {
      ExtOfDottedSuffix(path[..|path| - 1], k);
      assert path[..|path| - 1][k..] + [path[|path| - 1]] == path[k..];
    }
  }

  // ---------------------------------------------------------------------------
  // ResizeToMinDimension as a whole
  // ---------------------------------------------------------------------------

  /** What the file system and the image codecs do during one call. */
  datatype ResizeEnv = ResizeEnv(
    openError: Option<string>,        // os.Open
    decoded: Result<Dimensions, string>,  // image.Decode: the decoded size
    tempFile: Result<string, string>, // os.CreateTemp: the new file's path
    encodeError: Option<string>,      // png.Encode / jpeg.Encode
    closeError: Option<string>)       // closing the temporary file

  /**
   * The result, the encoder used (if any), the temporary file left on disk (if any), and
   * the pixel size of the image at the returned path (if one is returned).
   */
  datatype ResizeOutcome = ResizeOutcome(
    result: Result<string, string>,
    encoder: Option<Encoder>,
    leftover: Option<string>,
    size: Option<Dimensions>)

  /** The decoder reports a non-empty image. */
  predicate DecodesToPixels(env: ResizeEnv)
  {
    env.decoded.Ok? ==> env.decoded.value.width > 0 && env.decoded.value.height > 0
  }

  /** The image was opened, decoded and found small enough: the input path comes back. */
  predicate Skipped(target: nat, env: ResizeEnv)
    requires DecodesToPixels(env)
  {
    && env.openError.None? && env.decoded.Ok?
    && var d := env.decoded.value;
       SkipsResize(d.width, d.height, target, PlanDimensions(d.width, d.height, target))
  }

  /** The image was opened and decoded and must be scaled down. */
  predicate Resizes(target: nat, env: ResizeEnv)
    requires DecodesToPixels(env)
  {
    env.openError.None? && env.decoded.Ok? && !Skipped(target, env)
  }

  /** The planned size of a decoded image. */
  function Planned(target: nat, env: ResizeEnv): Dimensions
    requires DecodesToPixels(env) && env.decoded.Ok?
  {
    PlanDimensions(env.decoded.value.width, env.decoded.value.height, target)
  }

  /** ResizeToMinDimension (resize.go:15-90), over the outcomes in `env`. */
  function ResizeToMinDimension(imagePath: string, target: nat, env: ResizeEnv): (r: ResizeOutcome)
    requires DecodesToPixels(env)
    // the failures, each wrapped as resize.go:19, 26, 64, 80 and 85 wrap it, leave no file
    ensures env.openError.Some? ==> r.result == Err("failed to open image: " + env.openError.value)
    ensures env.openError.None? && env.decoded.Err? ==> r.result == Err("failed to decode image: " + env.decoded.error)
    ensures Resizes(target, env) && env.tempFile.Err?
            ==> r.result == Err("failed to create temp file: " + env.tempFile.error)
    ensures Resizes(target, env) && env.tempFile.Ok? && env.encodeError.Some?
            ==> r.result == Err("failed to encode resized image: " + env.encodeError.value)
    ensures Resizes(target, env) && env.tempFile.Ok? && env.encodeError.None? && env.closeError.Some?
            ==> r.result == Err("failed to close temp file: " + env.closeError.value)
    ensures r.result.Err? ==> r.leftover.None? && r.size.None?
    // a small image comes back as it is
    ensures Skipped(target, env) ==> r == ResizeOutcome(Ok(imagePath), None, None, Some(env.decoded.value))
    // a resize succeeds exactly when every step does, and returns the planned image
    ensures Resizes(target, env) ==> r.encoder == (if env.tempFile.Ok? then Some(ChooseEncoder(imagePath)) else None)
    ensures Resizes(target, env) && env.tempFile.Ok? && env.encodeError.None? && env.closeError.None?
            ==> r.result == Ok(env.tempFile.value) && r.leftover == Some(env.tempFile.value)
                && r.size == Some(Planned(target, env))
  {
    if env.openError.Some? then
      ResizeOutcome(Err("failed to open image: " + env.openError.value), None, None, None)
    else if env.decoded.Err? then
      ResizeOutcome(Err("failed to decode image: " + env.decoded.error), None, None, None)
    else
      var d := env.decoded.value;
      var plan := PlanDimensions(d.width, d.height, target);
      if SkipsResize(d.width, d.height, target, plan) then
        ResizeOutcome(Ok(imagePath), None, None, Some(d))
      else if env.tempFile.Err? then
        ResizeOutcome(Err("failed to create temp file: " + env.tempFile.error), None, None, None)
      else
        var encoder := ChooseEncoder(imagePath);
        if env.encodeError.Some? then
          ResizeOutcome(Err("failed to encode resized image: " + env.encodeError.value), Some(encoder), None, None)
        else if env.closeError.Some? then
          ResizeOutcome(Err("failed to close temp file: " + env.closeError.value), Some(encoder), None, None)
        else
          ResizeOutcome(Ok(env.tempFile.value), Some(encoder), Some(env.tempFile.value), Some(plan))
  }

  /**
   * Whatever path comes back holds an image whose shorter side is at most the target and
   * whose sides are no larger than the original's; a resized one has its shorter side at
   * exactly the target.
   */
  lemma ReturnedImageFits(imagePath: string, target: nat, env: ResizeEnv)
    requires DecodesToPixels(env)
    ensures var r := ResizeToMinDimension(imagePath, target, env);
            r.result.Ok? ==> && r.size.Some? && env.decoded.Ok?
                             && Min(r.size.value.width, r.size.value.height) <= target
                             && r.size.value.width <= env.decoded.value.width
                             && r.size.value.height <= env.decoded.value.height
    ensures var r := ResizeToMinDimension(imagePath, target, env);
            r.result.Ok? && Resizes(target, env) ==> Min(r.size.value.width, r.size.value.height) == target
  {
    if env.openError.None? && env.decoded.Ok? {
      var d := env.decoded.value;
      SkipIffShortSideFits(d.width, d.height, target);
      if Resizes(target, env) {
        ResizeShrinksToTarget(d.width, d.height, target);
      }
    }
  }
}
