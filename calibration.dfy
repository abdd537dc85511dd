/**
 * The frame combiner of `src/calibration/mod.rs`: three reductions of N
 * same-sized images into one output image (per-pixel mean, per-pixel
 * median, per-pixel sigma-clipped mean), all behind one validation prologue.
 *
 * Each combiner is a method that validates its input, builds the output from
 * a fresh zero-filled image whose metadata and frame type are copied from the
 * first input, and fills the output buffer pixel by pixel. What each output
 * pixel must be is stated by a specification function on the pixel's stack
 * of input samples.
 */
module Calibration {
  import opened Numeric
  import opened Image

  // ---------------------------------------------------------------------
  // Validation prologue
  // ---------------------------------------------------------------------

  /** Every image records the same (width, height) as the first one. */
  predicate SameDimensions(images: seq<FitsImage>)
  {
    forall i | 0 <= i < |images| :: Dimensions(images[i]) == Dimensions(images[0])
  }

  /**
   * The error a combiner reports before building anything, if any: an empty
   * list first, then a dimension mismatch. `purpose` names the combiner in
   * the message.
   */
  function Prologue(images: seq<FitsImage>, purpose: string): Option<ImageError>
  {
    if |images| == 0 then Some(FormatError("No images provided for " + purpose))
    else if !SameDimensions(images) then
      Some(DimensionError("All images must have the same dimensions for " + purpose))
    else None
  }

  /**
   * The prologue as the source runs it: reject an empty list, then compare
   * each image after the first with the first and stop at the first mismatch.
   */
  method CheckInputs(images: seq<FitsImage>, purpose: string) returns (err: Option<ImageError>)
    ensures err == Prologue(images, purpose)
    ensures err == None <==> |images| > 0 && SameDimensions(images)
  {
    if |images| == 0 {
      return Some(FormatError("No images provided for " + purpose));
    }
    var dims := Dimensions(images[0]);
    for i := 1 to |images|
      invariant forall k | 0 <= k < i :: Dimensions(images[k]) == dims
    {
      if Dimensions(images[i]) != dims {
        return Some(DimensionError("All images must have the same dimensions for " + purpose));
      }
    }
    return None;
  }

  /**
   * What the combiners need of their caller so that no pixel read is out of
   * bounds: if validation passes, every buffer covers the first image's
   * recorded height and width.
   */
  predicate Readable(images: seq<FitsImage>)
  {
    |images| > 0 && SameDimensions(images) ==>
      forall i | 0 <= i < |images| :: Covers(images[i].data, Dimensions(images[0]).0, Dimensions(images[0]).1)
  }

  /** The images pass validation and can be read at every pixel. */
  predicate Combinable(images: seq<FitsImage>)
  {
    |images| > 0 && SameDimensions(images) && Readable(images)
  }

  function Width(images: seq<FitsImage>): nat
    requires |images| > 0
  {
    Dimensions(images[0]).0
  }

  function Height(images: seq<FitsImage>): nat
    requires |images| > 0
  {
    Dimensions(images[0]).1
  }

  /** The samples of all images at `[y][x]`, in image order. */
  function PixelStack(images: seq<FitsImage>, y: nat, x: nat): (s: seq<real>)
    requires forall i | 0 <= i < |images| :: y < |images[i].data| && x < |images[i].data[y]|
    ensures |s| == |images|
  {
    seq(|images|, i requires 0 <= i < |images| => images[i].data[y][x])
  }

  /**
   * A combiner's output: the first input's metadata and frame type, and a
   * buffer of exactly the first input's recorded height and width.
   */
  predicate Inherits(images: seq<FitsImage>, out: FitsImage)
    requires |images| > 0
  {
    && out.metadata == images[0].metadata
    && out.frameType == images[0].frameType
    && IsGrid(out.data, Width(images), Height(images))
  }

  /** `out` is the per-pixel arithmetic mean of the images. */
  predicate IsAverage(images: seq<FitsImage>, out: FitsImage)
    requires Combinable(images)
  {
    && Inherits(images, out)
    && forall y, x | 0 <= y < Height(images) && 0 <= x < Width(images) ::
         out.data[y][x] == Mean(PixelStack(images, y, x))
  }

  /** `out` is the per-pixel median of the images. */
  predicate IsMedian(images: seq<FitsImage>, out: FitsImage)
    requires Combinable(images)
  {
    && Inherits(images, out)
    && forall y, x | 0 <= y < Height(images) && 0 <= x < Width(images) ::
         out.data[y][x] == MedianOf(PixelStack(images, y, x))
  }

  /** `out` is the per-pixel sigma-clipped mean of the images. */
  predicate IsSigmaClipped(images: seq<FitsImage>, sigma: real, iterations: nat, sqrt: real -> real, out: FitsImage)
    requires Combinable(images)
  {
    && Inherits(images, out)
    && forall y, x | 0 <= y < Height(images) && 0 <= x < Width(images) ::
         out.data[y][x] == SigmaClipOf(PixelStack(images, y, x), sigma, iterations, sqrt)
  }

  // ---------------------------------------------------------------------
  // Sigma clipping of one pixel stack
  // ---------------------------------------------------------------------

  /** `r` is `s` with some elements left out, the rest in their original order. */
  predicate Subsequence(r: seq<real>, s: seq<real>)
    decreases |s|
  {
    if |r| == 0 then true
    else if |s| == 0 then false
    else if r[0] == s[0] then Subsequence(r[1..], s[1..])
    else Subsequence(r, s[1..])
  }

  /**
   * Keeps the samples `v` with `lo <= v <= hi`, in order: every kept sample
   * as often as it occurs, and nothing else.
   */
  function Retain(values: seq<real>, lo: real, hi: real): (r: seq<real>)
    ensures Subsequence(r, values) && |r| <= |values|
    ensures forall v {:trigger multiset(r)[v]} ::
      multiset(r)[v] == if lo <= v <= hi then multiset(values)[v] else 0
  {
    if |values| == 0 then []
    else
      var rest := Retain(values[1..], lo, hi);
      assert values == [values[0]] + values[1..];
      if lo <= values[0] <= hi then [values[0]] + rest
      else
        assert |rest| > 0 ==> rest[0] != values[0] by {
          if |rest| > 0 {
            assert multiset(rest)[rest[0]] > 0;
          }
        }
        rest
  }

  /**
   * One clipping round: keep the samples within `sigma` population standard
   * deviations of the population mean.
   */
  function ClipRound(values: seq<real>, sigma: real, sqrt: real -> real): seq<real>
    requires |values| > 0
  {
    var mean := Mean(values);
    var stdDev := StdDev(values, sqrt);
    Retain(values, mean - sigma * stdDev, mean + sigma * stdDev)
  }

  /** Up to `iterations` clipping rounds, stopping early once 2 or fewer samples remain. */
  function Clip(values: seq<real>, sigma: real, iterations: nat, sqrt: real -> real): (r: seq<real>)
    ensures |r| <= |values|
    decreases iterations
  {
    if iterations == 0 || |values| <= 2 then values
    else Clip(ClipRound(values, sigma, sqrt), sigma, iterations - 1, sqrt)
  }

  /** The sigma-clipped mean of a pixel stack: the mean of the survivors, or 0 if none survive. */
  function SigmaClipOf(values: seq<real>, sigma: real, iterations: nat, sqrt: real -> real): (r: real)
    ensures |values| == 0 ==> r == 0.0
    ensures |values| > 0 && (iterations == 0 || |values| <= 2) ==> r == Mean(values)
  {
    var kept := Clip(values, sigma, iterations, sqrt);
    if |kept| == 0 then 0.0 else Mean(kept)
  }

  /** One round of `Clip`, in the terms the per-pixel loop computes it. */
  lemma ClipStep(values: seq<real>, sigma: real, rounds: nat, sqrt: real -> real, mean: real, stdDev: real)
    requires rounds > 0 && |values| > 2
    requires mean == Sum(values) / (|values| as real)
    requires stdDev == sqrt(SquaredDeviations(values, mean) / (|values| as real))
    ensures Clip(values, sigma, rounds, sqrt)
         == Clip(Retain(values, mean - sigma * stdDev, mean + sigma * stdDev), sigma, rounds - 1, sqrt)
  {
    assert Mean(values) == mean;
    assert PopVariance(values) == SquaredDeviations(values, mean) / (|values| as real);
    assert StdDev(values, sqrt) == stdDev;
    assert ClipRound(values, sigma, sqrt) == Retain(values, mean - sigma * stdDev, mean + sigma * stdDev);
  }

  /** The clipping loop for one pixel stack, as the source runs it. */
  method ClipPixel(values: seq<real>, sigma: real, iterations: nat, sqrt: real -> real) returns (v: real)
    ensures v == SigmaClipOf(values, sigma, iterations, sqrt)
  {
    var remaining := values;
    var i := 0;
    while i < iterations
      invariant 0 <= i <= iterations
      invariant Clip(remaining, sigma, iterations - i, sqrt) == Clip(values, sigma, iterations, sqrt)
    {
      if |remaining| <= 2 {
        break;
      }
      var mean := Sum(remaining) / (|remaining| as real);
      var variance := SquaredDeviations(remaining, mean) / (|remaining| as real);
      var stdDev := sqrt(variance);
      var lowerBound := mean - sigma * stdDev;
      var upperBound := mean + sigma * stdDev;
      ClipStep(remaining, sigma, iterations - i, sqrt, mean, stdDev);
      remaining := Retain(remaining, lowerBound, upperBound);
      i := i + 1;
    }
    assert remaining == Clip(values, sigma, iterations, sqrt);
    if |remaining| == 0 {
      v := 0.0;
    } else {
      v := Sum(remaining) / (|remaining| as real);
    }
  }

  // ---------------------------------------------------------------------
  // The combiners
  // ---------------------------------------------------------------------

  /** One collected result of the averaging pass: a pixel position `(y, x)` and its mean. */
  type PixelResult = ((nat, nat), real)

  /** `e` names a pixel inside the images and carries that pixel's mean. */
  predicate IsAverageResult(images: seq<FitsImage>, e: PixelResult)
    requires Combinable(images)
  {
    && e.0.0 < Height(images)
    && e.0.1 < Width(images)
    && e.1 == Mean(PixelStack(images, e.0.0, e.0.1))
  }

  /**
   * The averaging pass: for each row, then each column, the pixel's
   * position and mean, collected in row-major order. The source spreads the
   * rows over worker threads and collects the results in row order; this
   * pass is the sequential equivalent.
   */
  method CollectAverages(images: seq<FitsImage>) returns (pixelValues: seq<PixelResult>)
    requires Combinable(images)
    ensures forall k | 0 <= k < |pixelValues| :: IsAverageResult(images, pixelValues[k])
    ensures forall y, x | 0 <= y < Height(images) && 0 <= x < Width(images) ::
      ((y, x), Mean(PixelStack(images, y, x))) in pixelValues
  {
    var width, height := Width(images), Height(images);
    pixelValues := [];
    for y := 0 to height
      invariant forall k | 0 <= k < |pixelValues| :: IsAverageResult(images, pixelValues[k])
      invariant forall yy, xx | 0 <= yy < y && 0 <= xx < width ::
        ((yy, xx), Mean(PixelStack(images, yy, xx))) in pixelValues
    {
      var rowResults: seq<PixelResult> := [];
      for x := 0 to width
        invariant forall k | 0 <= k < |rowResults| :: IsAverageResult(images, rowResults[k])
        invariant forall xx | 0 <= xx < x :: ((y, xx), Mean(PixelStack(images, y, xx))) in rowResults
      {
        var sum := Sum(PixelStack(images, y, x));
        var avg := sum / (|images| as real);
        rowResults := rowResults + [((y, x), avg)];
      }
      pixelValues := pixelValues + rowResults;
    }
  }

  /** Combines the images by the arithmetic mean of each pixel. */
  method Average(images: seq<FitsImage>) returns (r: Result<FitsImage, ImageError>)
    requires Readable(images)
    ensures r.Err? <==> Prologue(images, "averaging").Some?
    ensures r.Err? ==> Prologue(images, "averaging") == Some(r.error)
    ensures r.Ok? ==> Combinable(images) && IsAverage(images, r.value) && Consistent(r.value)
  {
    var err := CheckInputs(images, "averaging");
    if err.Some? {
      return Err(err.value);
    }
    var first := images[0];
    var (width, height) := Dimensions(first);

    var result := New(width, height);
    result := result.(metadata := first.metadata, frameType := first.frameType);

    var pixelValues := CollectAverages(images);

    var resultData := result.data;
    for i := 0 to |pixelValues|
      invariant IsGrid(resultData, width, height)
      invariant forall k | 0 <= k < i ::
        resultData[pixelValues[k].0.0][pixelValues[k].0.1] == pixelValues[k].1
    {
      var ((y, x), avg) := pixelValues[i];
      resultData := resultData[y := resultData[y][x := avg]];
    }
    forall y, x | 0 <= y < height && 0 <= x < width
      ensures resultData[y][x] == Mean(PixelStack(images, y, x))
    {
      var k :| 0 <= k < |pixelValues| && pixelValues[k] == ((y, x), Mean(PixelStack(images, y, x)));
    }
    result := result.(data := resultData);
    return Ok(result);
  }

  /** Combines the images by the median of each pixel. */
  method Median(images: seq<FitsImage>) returns (r: Result<FitsImage, ImageError>)
    requires Readable(images)
    ensures r.Err? <==> Prologue(images, "median").Some?
    ensures r.Err? ==> Prologue(images, "median") == Some(r.error)
    ensures r.Ok? ==> Combinable(images) && IsMedian(images, r.value) && Consistent(r.value)
  {
    var err := CheckInputs(images, "median");
    if err.Some? {
      return Err(err.value);
    }
    var first := images[0];
    var (width, height) := Dimensions(first);
    assert forall i | 0 <= i < |images| :: Covers(images[i].data, width, height);

    var result := New(width, height);
    result := result.(metadata := first.metadata, frameType := first.frameType);

    var resultData := result.data;
    for y := 0 to height
      invariant IsGrid(resultData, width, height)
      invariant forall yy, xx | 0 <= yy < y && 0 <= xx < width ::
        resultData[yy][xx] == MedianOf(PixelStack(images, yy, xx))
    {
      var row := resultData[y];
      for x := 0 to width
        invariant |row| == width
        invariant forall xx | 0 <= xx < x :: row[xx] == MedianOf(PixelStack(images, y, xx))
      {
        var median := MedianBySorting(PixelStack(images, y, x));
        row := row[x := median];
      }
      resultData := resultData[y := row];
    }
    result := result.(data := resultData);
    return Ok(result);
  }

  /**
   * Combines the images by the sigma-clipped mean of each pixel, with at
   * most `iterations` clipping rounds per pixel.
   */
  method SigmaClipping(images: seq<FitsImage>, sigma: real, iterations: nat, sqrt: real -> real)
    returns (r: Result<FitsImage, ImageError>)
    requires Readable(images)
    ensures r.Err? <==> Prologue(images, "sigma clipping").Some?
    ensures r.Err? ==> Prologue(images, "sigma clipping") == Some(r.error)
    ensures r.Ok? ==> Combinable(images) && IsSigmaClipped(images, sigma, iterations, sqrt, r.value)
    ensures r.Ok? ==> Consistent(r.value)
  {
    var err := CheckInputs(images, "sigma clipping");
    if err.Some? {
      return Err(err.value);
    }
    var first := images[0];
    var (width, height) := Dimensions(first);
    assert forall i | 0 <= i < |images| :: Covers(images[i].data, width, height);

    var result := New(width, height);
    result := result.(metadata := first.metadata, frameType := first.frameType);

    var resultData := result.data;
    for y := 0 to height
      invariant IsGrid(resultData, width, height)
      invariant forall yy, xx | 0 <= yy < y && 0 <= xx < width ::
        resultData[yy][xx] == SigmaClipOf(PixelStack(images, yy, xx), sigma, iterations, sqrt)
    {
      var row := resultData[y];
      for x := 0 to width
        invariant |row| == width
        invariant forall xx | 0 <= xx < x :: row[xx] == SigmaClipOf(PixelStack(images, y, xx), sigma, iterations, sqrt)
      {
        var values := PixelStack(images, y, x);
        var clipped := ClipPixel(values, sigma, iterations, sqrt);
        row := row[x := clipped];
      }
      resultData := resultData[y := row];
    }
    result := result.(data := resultData);
    return Ok(result);
  }

  // ---------------------------------------------------------------------
  // Properties of clipping
  // ---------------------------------------------------------------------

  lemma {:induction false} SubsequenceMembers(r: seq<real>, s: seq<real>)
    requires Subsequence(r, s)
    ensures multiset(r) <= multiset(s)
    decreases |s|
  {
    if |r| > 0 {
      assert s == [s[0]] + s[1..];
      if r[0] == s[0] {
        SubsequenceMembers(r[1..], s[1..]);
        assert r == [r[0]] + r[1..];
      } else {
        SubsequenceMembers(r, s[1..]);
      }
    }
  }

  lemma {:induction false} SubsequenceDropFirst(r: seq<real>, s: seq<real>)
    requires |r| > 0 && Subsequence(r, s)
    ensures Subsequence(r[1..], s)
    decreases |s|
  {
    if |r| > 1 {
      if r[0] != s[0] {
        SubsequenceDropFirst(r, s[1..]);
      }
      if r[1] == s[0] {
        SubsequenceDropFirst(r[1..], s[1..]);
      }
    }
  }

  lemma {:induction false} SubsequenceTransitive(a: seq<real>, b: seq<real>, c: seq<real>)
    requires Subsequence(a, b) && Subsequence(b, c)
    ensures Subsequence(a, c)
    decreases |c|
  {
    if |a| > 0 && |b| > 0 && |c| > 0 {
      if b[0] == c[0] {
        if a[0] == b[0] {
          SubsequenceTransitive(a[1..], b[1..], c[1..]);
        } else {
          SubsequenceTransitive(a, b[1..], c[1..]);
        }
      } else {
        SubsequenceTransitive(a, b, c[1..]);
        if a[0] == c[0] {
          SubsequenceDropFirst(a, c[1..]);
        }
      }
    }
  }

  lemma {:induction false} SubsequenceReflexive(s: seq<real>)
    ensures Subsequence(s, s)
  {
    if |s| > 0 {
      SubsequenceReflexive(s[1..]);
    }
  }

  /**
   * The survivors of clipping are the input with some samples left out, in
   * their original order; a stack of 2 or fewer samples, or no rounds at
   * all, leaves the input as it is.
   */
  lemma {:induction false} ClipSurvivors(values: seq<real>, sigma: real, iterations: nat, sqrt: real -> real)
    ensures Subsequence(Clip(values, sigma, iterations, sqrt), values)
    ensures iterations == 0 || |values| <= 2 ==> Clip(values, sigma, iterations, sqrt) == values
    decreases iterations
  {
    if iterations == 0 || |values| <= 2 {
      SubsequenceReflexive(values);
    } else {
      var next := ClipRound(values, sigma, sqrt);
      assert Subsequence(next, values);
      assert Subsequence(Clip(next, sigma, iterations - 1, sqrt), values) by {
        ClipSurvivors(next, sigma, iterations - 1, sqrt);
        SubsequenceTransitive(Clip(next, sigma, iterations - 1, sqrt), next, values);
      }
    }
  }

  /** Clipping never adds a sample, nor more copies of one than the stack holds. */
  lemma ClipMembers(values: seq<real>, sigma: real, iterations: nat, sqrt: real -> real)
    ensures multiset(Clip(values, sigma, iterations, sqrt)) <= multiset(values)
  {
    ClipSurvivors(values, sigma, iterations, sqrt);
    SubsequenceMembers(Clip(values, sigma, iterations, sqrt), values);
  }

  /** Retaining a range that holds every sample keeps the whole stack. */
  lemma {:induction false} RetainAll(values: seq<real>, lo: real, hi: real)
    requires forall i | 0 <= i < |values| :: lo <= values[i] <= hi
    ensures Retain(values, lo, hi) == values
  {
    if |values| > 0 {
      RetainAll(values[1..], lo, hi);
      assert values == [values[0]] + values[1..];
    }
  }

  /** A stack of identical samples loses nothing to clipping, whatever `sigma`. */
  lemma {:induction false} ClipKeepsIdenticalSamples(values: seq<real>, v: real, sigma: real, iterations: nat, sqrt: real -> real)
    requires IsSqrt(sqrt)
    requires forall i | 0 <= i < |values| :: values[i] == v
    ensures Clip(values, sigma, iterations, sqrt) == values
    ensures |values| > 0 ==> SigmaClipOf(values, sigma, iterations, sqrt) == v
    decreases iterations
  {
    if iterations > 0 && |values| > 2 {
      MeanOfConstant(values, v);
      SquaredDeviationsOfConstant(values, v);
      assert PopVariance(values) == 0.0;
      var d := StdDev(values, sqrt);
      assert d == 0.0;
      RetainAll(values, v - sigma * d, v + sigma * d);
      ClipKeepsIdenticalSamples(values, v, sigma, iterations - 1, sqrt);
    }
    if |values| > 0 {
      MeanOfConstant(values, v);
    }
  }

  /**
   * The sigma-clipped mean lies within any common bounds of the samples,
   * unless every sample was rejected, in which case it is 0.
   */
  lemma SigmaClipBounds(values: seq<real>, sigma: real, iterations: nat, sqrt: real -> real, lo: real, hi: real)
    requires forall i | 0 <= i < |values| :: lo <= values[i] <= hi
    ensures var kept := Clip(values, sigma, iterations, sqrt);
      if |kept| == 0 then SigmaClipOf(values, sigma, iterations, sqrt) == 0.0
      else lo <= SigmaClipOf(values, sigma, iterations, sqrt) <= hi
  {
    var kept := Clip(values, sigma, iterations, sqrt);
    ClipMembers(values, sigma, iterations, sqrt);
    if |kept| > 0 {
      forall k | 0 <= k < |kept|
        ensures lo <= kept[k] <= hi
      {
        assert kept[k] in multiset(values);
      }
      MeanBounds(kept, lo, hi);
    }
  }

  /** With no clipping rounds the sigma-clipped mean of a stack is its plain mean. */
  lemma SigmaClipWithoutRounds(values: seq<real>, sigma: real, sqrt: real -> real)
    requires |values| > 0
    ensures SigmaClipOf(values, sigma, 0, sqrt) == Mean(values)
  {
  }

  // ---------------------------------------------------------------------
  // Properties of the combiners
  // ---------------------------------------------------------------------

  /** Sigma clipping with zero iterations produces the same image as averaging. */
  lemma SigmaClipZeroIterationsIsAverage(images: seq<FitsImage>, sigma: real, sqrt: real -> real, avg: FitsImage, clipped: FitsImage)
    requires Combinable(images)
    requires IsAverage(images, avg)
    requires IsSigmaClipped(images, sigma, 0, sqrt, clipped)
    ensures avg == clipped
  {
    var width, height := Width(images), Height(images);
    forall y | 0 <= y < height
      ensures avg.data[y] == clipped.data[y]
    {
      forall x | 0 <= x < width
        ensures avg.data[y][x] == clipped.data[y][x]
      {
        SigmaClipWithoutRounds(PixelStack(images, y, x), sigma, sqrt);
      }
    }
  }

  /** Averaging N copies of a consistent image reproduces that image exactly. */
  lemma AverageOfCopies(img: FitsImage, images: seq<FitsImage>, out: FitsImage)
    requires Consistent(img)
    requires |images| > 0 && forall i | 0 <= i < |images| :: images[i] == img
    requires Combinable(images)
    requires IsAverage(images, out)
    ensures out == img
  {
    var width, height := Width(images), Height(images);
    forall y | 0 <= y < height
      ensures out.data[y] == img.data[y]
    {
      forall x | 0 <= x < width
        ensures out.data[y][x] == img.data[y][x]
      {
        MeanOfConstant(PixelStack(images, y, x), img.data[y][x]);
      }
    }
  }

  /** The median of a single consistent image is that image. */
  lemma MedianOfOneImage(img: FitsImage, out: FitsImage)
    requires Consistent(img)
    requires Combinable([img])
    requires IsMedian([img], out)
    ensures out == img
  {
    var width, height := Dimensions(img).0, Dimensions(img).1;
    forall y | 0 <= y < height
      ensures out.data[y] == img.data[y]
    {
      forall x | 0 <= x < width
        ensures out.data[y][x] == img.data[y][x]
      {
        assert PixelStack([img], y, x) == [img.data[y][x]];
        MedianOfOne(img.data[y][x]);
      }
    }
  }

  /** The median of two images is their per-pixel mean. */
  lemma MedianOfTwoImages(a: FitsImage, b: FitsImage, out: FitsImage)
    requires Dimensions(a) == Dimensions(b)
    requires Covers(a.data, Dimensions(a).0, Dimensions(a).1)
    requires Covers(b.data, Dimensions(a).0, Dimensions(a).1)
    requires Combinable([a, b])
    requires IsMedian([a, b], out)
    ensures forall y, x | 0 <= y < Dimensions(a).1 && 0 <= x < Dimensions(a).0 ::
      out.data[y][x] == (a.data[y][x] + b.data[y][x]) / 2.0
  {
    forall y, x | 0 <= y < Dimensions(a).1 && 0 <= x < Dimensions(a).0
      ensures out.data[y][x] == (a.data[y][x] + b.data[y][x]) / 2.0
    {
      assert PixelStack([a, b], y, x) == [a.data[y][x], b.data[y][x]];
      MedianOfTwo(a.data[y][x], b.data[y][x]);
    }
  }

  lemma SumsOfTenTwentyThirty(s: seq<real>)
    requires |s| == 3 && s[0] == 10.0 && s[1] == 20.0 && s[2] == 30.0
    ensures Sum(s) == 60.0
    ensures SquaredDeviations(s, 20.0) == 200.0
  {
    assert s == [10.0, 20.0, 30.0];
    assert s[..2] == [10.0, 20.0];
    assert s[..2][..1] == [10.0];
    assert s[..2][..1][..0] == [];
    assert Sum([10.0]) == 10.0;
    assert Sum([10.0, 20.0]) == 30.0;
    assert SquaredDeviations([10.0], 20.0) == 100.0;
    assert SquaredDeviations([10.0, 20.0], 20.0) == 100.0;
  }

  /** Of the samples 10, 20, 30, a range strictly inside (10, 30) that holds 20 keeps only 20. */
  lemma RetainMiddle(s: seq<real>, lo: real, hi: real)
    requires |s| == 3 && s[0] == 10.0 && s[1] == 20.0 && s[2] == 30.0
    requires 10.0 < lo <= 20.0 <= hi < 30.0
    ensures Retain(s, lo, hi) == [20.0]
  {
    var t1 := s[1..];
    var t2 := t1[1..];
    assert Retain(t2[1..], lo, hi) == [];
    assert Retain(t2, lo, hi) == [];
    assert Retain(t1, lo, hi) == [20.0];
  }

  /** The first clipping round with sigma 1 on the samples 10, 20, 30 keeps only 20. */
  lemma FirstRoundOfTenTwentyThirty(s: seq<real>, sqrt: real -> real)
    requires IsSqrt(sqrt)
    requires |s| == 3 && s[0] == 10.0 && s[1] == 20.0 && s[2] == 30.0
    ensures Mean(s) == 20.0
    ensures 8.0 < StdDev(s, sqrt) < 9.0
    ensures ClipRound(s, 1.0, sqrt) == [20.0]
  {
    SumsOfTenTwentyThirty(s);
    assert Mean(s) == 20.0;
    assert PopVariance(s) == 200.0 / 3.0;
    StdDevSquared(s, sqrt);
    var d := StdDev(s, sqrt);
    SquareLess(8.0, d);
    SquareLess(d, 9.0);
    RetainMiddle(s, 20.0 - 1.0 * d, 20.0 + 1.0 * d);
  }

  /** Sigma clipping with sigma 1 stops after one round on the samples 10, 20, 30, keeping 20. */
  lemma ClipOfTenTwentyThirty(s: seq<real>, sqrt: real -> real)
    requires IsSqrt(sqrt)
    requires |s| == 3 && s[0] == 10.0 && s[1] == 20.0 && s[2] == 30.0
    ensures Clip(s, 1.0, 5, sqrt) == [20.0]
  {
    FirstRoundOfTenTwentyThirty(s, sqrt);
    assert Clip(s, 1.0, 5, sqrt) == Clip(ClipRound(s, 1.0, sqrt), 1.0, 4, sqrt);
  }

  /**
   * Three frames whose samples at a pixel are 10, 20 and 30: the mean and
   * the median are 20, and sigma clipping with sigma 1 rejects 10 and 30 in
   * its first round and then stops with 20.
   */
  lemma TenTwentyThirty(s: seq<real>, sqrt: real -> real)
    requires IsSqrt(sqrt)
    requires |s| == 3 && s[0] == 10.0 && s[1] == 20.0 && s[2] == 30.0
    ensures Mean(s) == 20.0
    ensures MedianOf(s) == 20.0
    ensures Clip(s, 1.0, 5, sqrt) == [20.0]
    ensures SigmaClipOf(s, 1.0, 5, sqrt) == 20.0
  {
    SumsOfTenTwentyThirty(s);
    MedianOfSorted(s);
    ClipOfTenTwentyThirty(s, sqrt);
    assert Mean([20.0]) == 20.0;
  }
}
