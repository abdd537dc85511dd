/**
 * The in-memory image model of `src/image/mod.rs`: pixel types, metadata,
 * frame types, the image value itself, the pure header mappings used when an
 * image is loaded or saved, and the statistics engine.
 *
 * An image is a value: its sample buffer is a row-major grid `data[y][x]`
 * of `real` samples, `height` rows of `width` columns.
 */
module Image {
  import opened Numeric

  datatype Option<T> = None | Some(value: T)

  datatype Result<T, E> = Ok(value: T) | Err(error: E)

  /** The on-disk sample representation an image was loaded from. */
  datatype PixelType = U8 | U16 | U32 | I16 | I32 | F32 | F64

  /**
   * Number of bytes one sample of the given type occupies: a whole power of
   * two from 1 to 8, where only U8 takes one byte and only F64 takes eight.
   */
  function BytesPerPixel(p: PixelType): (r: nat)
    ensures r == 1 || r == 2 || r == 4 || r == 8
    ensures r == 1 <==> p == U8
    ensures r == 8 <==> p == F64
  {
    match p
    case U8 => 1
    case U16 => 2
    case U32 => 4
    case I16 => 2
    case I32 => 4
    case F32 => 4
    case F64 => 8
  }

  /** The role of a frame in the calibration pipeline. */
  datatype FrameType = Light | Dark | Flat | Bias | DarkFlat

  /** The error kinds an image operation can report; the payload is the message. */
  datatype ImageError =
    | IoError(msg: string)
    | FitsError(msg: string)
    | DimensionError(msg: string)
    | FormatError(msg: string)
    | UnsupportedOperation(msg: string)

  /**
   * Image metadata. `dimensions` is (width, height); the optional reals are
   * the exposure time in seconds and the sensor temperature in degrees Celsius.
   */
  datatype ImageMetadata = ImageMetadata(
    dimensions: (nat, nat),
    pixelType: PixelType,
    exposureTime: Option<real>,
    temperature: Option<real>,
    isoGain: Option<nat>,
    filter: Option<string>,
    filePath: Option<string>,
    extra: map<string, string>)

  /** The default metadata: no dimensions, 16-bit unsigned samples, nothing else known. */
  const DefaultMetadata := ImageMetadata((0, 0), U16, None, None, None, None, None, map[])

  datatype FitsImage = FitsImage(metadata: ImageMetadata, data: seq<seq<real>>, frameType: FrameType)

  /** `data` has exactly `height` rows of exactly `width` samples. */
  predicate IsGrid(data: seq<seq<real>>, width: nat, height: nat)
  {
    |data| == height && forall y | 0 <= y < height :: |data[y]| == width
  }

  /** Every index `[y][x]` with `y < height` and `x < width` lies inside `data`. */
  predicate Covers(data: seq<seq<real>>, width: nat, height: nat)
  {
    |data| >= height && forall y | 0 <= y < height :: |data[y]| >= width
  }

  /** The image's recorded (width, height). */
  function Dimensions(img: FitsImage): (nat, nat)
  {
    img.metadata.dimensions
  }

  /** The recorded dimensions describe the buffer exactly. */
  predicate Consistent(img: FitsImage)
  {
    IsGrid(img.data, Dimensions(img).0, Dimensions(img).1)
  }

  /**
   * A zero-filled image of `height` rows by `width` columns. Its metadata is
   * the default one, so its recorded dimensions are (0, 0), not (width, height).
   */
  function New(width: nat, height: nat): (img: FitsImage)
    ensures IsGrid(img.data, width, height)
    ensures forall y, x | 0 <= y < height && 0 <= x < width :: img.data[y][x] == 0.0
    ensures img.metadata == DefaultMetadata && Dimensions(img) == (0, 0)
    ensures img.frameType == Light
  {
    FitsImage(DefaultMetadata, seq(height, _ => seq(width, _ => 0.0)), Light)
  }

  /** A fresh image is consistent with its own recorded dimensions only when it has no rows. */
  lemma NewConsistentOnlyWhenEmpty(width: nat, height: nat)
    ensures Consistent(New(width, height)) <==> height == 0
  {
    if height > 0 {
      assert |New(width, height).data| != 0;
    }
  }

  // ---------------------------------------------------------------------
  // Header mappings used when loading and saving
  // ---------------------------------------------------------------------

  /** Lower-cases the ASCII letters A-Z and leaves every other character alone. */
  function LowerChar(c: char): char
  {
    if 'A' <= c <= 'Z' then (c as int + 32) as char else c
  }

  /**
   * Lower-cases a string: no upper-case ASCII letter is left, each one
   * becomes its lower-case letter, and every other character stays.
   */
  function ToLower(s: string): (r: string)
    ensures |r| == |s|
    ensures forall i | 0 <= i < |r| :: !('A' <= r[i] <= 'Z')
    ensures forall i | 0 <= i < |s| && 'A' <= s[i] <= 'Z' :: 'a' <= r[i] <= 'z' && r[i] as int - s[i] as int == 32
    ensures forall i | 0 <= i < |s| && !('A' <= s[i] <= 'Z') :: r[i] == s[i]
  {
    seq(|s|, i requires 0 <= i < |s| => LowerChar(s[i]))
  }

  /**
   * The frame type read from the FRAME header key: `None` when the key is
   * absent, in which case the caller's frame type is kept. Recognised values
   * are compared case-insensitively; any other value means a light frame.
   */
  function ParseFrameKey(frame: Option<string>, fallback: FrameType): (r: FrameType)
    ensures frame.None? ==> r == fallback
    ensures frame.Some? && r != Light ==> ToLower(frame.value) == ToLower(FrameKeyFor(r))
  {
    match frame
    case None => fallback
    case Some(s) =>
      var lower := ToLower(s);
      if lower == "light" then Light
      else if lower == "dark" then Dark
      else if lower == "flat" then Flat
      else if lower == "bias" then Bias
      else if lower == "darkflat" then DarkFlat
      else Light
  }

  /** The FRAME header value written for each frame type: a non-empty word in capitals. */
  function FrameKeyFor(f: FrameType): (r: string)
    ensures |r| > 0
    ensures forall i | 0 <= i < |r| :: 'A' <= r[i] <= 'Z'
  {
    match f
    case Light => "LIGHT"
    case Dark => "DARK"
    case Flat => "FLAT"
    case Bias => "BIAS"
    case DarkFlat => "DARKFLAT"
  }

  lemma LowerOfKey(f: FrameType)
    ensures ToLower(FrameKeyFor(f)) == match f
      case Light => "light"
      case Dark => "dark"
      case Flat => "flat"
      case Bias => "bias"
      case DarkFlat => "darkflat"
  {
  }

  /** Writing a frame type to the FRAME key and reading it back gives the same frame type. */
  lemma FrameKeyRoundTrip(f: FrameType, fallback: FrameType)
    ensures ParseFrameKey(Some(FrameKeyFor(f)), fallback) == f
  {
    LowerOfKey(f);
  }

  lemma {:induction false} ToLowerIdempotent(s: string)
    ensures ToLower(ToLower(s)) == ToLower(s)
  {
    assert forall i | 0 <= i < |s| :: LowerChar(LowerChar(s[i])) == LowerChar(s[i]);
  }

  /** Lower-casing leaves a string unchanged exactly when it holds no upper-case ASCII letter. */
  lemma ToLowerFixes(s: string)
    ensures ToLower(s) == s <==> forall i | 0 <= i < |s| :: !('A' <= s[i] <= 'Z')
  {
    if forall i | 0 <= i < |s| :: !('A' <= s[i] <= 'Z') {
      assert forall i | 0 <= i < |s| :: ToLower(s)[i] == s[i];
    }
  }

  /**
   * A present FRAME value yields a non-light frame type exactly when it
   * spells that type's key in some mix of upper and lower case; the
   * comparison ignores case.
   */
  lemma ParseFrameKeyRecognises(s: string, fallback: FrameType, f: FrameType)
    requires f != Light
    ensures ParseFrameKey(Some(s), fallback) == f <==> ToLower(s) == ToLower(FrameKeyFor(f))
    ensures ParseFrameKey(Some(s), fallback) == ParseFrameKey(Some(ToLower(s)), fallback)
  {
    LowerOfKey(f);
    ToLowerIdempotent(s);
  }

  /** Header keys longer than 8 characters are cut to their first 8. */
  function TruncateKey(key: string): (r: string)
    ensures |r| == if |key| > 8 then 8 else |key|
    ensures r <= key
    ensures r == key <==> |key| <= 8
  {
    if |key| > 8 then key[..8] else key
  }

  /** The on-disk sample types the image library reports. */
  datatype ImageType =
    | UnsignedByte | Byte | Short | UnsignedShort | Long | UnsignedLong | LongLong | Float | Double

  /** Bytes per sample of each on-disk type (8, 16, 32 or 64 bits). */
  function StoredBytes(t: ImageType): nat
  {
    match t
    case UnsignedByte => 1
    case Byte => 1
    case Short => 2
    case UnsignedShort => 2
    case Long => 4
    case UnsignedLong => 4
    case LongLong => 8
    case Float => 4
    case Double => 8
  }

  /** The pixel type recorded for each on-disk sample type; `Long` is not supported. */
  function PixelTypeOf(t: ImageType): (r: Result<PixelType, ImageError>)
    ensures r.Err? <==> t == Long
    ensures r.Err? ==> r.error == UnsupportedOperation("Unsupported FITS data type")
  {
    match t
    case Byte => Ok(U8)
    case LongLong => Ok(I32)
    case UnsignedByte => Ok(U8)
    case UnsignedLong => Ok(U32)
    case Double => Ok(F64)
    case Float => Ok(F32)
    case Short => Ok(I16)
    case UnsignedShort => Ok(U16)
    case _ => Err(UnsupportedOperation("Unsupported FITS data type"))
  }

  /**
   * Loading keeps the sample width of every supported on-disk type except
   * 64-bit integers, which are recorded as 32-bit; 32-bit signed integers
   * are the one type refused.
   */
  lemma LoadedPixelWidth(t: ImageType)
    ensures PixelTypeOf(t).Ok? <==> t != Long
    ensures PixelTypeOf(t).Ok? && t != LongLong ==> BytesPerPixel(PixelTypeOf(t).value) == StoredBytes(t)
    ensures t == LongLong ==> BytesPerPixel(PixelTypeOf(t).value) < StoredBytes(t)
  {
  }

  /**
   * Every pixel type except I32 is recorded for some on-disk type of the
   * same sample width; I32 is recorded only for 64-bit integers.
   */
  lemma PixelTypeSources(p: PixelType)
    ensures p != I32 ==> exists t :: PixelTypeOf(t) == Ok(p) && StoredBytes(t) == BytesPerPixel(p)
    ensures forall t | PixelTypeOf(t) == Ok(I32) :: t == LongLong && StoredBytes(t) == 8
  {
    var t := match p
      case U8 => UnsignedByte
      case U16 => UnsignedShort
      case U32 => UnsignedLong
      case I16 => Short
      case I32 => LongLong
      case F32 => Float
      case F64 => Double;
    assert PixelTypeOf(t) == Ok(p);
  }

  /** Only two-dimensional shapes load; the shape lists height first, then width. */
  function ImageShape(shape: seq<nat>): (r: Result<(nat, nat), ImageError>)
    ensures r.Ok? <==> |shape| == 2
    ensures r.Ok? ==> r.value == (shape[1], shape[0])
    ensures r.Err? ==> r.error == UnsupportedOperation("Only 2D images are supported")
  {
    if |shape| != 2 then Err(UnsupportedOperation("Only 2D images are supported"))
    else Ok((shape[1], shape[0]))
  }

  /** Cuts a row-major sample vector into `height` rows of `width` samples. */
  function Rows(pixels: seq<real>, height: nat, width: nat): (r: seq<seq<real>>)
    requires |pixels| == height * width
    ensures |r| == height
  {
    if height == 0 then []
    else [pixels[..width]] + Rows(pixels[width..], height - 1, width)
  }

  /** The samples of a buffer in row-major order. */
  function Samples(data: seq<seq<real>>): seq<real>
  {
    if |data| == 0 then [] else data[0] + Samples(data[1..])
  }

  lemma {:induction false} RowsShape(pixels: seq<real>, height: nat, width: nat)
    requires |pixels| == height * width
    ensures IsGrid(Rows(pixels, height, width), width, height)
    ensures Samples(Rows(pixels, height, width)) == pixels
  {
    if height > 0 {
      RowsShape(pixels[width..], height - 1, width);
      assert pixels == pixels[..width] + pixels[width..];
    }
  }

  /** Row `y`, column `x` of a height-by-width grid is within its height * width samples. */
  lemma {:induction false} IndexInGrid(y: nat, x: nat, width: nat, height: nat)
    requires y < height && x < width
    ensures y * width + x < height * width
  {
    assert height * width == (height - 1) * width + width;
    if y < height - 1 {
      IndexInGrid(y, x, width, height - 1);
    }
  }

  lemma {:induction false} RowsAt(pixels: seq<real>, height: nat, width: nat, y: nat, x: nat)
    requires |pixels| == height * width
    requires y < height && x < width
    ensures y * width + x < |pixels|
    ensures |Rows(pixels, height, width)| == height && |Rows(pixels, height, width)[y]| == width
    ensures Rows(pixels, height, width)[y][x] == pixels[y * width + x]
  {
    IndexInGrid(y, x, width, height);
    var rest := pixels[width..];
    assert |rest| == (height - 1) * width by {
      assert height * width == (height - 1) * width + width;
    }
    assert Rows(pixels, height, width) == [pixels[..width]] + Rows(rest, height - 1, width);
    if y > 0 {
      RowsAt(rest, height - 1, width, y - 1, x);
      var k := (y - 1) * width + x;
      assert k + width == y * width + x by {
        assert y * width == (y - 1) * width + width;
      }
      assert Rows(pixels, height, width)[y][x] == rest[k];
    }
  }

  lemma RowsPixels(pixels: seq<real>, height: nat, width: nat)
    requires |pixels| == height * width
    ensures IsGrid(Rows(pixels, height, width), width, height)
    ensures forall y: nat, x: nat {:trigger Rows(pixels, height, width)[y][x]} | y < height && x < width ::
      y * width + x < |pixels| && Rows(pixels, height, width)[y][x] == pixels[y * width + x]
  {
    RowsShape(pixels, height, width);
    forall y: nat, x: nat | y < height && x < width
      ensures y * width + x < |pixels| && Rows(pixels, height, width)[y][x] == pixels[y * width + x]
    {
      RowsAt(pixels, height, width, y, x);
    }
  }

  /** What the primary header-data unit reports: an image of some shape and sample type, or something else. */
  datatype HduInfo = ImageInfo(shape: seq<nat>, imageType: ImageType) | OtherInfo

  /** The header keys read when loading; `None` stands for a key that is absent or unreadable. */
  datatype HeaderKeys = HeaderKeys(
    exposureTime: Option<real>,
    temperature: Option<real>,
    filter: Option<string>,
    frame: Option<string>)

  /**
   * A fixed stand-in for the array library's reshape error, reported when
   * the sample count is not height times width.
   */
  const ShapeMismatchMessage := "ShapeError/IncompatibleShape: incompatible shapes"

  /**
   * Builds an image from what was read from a file at `path`: the header
   * unit's description, its keys, and its samples in row-major order
   * (already converted to the working type). `frameType` is the caller's
   * frame type, kept when there is no FRAME key.
   */
  function FromHdu(path: string, info: HduInfo, keys: HeaderKeys, pixels: seq<real>, frameType: FrameType)
    : (r: Result<FitsImage, ImageError>)
    ensures r.Ok? ==> info.ImageInfo? && |info.shape| == 2 && |pixels| == info.shape[0] * info.shape[1]
    ensures r.Ok? ==> Dimensions(r.value) == (info.shape[1], info.shape[0])
    ensures r.Ok? ==> r.value.metadata.filePath == Some(path)
  {
    match info
    case OtherInfo => Err(UnsupportedOperation("Only image HDUs are supported"))
    case ImageInfo(shape, imageType) =>
      match ImageShape(shape)
      case Err(e) => Err(e)
      case Ok(dims) =>
        var width := dims.0;
        var height := dims.1;
        var metadata := DefaultMetadata.(
          dimensions := (width, height),
          filePath := Some(path),
          exposureTime := keys.exposureTime,
          temperature := keys.temperature,
          filter := keys.filter);
        match PixelTypeOf(imageType)
        case Err(e) => Err(e)
        case Ok(pixelType) =>
          if |pixels| != height * width then Err(DimensionError(ShapeMismatchMessage))
          else
            Ok(FitsImage(metadata.(pixelType := pixelType), Rows(pixels, height, width),
                         ParseFrameKey(keys.frame, frameType)))
  }

  /**
   * Loading succeeds exactly for a two-dimensional image of a supported
   * sample type whose sample count is height times width; otherwise the
   * first failing check decides the error.
   */
  lemma FromHduErrors(path: string, info: HduInfo, keys: HeaderKeys, pixels: seq<real>, frameType: FrameType)
    ensures var r := FromHdu(path, info, keys, pixels, frameType);
      r.Ok? <==> (info.ImageInfo? && |info.shape| == 2 && info.imageType != Long
                  && |pixels| == info.shape[0] * info.shape[1])
    ensures info.OtherInfo? ==>
      FromHdu(path, info, keys, pixels, frameType) == Err(UnsupportedOperation("Only image HDUs are supported"))
    ensures info.ImageInfo? && |info.shape| != 2 ==>
      FromHdu(path, info, keys, pixels, frameType) == Err(UnsupportedOperation("Only 2D images are supported"))
    ensures info.ImageInfo? && |info.shape| == 2 && info.imageType == Long ==>
      FromHdu(path, info, keys, pixels, frameType) == Err(UnsupportedOperation("Unsupported FITS data type"))
    ensures info.ImageInfo? && |info.shape| == 2 && info.imageType != Long
            && |pixels| != info.shape[0] * info.shape[1] ==>
      FromHdu(path, info, keys, pixels, frameType) == Err(DimensionError(ShapeMismatchMessage))
  {
    match info
    case OtherInfo =>
    case ImageInfo(shape, imageType) =>
      if |shape| == 2 {
        assert ImageShape(shape) == Ok((shape[1], shape[0]));
      }
  }

  /**
   * A loaded image records (width, height) = (shape[1], shape[0]), holds
   * exactly that many rows and columns, keeps the samples in row-major
   * order, and takes its frame type from the FRAME key.
   */
  lemma FromHduLoads(path: string, info: HduInfo, keys: HeaderKeys, pixels: seq<real>, frameType: FrameType)
    requires FromHdu(path, info, keys, pixels, frameType).Ok?
    ensures info.ImageInfo? && |info.shape| == 2
    ensures var img := FromHdu(path, info, keys, pixels, frameType).value;
      && Dimensions(img) == (info.shape[1], info.shape[0])
      && Consistent(img)
      && Samples(img.data) == pixels
      && (forall y: nat, x: nat {:trigger img.data[y][x]} | y < info.shape[0] && x < info.shape[1] ::
            y * info.shape[1] + x < |pixels| && img.data[y][x] == pixels[y * info.shape[1] + x])
      && img.metadata.pixelType == PixelTypeOf(info.imageType).value
      && img.metadata.filePath == Some(path)
      && img.frameType == ParseFrameKey(keys.frame, frameType)
  {
    FromHduErrors(path, info, keys, pixels, frameType);
    var height, width := info.shape[0], info.shape[1];
    assert ImageShape(info.shape) == Ok((width, height));
    var img := FromHdu(path, info, keys, pixels, frameType).value;
    assert img.data == Rows(pixels, height, width);
    RowsShape(pixels, height, width);
    RowsPixels(pixels, height, width);
  }

  // ---------------------------------------------------------------------
  // Statistics
  // ---------------------------------------------------------------------

  /** The largest finite 32-bit float; its negation is the smallest. */
  const F32Max: real := 340282346638528859811704183484516925440.0
  const F32Min: real := -F32Max

  /** A working-type quotient that may be 0/0, which the source leaves as NaN. */
  datatype MaybeNaN = Finite(value: real) | NaN

  datatype ImageStatistics = ImageStatistics(min: real, max: real, mean: MaybeNaN, median: real, stdDev: MaybeNaN)

  /**
   * The first statistics pass: the running minimum and maximum, starting
   * from the extreme finite 32-bit values, and the running sum.
   */
  method MinMaxSum(values: seq<real>) returns (min: real, max: real, sum: real)
    ensures sum == Sum(values)
    ensures forall i | 0 <= i < |values| :: min <= values[i] && values[i] <= max
    ensures min <= F32Max && F32Min <= max
    ensures min == F32Max || exists i | 0 <= i < |values| :: values[i] == min
    ensures max == F32Min || exists i | 0 <= i < |values| :: values[i] == max
  {
    min, max, sum := F32Max, F32Min, 0.0;
    ghost var minAt, maxAt := -1, -1;  // where min and max were last taken from, if anywhere
    for i := 0 to |values|
      invariant sum == Sum(values[..i])
      invariant min <= F32Max && F32Min <= max
      invariant forall k | 0 <= k < i :: min <= values[k] && values[k] <= max
      invariant (minAt == -1 && min == F32Max) || (0 <= minAt < i && values[minAt] == min)
      invariant (maxAt == -1 && max == F32Min) || (0 <= maxAt < i && values[maxAt] == max)
    {
      var value := values[i];
      assert values[..i + 1][..i] == values[..i];
      sum := sum + value;
      if value < min {
        min, minAt := value, i;
      }
      if value > max {
        max, maxAt := value, i;
      }
    }
    assert values[..|values|] == values;
    assert minAt >= 0 ==> values[minAt] == min;
    assert maxAt >= 0 ==> values[maxAt] == max;
  }

  /** The second statistics pass: the sum of squared deviations from `mean`. */
  method SquaredDeviationSum(values: seq<real>, mean: real) returns (varianceSum: real)
    ensures varianceSum == SquaredDeviations(values, mean)
  {
    varianceSum := 0.0;
    for i := 0 to |values|
      invariant varianceSum == SquaredDeviations(values[..i], mean)
    {
      assert values[..i + 1][..i] == values[..i];
      varianceSum := varianceSum + (values[i] - mean) * (values[i] - mean);
    }
    assert values[..|values|] == values;
  }

  /**
   * Summary statistics of an image's samples, in row-major order: min, max
   * and mean from the first pass, the population standard deviation from
   * the second, and the median of a sorted copy. With no samples, min and
   * max keep their starting values, mean and standard deviation are 0/0
   * and the median is 0. The image itself is a value and is not changed.
   */
  method CalculateStatistics(img: FitsImage, sqrt: real -> real) returns (stats: ImageStatistics)
    ensures var s := Samples(img.data);
      && (forall i | 0 <= i < |s| :: stats.min <= s[i] && s[i] <= stats.max)
      && stats.min <= F32Max && F32Min <= stats.max
      && (stats.min == F32Max || exists i | 0 <= i < |s| :: s[i] == stats.min)
      && (stats.max == F32Min || exists i | 0 <= i < |s| :: s[i] == stats.max)
    ensures var s := Samples(img.data);
      |s| > 0 && (forall i | 0 <= i < |s| :: F32Min <= s[i] <= F32Max) ==>
        (exists i | 0 <= i < |s| :: s[i] == stats.min) && (exists i | 0 <= i < |s| :: s[i] == stats.max)
    ensures var s := Samples(img.data);
      stats.mean == if |s| == 0 then NaN else Finite(Mean(s))
    ensures var s := Samples(img.data);
      stats.stdDev == if |s| == 0 then NaN else Finite(StdDev(s, sqrt))
    ensures var s := Samples(img.data);
      stats.median == if |s| == 0 then 0.0 else MedianOf(s)
  {
    var values := Samples(img.data);
    var min, max, sum := MinMaxSum(values);
    var count := |values|;
    if count == 0 {
      stats := ImageStatistics(min, max, NaN, 0.0, NaN);
    } else {
      var mean := sum / (count as real);
      var varianceSum := SquaredDeviationSum(values, mean);
      var stdDev := sqrt(varianceSum / (count as real));
      var median := MedianBySorting(values);
      stats := ImageStatistics(min, max, Finite(mean), median, Finite(stdDev));
    }
  }

  lemma SumsOfOneToFour(s: seq<real>)
    requires |s| == 4 && s[0] == 1.0 && s[1] == 2.0 && s[2] == 3.0 && s[3] == 4.0
    ensures Sum(s) == 10.0
    ensures SquaredDeviations(s, 2.5) == 5.0
  {
    assert s == [1.0, 2.0, 3.0, 4.0];
    assert s[..3] == [1.0, 2.0, 3.0];
    assert s[..3][..2] == [1.0, 2.0];
    assert s[..3][..2][..1] == [1.0];
    assert s[..3][..2][..1][..0] == [];
    assert Sum([1.0]) == 1.0;
    assert Sum([1.0, 2.0]) == 3.0;
    assert Sum([1.0, 2.0, 3.0]) == 6.0;
    assert SquaredDeviations([1.0], 2.5) == 2.25;
    assert SquaredDeviations([1.0, 2.0], 2.5) == 2.5;
    assert SquaredDeviations([1.0, 2.0, 3.0], 2.5) == 2.75;
  }

  /**
   * The statistics of the samples 1, 2, 3, 4: mean 2.5, median 2.5,
   * population variance 1.25, so a standard deviation of about 1.11803.
   */
  lemma StatisticsOfOneToFour(s: seq<real>, sqrt: real -> real)
    requires |s| == 4 && s[0] == 1.0 && s[1] == 2.0 && s[2] == 3.0 && s[3] == 4.0
    requires IsSqrt(sqrt)
    ensures Mean(s) == 2.5
    ensures MedianOf(s) == 2.5
    ensures PopVariance(s) == 1.25
    ensures 1.118 < StdDev(s, sqrt) < 1.1181
  {
    SumsOfOneToFour(s);
    MedianOfSorted(s);
    assert Mean(s) == 2.5;
    assert PopVariance(s) == 1.25;
    var d := sqrt(1.25);
    assert 0.0 <= d && d * d == 1.25;
    SquareLess(1.118, d);
    SquareLess(d, 1.1181);
  }

  lemma SamplesOfTwoByTwo(data: seq<seq<real>>)
    requires IsGrid(data, 2, 2)
    ensures Samples(data) == [data[0][0], data[0][1], data[1][0], data[1][1]]
  {
    var rest := data[1..];
    assert |rest[1..]| == 0;
    assert Samples(rest) == data[1] + [];
    assert data[0] == [data[0][0], data[0][1]] && data[1] == [data[1][0], data[1][1]];
  }

  /** Bounds of the samples 1, 2, 3, 4 that are attained are 1 and 4. */
  lemma ExtremesOfOneToFour(s: seq<real>, min: real, max: real)
    requires |s| == 4 && s[0] == 1.0 && s[1] == 2.0 && s[2] == 3.0 && s[3] == 4.0
    requires forall i | 0 <= i < |s| :: min <= s[i] <= max
    requires exists i | 0 <= i < |s| :: s[i] == min
    requires exists i | 0 <= i < |s| :: s[i] == max
    ensures min == 1.0 && max == 4.0
  {
    assert min <= s[0] && s[3] <= max;
  }

  /**
   * The statistics of a 2-by-2 image with rows 1, 2 and 3, 4: min 1, max 4,
   * mean 2.5, median 2.5 and a standard deviation of about 1.11803.
   */
  method StatisticsOfTwoByTwo(img: FitsImage, sqrt: real -> real) returns (stats: ImageStatistics)
    requires IsGrid(img.data, 2, 2)
    requires img.data[0][0] == 1.0 && img.data[0][1] == 2.0
    requires img.data[1][0] == 3.0 && img.data[1][1] == 4.0
    requires IsSqrt(sqrt)
    ensures stats.min == 1.0 && stats.max == 4.0
    ensures stats.mean == Finite(2.5) && stats.median == 2.5
    ensures stats.stdDev.Finite? && 1.118 < stats.stdDev.value < 1.1181
  {
    var s := Samples(img.data);
    SamplesOfTwoByTwo(img.data);
    assert s == [1.0, 2.0, 3.0, 4.0];
    assert forall i | 0 <= i < |s| :: F32Min <= s[i] <= F32Max;
    stats := CalculateStatistics(img, sqrt);
    ExtremesOfOneToFour(s, stats.min, stats.max);
    StatisticsOfOneToFour(s, sqrt);
  }
}
