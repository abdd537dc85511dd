# Frame stacking and FITS image model

A Dafny model of the calibration core of an astrophotography tool. The tool
loads FITS images (astronomical images with a header of keys and a 2-D sample
array), and combines N frames of the same scene into one stacked frame by
per-pixel average, median or sigma-clipped mean. It also computes summary
statistics of an image.

The model has three modules:

- `Numeric` (`numeric.dfy`) holds the real arithmetic the combiners and the
  statistics share. It defines the sum, the population mean and variance,
  and the standard deviation for a given square root. It also defines an
  ascending sort, specified as "sorted, and a permutation of its input", and
  the odd/even median rule. The median is computed as the source does it:
  the samples are copied into an array, which an insertion sort sorts in
  place, and the middle is taken.
- `Image` (`image.dfy`) models `src/image/mod.rs`. It covers pixel types and
  their byte widths, the default metadata, the image value and its
  zero-filled constructor, and the recorded dimensions. It also covers the
  pure parts of loading and saving: the FRAME key, 8-character key
  truncation, the on-disk sample-type table, the 2-D shape check and
  row-major reshaping. Finally it covers the two-pass statistics engine.
- `Calibration` (`calibration.dfy`) models `src/calibration/mod.rs`. It
  covers the shared validation prologue (empty list, then mismatched
  dimensions) and the three combiners.
  - Each combiner is a method. It builds its output from a fresh image whose
    metadata and frame type come from the first input, then fills the output
    pixel by pixel.
  - Each combiner is proved against a specification function of the
    pixel's stack of input samples (`Mean`, `MedianOf`, `SigmaClipOf`).
  - The sigma-clipping loop of one pixel is a method proved against the
    recursive `Clip`.

Samples are `real`, not 32-bit floats. The square root is a parameter
`sqrt: real -> real`. Lemmas that need it assume `IsSqrt(sqrt)`: for every
non-negative `x`, `sqrt(x)` is non-negative and squares to `x`.

An image is a value (`datatype FitsImage`) whose buffer is `data[y][x]`, with
`height` rows of `width` samples. The combiners require `Readable(images)`:
once validation passes, every input buffer holds at least the first image's
recorded height and width. Without this, the source's indexing would panic.
The source does not keep recorded dimensions and buffer shape in step.
`FitsImage::new` records (0, 0) whatever buffer it allocates.

Two behaviours of the code are not what a reader might expect, and the
model keeps both:

- One might expect an image with no samples to have all-zero statistics.
  The code keeps min = f32::MAX and max = f32::MIN, computes the mean and
  standard deviation as 0/0 (modelled as `NaN`), and reports a median of 0.
- One might expect the sample-type table to map 32-bit signed integer images
  to `I32`. The code refuses them (`Long`) and records 64-bit integer images
  (`LongLong`) as `I32` instead.

## Model

| member | source | states |
|---|---|---|
| Numeric.SortInPlace | src/calibration/mod.rs:97 | sorting the buffer in place leaves it ascending and holding exactly the samples it held before (multiset equality) |
| Numeric.MedianBySorting | src/calibration/mod.rs:95-104 | copying the stack into a buffer, sorting it in place and taking the odd/even middle gives `MedianOf` of the stack; with no samples it gives 0, as the statistics at src/image/mod.rs:449-458 do |
| Numeric.SortAscending | src/calibration/mod.rs:97 | the sorted copy is ascending, has the same length, and holds exactly the input's samples (multiset equality) |
| Numeric.SortedUnique | src/calibration/mod.rs:97 | two ascending sequences with the same samples are equal, so any correct sort gives the same median |
| Numeric.MedianOfSorted | src/calibration/mod.rs:99-104 | for an input already ascending, sorting changes nothing and the median is the odd/even middle of the input itself |
| Numeric.MedianOfOne | src/calibration/mod.rs:99-104 | the median of one sample is that sample |
| Numeric.MedianOfTwo | src/calibration/mod.rs:99-101 | the median of two samples is their mean, in either order |
| Numeric.MedianIgnoresOrder | src/calibration/mod.rs:95-104 | the median depends only on the multiset of samples, not their order |
| Numeric.MedianBounds | src/calibration/mod.rs:95-104 | the median lies within any common lower and upper bound of the samples |
| Numeric.MeanBounds | src/calibration/mod.rs:44-45 | the mean lies within any common lower and upper bound of the samples |
| Numeric.MeanOfConstant | src/calibration/mod.rs:44-45 | the mean of identical samples is exactly that sample |
| Numeric.StdDevSquared | src/image/mod.rs:441-446 | the population variance is non-negative; the standard deviation is non-negative and squares to it |
| Image.New | src/image/mod.rs:146-155 | a height-by-width buffer of zeros, the default metadata with recorded dimensions (0, 0), and a light frame |
| Image.NewConsistentOnlyWhenEmpty | src/image/mod.rs:73-86 | a fresh image's recorded dimensions match its buffer exactly when it has no rows |
| Image.BytesPerPixel | src/image/mod.rs:25-34 | every sample is 1, 2, 4 or 8 bytes; only U8 takes one byte and only F64 takes eight (PixelTypeSources pairs each width with the on-disk types) |
| Image.ToLower | src/image/mod.rs:299 | same length; no upper-case ASCII letter is left; each one becomes its lower-case letter and every other character is kept |
| Image.ToLowerFixes | src/image/mod.rs:299 | lower-casing leaves a string unchanged exactly when it holds no upper-case ASCII letter |
| Image.ParseFrameKey | src/image/mod.rs:297-309 | an absent FRAME key keeps the caller's frame type; a present value gives a light frame or the frame type whose written value it equals ignoring case (see FrameKeyRoundTrip, ParseFrameKeyRecognises) |
| Image.FrameKeyFor | src/image/mod.rs:354-360 | the FRAME value written is a non-empty word in capitals; FrameKeyRoundTrip shows it reads back as the same frame type |
| Image.LowerOfKey | src/image/mod.rs:354-360 | each FRAME value written lower-cases to the word the reader matches |
| Image.FrameKeyRoundTrip | src/image/mod.rs:354-360 | the FRAME value written for a frame type parses back to that frame type, whatever the caller's default |
| Image.ToLowerIdempotent | src/image/mod.rs:299 | lower-casing twice is lower-casing once |
| Image.ParseFrameKeyRecognises | src/image/mod.rs:297-309 | a present FRAME value yields a given non-light frame type exactly when it equals that type's name ignoring case; parsing ignores case |
| Image.TruncateKey | src/image/mod.rs:365 | a key longer than 8 characters becomes its first 8; a shorter key is unchanged; the result is always a prefix |
| Image.PixelTypeOf | src/image/mod.rs:225-293 | exactly the 32-bit signed integer type is refused, with the source's message |
| Image.LoadedPixelWidth | src/image/mod.rs:225-293 | every on-disk type except 32-bit signed integers loads; each keeps its byte width except 64-bit integers, recorded as narrower I32 |
| Image.PixelTypeSources | src/image/mod.rs:25-35 | every pixel type except I32 comes from an on-disk type of the same byte width; I32 comes only from 64-bit integers |
| Image.ImageShape | src/image/mod.rs:195-202 | a shape loads exactly when it has two entries, giving (width, height) = (shape[1], shape[0]); otherwise the source's 2-D error |
| Image.RowsShape | src/image/mod.rs:229-232 | reshaping height*width samples gives height rows of width samples whose row-major order is the input |
| Image.RowsAt | src/image/mod.rs:229-232 | sample [y][x] of the reshaped buffer is input sample y*width+x |
| Image.FromHdu | src/image/mod.rs:185-323 | a loaded image comes from a 2-D image description whose sample count is height*width, records (shape[1], shape[0]) and keeps the file path |
| Image.FromHduErrors | src/image/mod.rs:192-322 | loading succeeds exactly for a 2-D image of a supported type with height*width samples; otherwise the first failing check decides the error, with the source's messages, and a sample-count mismatch gives a fixed reshape message |
| Image.FromHduLoads | src/image/mod.rs:201-315 | a loaded image records (shape[1], shape[0]), matches its buffer, keeps the samples in row-major order, and has the type, path and FRAME-derived frame type |
| Image.MinMaxSum | src/image/mod.rs:422-435 | the sum is the sum of the samples; min and max bound every sample and are each either the starting extreme or a sample |
| Image.SquaredDeviationSum | src/image/mod.rs:441-444 | the result is the sum of squared deviations from the given mean |
| Image.CalculateStatistics | src/image/mod.rs:421-468 | min/max bound every sample and are attained when in f32 range; mean is the mean and std_dev the population standard deviation (NaN if empty); median is the odd/even middle of a sorted copy (0 if empty) |
| Image.StatisticsOfOneToFour | src/image/mod.rs:437-459 | for samples 1, 2, 3, 4: mean 2.5, median 2.5, population variance 1.25, standard deviation between 1.118 and 1.1181 |
| Image.StatisticsOfTwoByTwo | src/image/mod.rs:421-468 | the statistics of the image with rows 1, 2 and 3, 4 are min 1, max 4, mean 2.5, median 2.5 and a standard deviation between 1.118 and 1.1181 |
| Calibration.CheckInputs | src/calibration/mod.rs:5-22 | the result is the FormatError for an empty list, else the DimensionError if some image's dimensions differ from the first's, else none |
| Calibration.CollectAverages | src/calibration/mod.rs:39-51 | the collected list holds, for every pixel position, that position with the mean of its stack, and nothing else |
| Calibration.Average | src/calibration/mod.rs:4-60 | errors exactly as the prologue says; otherwise the output has the first input's metadata, frame type and height-by-width buffer, and every pixel is the mean of its stack |
| Calibration.Median | src/calibration/mod.rs:63-111 | errors exactly as the prologue says; otherwise the output inherits from the first input and every pixel is the median of its stack |
| Calibration.Retain | src/calibration/mod.rs:169 | the kept samples are a subsequence of the input, and a sample is kept as often as it occurs exactly when it lies in [lo, hi] |
| Calibration.Clip | src/calibration/mod.rs:154-170 | clipping never lengthens the stack (ClipSurvivors and ClipMembers say which samples survive) |
| Calibration.SigmaClipOf | src/calibration/mod.rs:154-177 | an empty stack gives 0; when no clipping round runs (no iterations, or at most 2 samples) the result is the plain mean |
| Calibration.ClipStep | src/calibration/mod.rs:159-169 | one clipping round with the loop's mean and standard deviation is one step of Clip |
| Calibration.ClipPixel | src/calibration/mod.rs:151-177 | the pixel's value is the mean of the clip survivors, or 0 when none survive |
| Calibration.SigmaClipping | src/calibration/mod.rs:114-182 | errors exactly as the prologue says; otherwise the output inherits from the first input and every pixel is the sigma-clipped mean of its stack |
| Calibration.ClipSurvivors | src/calibration/mod.rs:154-170 | the survivors are a subsequence of the stack; with no rounds or at most 2 samples the stack is unchanged |
| Calibration.ClipMembers | src/calibration/mod.rs:154-170 | clipping never adds a sample nor more copies of one than the stack holds |
| Calibration.RetainAll | src/calibration/mod.rs:166-169 | a range holding every sample keeps the whole stack |
| Calibration.ClipKeepsIdenticalSamples | src/calibration/mod.rs:154-177 | a stack of identical samples loses nothing to clipping, and its sigma-clipped mean is that sample |
| Calibration.SigmaClipBounds | src/calibration/mod.rs:172-177 | the sigma-clipped mean lies within any common bounds of the samples, or is 0 when nothing survives |
| Calibration.SigmaClipWithoutRounds | src/calibration/mod.rs:154-177 | with zero iterations the sigma-clipped mean of a stack is its plain mean |
| Calibration.SigmaClipZeroIterationsIsAverage | src/calibration/mod.rs:148-177 | sigma clipping with zero iterations and averaging give the same image |
| Calibration.AverageOfCopies | src/calibration/mod.rs:39-56 | averaging N copies of a consistent image reproduces it exactly |
| Calibration.MedianOfOneImage | src/calibration/mod.rs:93-106 | the median of one consistent image is that image |
| Calibration.MedianOfTwoImages | src/calibration/mod.rs:93-106 | the median of two images is their per-pixel mean |
| Calibration.TenTwentyThirty | src/calibration/mod.rs:148-177 | for a stack 10, 20, 30 the mean and median are 20; with sigma 1 the first round keeps only 20, clipping then stops, and the result is 20 |

## Left out

- File I/O is not modelled: opening FITS files, reading and writing header keys and sample arrays, and `from_folder` directory scanning. `FromHdu` takes what a read produced as parameters: the header unit's description, the keys present, and the samples already widened to the working type.
- Read and write errors from the FITS library (`FitsError`, `IoError`) are not modelled. Neither are the libraries' own error texts: a sample count that does not fit the shape gives a fixed placeholder message, not the array library's text.
- Saving is modelled only through the FRAME value written and the key truncation. The saturating float-to-integer conversions of the sample data are left out, and so are the writes of EXPTIME, CCD-TEMP, FILTER and the extra keys.
- The averaging pass spreads rows over worker threads and prints progress lines. The model computes the same row-major list sequentially and leaves out the output lines.
- 32-bit float rounding, NaN samples and the NaN fallback in the sort comparators are not modelled. Samples are reals, the sorts assume a total order, and `sqrt` is a parameter.
- ToLower: lower-cases ASCII A-Z only; Unicode case mapping beyond that is not modelled.
- TruncateKey: cuts at 8 characters; the source cuts at 8 bytes, which differs (or panics) for keys with multi-byte characters.
- `isoGain` is an unbounded `nat`; the 32-bit bound is not modelled. The exposure time and temperature are reals, not 64-bit floats.
- `ImageError`'s display formatting and the conversions from I/O and library errors are not modelled.
- The combiners require `Readable(images)`: every input buffer holds at least the first image's recorded height and width. The source indexes each buffer without checking and panics when one is smaller; that panic is not modelled. The stacking command builds its inputs by loading files, which meets this.
- The user interface, the command-line stacking command and the program entry point are not part of this model.
- The master-frame and calibration operations are commented out in the source and are not modelled.
