/** The two hardware back ends that `ConfigurationProvider` asks for size
    listings, and the scaling of the legacy back end's zoom units.

    The back ends themselves are foreign calls; each is modelled by a value
    that holds what it reports: `CameraParameters` for what
    `camera.getParameters()` returns on the legacy API, and
    `StreamConfigurationMap` for the structured API's output sizes. */
module Backends {
  import opened CameraKeys

  /** A width/height pair, as built by `Size.fromList`. */
  datatype Size = Size(width: int, height: int)

  /** The exception a size query can raise. */
  datatype Error = IllegalArgument(sizeFor: JInt)

  /** The outcome of a size query: the listing, or the exception it throws. */
  datatype Result<T> = Success(value: T) | Failure(error: Error)

  datatype Option<T> = None | Some(value: T)

  /** What the legacy `Camera.Parameters` reports. */
  datatype CameraParameters = CameraParameters(
    supportedPictureSizes: seq<Size>,
    supportedPreviewSizes: seq<Size>,
    supportedVideoSizes: seq<Size>,
    zoomRatios: seq<int>)

  /** The output targets the structured back end is asked about. */
  datatype OutputTarget = Jpeg | SurfaceTexture | MediaRecorder

  /** What the structured `StreamConfigurationMap` reports per output target. */
  datatype StreamConfigurationMap = StreamConfigurationMap(
    jpegSizes: seq<Size>,
    surfaceTextureSizes: seq<Size>,
    mediaRecorderSizes: seq<Size>)

  function OutputSizes(m: StreamConfigurationMap, target: OutputTarget): (sizes: seq<Size>) {
    match target
    case Jpeg => m.jpegSizes
    case SurfaceTexture => m.surfaceTextureSizes
    case MediaRecorder => m.mediaRecorderSizes
  }

  /** The three cases of the `switch (sizeFor)` in both `getSizes`. */
  datatype SizeFor = Picture | Preview | Video

  /** The `CameraSizeFor` constant of each case. */
  function Code(c: Constants, k: SizeFor): (sizeFor: JInt)
    ensures IsSizeFor(c, sizeFor)
  {
    match k
    case Picture => c.sizeForPicture
    case Preview => c.sizeForPreview
    case Video => c.sizeForVideo
  }

  /** The `switch (sizeFor)`: which case label, if any, an int matches. */
  function Classify(c: Constants, sizeFor: JInt): (k: Option<SizeFor>)
    ensures k.Some? <==> IsSizeFor(c, sizeFor)
    ensures k.Some? ==> Code(c, k.value) == sizeFor
  {
    if sizeFor == c.sizeForPicture then Some(Picture)
    else if sizeFor == c.sizeForPreview then Some(Preview)
    else if sizeFor == c.sizeForVideo then Some(Video)
    else None
  }

  /** The output target the structured back end is asked about for each case. */
  function TargetFor(k: SizeFor): (target: OutputTarget) {
    match k
    case Picture => Jpeg
    case Preview => SurfaceTexture
    case Video => MediaRecorder
  }

  /** The listing the legacy back end gives for `sizeFor`, or the exception. */
  function LegacySizes(c: Constants, p: CameraParameters, sizeFor: JInt): (r: Result<seq<Size>>)
    ensures sizeFor == c.sizeForPicture ==> r == Success(p.supportedPictureSizes)
    ensures sizeFor == c.sizeForPreview ==> r == Success(p.supportedPreviewSizes)
    ensures sizeFor == c.sizeForVideo ==> r == Success(p.supportedVideoSizes)
    ensures !IsSizeFor(c, sizeFor) ==> r == Failure(IllegalArgument(sizeFor))
  {
    match Classify(c, sizeFor)
    case Some(Picture) => Success(p.supportedPictureSizes)
    case Some(Preview) => Success(p.supportedPreviewSizes)
    case Some(Video) => Success(p.supportedVideoSizes)
    case None => Failure(IllegalArgument(sizeFor))
  }

  /** The listing the structured back end gives for `sizeFor`, or the exception. */
  function StructuredSizes(c: Constants, m: StreamConfigurationMap, sizeFor: JInt): (r: Result<seq<Size>>)
    ensures sizeFor == c.sizeForPicture ==> r == Success(m.jpegSizes)
    ensures sizeFor == c.sizeForPreview ==> r == Success(m.surfaceTextureSizes)
    ensures sizeFor == c.sizeForVideo ==> r == Success(m.mediaRecorderSizes)
    ensures !IsSizeFor(c, sizeFor) ==> r == Failure(IllegalArgument(sizeFor))
  {
    match Classify(c, sizeFor)
    case Some(k) => Success(OutputSizes(m, TargetFor(k)))
    case None => Failure(IllegalArgument(sizeFor))
  }

  /** A zoom ratio, held exactly as a whole number of hundredths. */
  datatype ZoomRatio = ZoomRatio(hundredths: int) {
    /** This ratio is the fraction `num / den`. */
    predicate Equals(num: int, den: int) {
      hundredths * den == num * 100
    }
  }

  /** The zoom ratios for a list of hardware zoom units: each unit times 0.01,
      in the same order. */
  function ScaledZoomRatios(units: seq<int>): (r: seq<ZoomRatio>)
    ensures |r| == |units|
    ensures forall i :: 0 <= i < |units| ==> r[i].Equals(units[i], 100)
  {
    seq(|units|, i requires 0 <= i < |units| => ZoomRatio(units[i]))
  }

  /** The loop of `getZoomRatios` that fills a new list with `ratio * 0.01`. */
  method ScaleZoomUnits(units: seq<int>) returns (ratios: seq<ZoomRatio>)
    ensures ratios == ScaledZoomRatios(units)
  {
    ratios := [];
    var i := 0;
    while i < |units|
      invariant 0 <= i <= |units|
      invariant ratios == ScaledZoomRatios(units[..i])
    {
      ratios := ratios + [ZoomRatio(units[i])];
      i := i + 1;
    }
    assert units[..i] == units;
  }

  /** Hardware units 0, 100 and 250 give the ratios 0, 1 and 5/2. */
  lemma ScaledZoomRatiosExample()
    ensures var r := ScaledZoomRatios([0, 100, 250]);
      |r| == 3 && r[0].Equals(0, 1) && r[1].Equals(1, 1) && r[2].Equals(5, 2)
  {
  }
}
