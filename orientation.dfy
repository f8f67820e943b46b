/**
 * The geometry prober and the orientation classifier of the video
 * pipeline (`getVideoAspectRatio`). The inspection process itself is not
 * run: its exit code and the first stream's dimensions come in as a
 * `ProbeOutput`.
 */
module Orientation {
  import opened Wrappers

  datatype Orientation = Landscape | Portrait | Other

  /** The text the handler puts in front of the storage key. */
  function Name(o: Orientation): string {
    match o
    case Landscape => "landscape"
    case Portrait => "portrait"
    case Other => "other"
  }

  /** No orientation name contains the key separator `/`. */
  lemma NameHasNoSlash(o: Orientation)
    ensures '/' !in Name(o)
  {
  }

  /**
   * `Math.floor(x / d)` for a positive divisor: the largest q with
   * q * d <= x. Dafny's `/` is Euclidean, which for a positive divisor is
   * exactly this floor, negative x included.
   */
  function FloorDiv(x: int, d: int): (q: int)
    requires d > 0
    ensures q * d <= x < q * d + d
  {
    x / d
  }

  /** Landscape if both sides fall in the same 16:9 bucket, else portrait if in the same 9:16 bucket, else other. */
  function Classify(width: int, height: int): Orientation {
    if FloorDiv(width, 16) == FloorDiv(height, 9) then Landscape
    else if FloorDiv(width, 9) == FloorDiv(height, 16) then Portrait
    else Other
  }

  /** x lies in the q-th band of width d: [q * d, q * d + d). */
  predicate InBand(x: int, d: int, q: int) {
    q * d <= x < q * d + d
  }

  /** Width and height lie in bands of the same index, the width's bands a wide, the height's b wide. */
  ghost predicate SameBucket(width: int, height: int, a: int, b: int) {
    exists q :: InBand(width, a, q) && InBand(height, b, q)
  }

  /** A value lies in exactly one band: the one `FloorDiv` names. */
  lemma BandIsFloor(x: int, d: int, q: int)
    requires d > 0
    ensures InBand(x, d, q) <==> q == FloorDiv(x, d)
  {
    var f := FloorDiv(x, d);
    MulMonotone(q + 1, f, d);
    MulMonotone(f + 1, q, d);
  }

  lemma MulMonotone(x: int, y: int, d: int)
    requires d > 0
    ensures x <= y ==> x * d <= y * d
  {
    assert y * d - x * d == (y - x) * d;
  }

  lemma SameBucketIsFloor(width: int, height: int, a: int, b: int)
    requires a > 0 && b > 0
    ensures SameBucket(width, height, a, b) <==> FloorDiv(width, a) == FloorDiv(height, b)
  {
    var q := FloorDiv(width, a);
    BandIsFloor(width, a, q);
    BandIsFloor(height, b, q);
    if SameBucket(width, height, a, b) {
      var p :| InBand(width, a, p) && InBand(height, b, p);
      BandIsFloor(width, a, p);
      BandIsFloor(height, b, p);
    }
  }

  /**
   * The classification in terms of buckets: landscape exactly when the
   * 16:9 buckets agree, portrait exactly when they do not but the 9:16
   * buckets do, other exactly when neither does. The 16:9 test wins when
   * both hold.
   */
  lemma ClassifyByBuckets(width: int, height: int)
    ensures Classify(width, height) == Landscape <==> SameBucket(width, height, 16, 9)
    ensures Classify(width, height) == Portrait <==>
      !SameBucket(width, height, 16, 9) && SameBucket(width, height, 9, 16)
    ensures Classify(width, height) == Other <==>
      !SameBucket(width, height, 16, 9) && !SameBucket(width, height, 9, 16)
  {
    SameBucketIsFloor(width, height, 16, 9);
    SameBucketIsFloor(width, height, 9, 16);
  }

  /** An exact 16:9 frame is landscape at every size. */
  lemma ExactLandscape(k: int)
    ensures Classify(16 * k, 9 * k) == Landscape
  {
    assert InBand(16 * k, 16, k) && InBand(9 * k, 9, k);
    ClassifyByBuckets(16 * k, 9 * k);
  }

  /** An exact 9:16 frame of positive size is portrait: its 16:9 buckets never agree. */
  lemma ExactPortrait(k: int)
    requires k >= 1
    ensures Classify(9 * k, 16 * k) == Portrait
  {
    var w, h := 9 * k, 16 * k;
    var q1, q2 := FloorDiv(w, 16), FloorDiv(h, 9);
    // 16 * q1 <= 9k and 16k < 9 * q2 + 9 put q2 above q1 as soon as k >= 1.
    assert 144 * q1 <= 81 * k && 256 * k < 144 * q2 + 144;
    assert q1 < q2;
    assert InBand(w, 9, k) && InBand(h, 16, k);
    ClassifyByBuckets(w, h);
    SameBucketIsFloor(w, h, 16, 9);
  }

  lemma ClassifyExamples()
    ensures Classify(1920, 1080) == Landscape
    ensures Classify(1080, 1920) == Portrait
    ensures Classify(1000, 1000) == Other
    ensures Classify(3840, 2160) == Classify(1920, 1080)
    ensures Classify(8, 8) == Landscape
  {
  }

  // ---------------------------------------------------------------------
  // The prober
  // ---------------------------------------------------------------------

  /** A stream entry of the inspection output; a field is `None` when absent or null. */
  datatype StreamInfo = StreamInfo(width: Option<int>, height: Option<int>)

  /** What the inspection process reports: its exit code and its `streams` list. */
  datatype ProbeOutput = ProbeOutput(exitCode: int, streams: seq<StreamInfo>)

  datatype ProbeError =
    | ProcessFailed      // non-zero exit code
    | NoStream           // `streams[0]` is undefined and reading its width throws
    | MissingDimensions  // a dimension is absent or zero

  /** JavaScript truthiness of a JSON number field: absent, null and 0 are falsy. */
  predicate Truthy(x: Option<int>) {
    x.Some? && x.value != 0
  }

  /** `getVideoAspectRatio` once the process has exited. */
  function AspectRatio(p: ProbeOutput): Result<Orientation, ProbeError> {
    if p.exitCode != 0 then Failure(ProcessFailed)
    else if |p.streams| == 0 then Failure(NoStream)
    else
      var s := p.streams[0];
      if !Truthy(s.width) || !Truthy(s.height) then Failure(MissingDimensions)
      else Success(Classify(s.width.value, s.height.value))
  }

  /**
   * A probe succeeds exactly when the process exited with 0 and its first
   * stream has two non-zero dimensions, and then it yields their
   * classification; a non-zero exit fails before any stream is looked at.
   */
  lemma AspectRatioOutcome(p: ProbeOutput)
    ensures p.exitCode != 0 ==> AspectRatio(p) == Failure(ProcessFailed)
    ensures AspectRatio(p).Success? <==>
      p.exitCode == 0 && |p.streams| > 0 && Truthy(p.streams[0].width) && Truthy(p.streams[0].height)
    ensures AspectRatio(p).Success? ==>
      AspectRatio(p).value == Classify(p.streams[0].width.value, p.streams[0].height.value)
  {
  }
}
