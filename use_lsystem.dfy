/**
 * The useLSystem hook of src/app/hooks/useLSystem.ts: generate and interpret
 * the sentence, shade each leaf and segment tip by the segments above it, and
 * summarise the tree in statistics.
 */
module UseLSystem {
  import opened Numeric
  import opened LSystem

  datatype Option<T> = None | Some(value: T)

  function GetOrElse<T>(o: Option<T>, fallback: T): T
  {
    match o
    case None => fallback
    case Some(v) => v
  }

  const DefaultMaxSegments: int := 3500
  const DefaultMaxSentence: int := 12000

  /** The occluder built from one segment: its ground-plane footprint, top and radius. */
  datatype Occluder = Occluder(ax: real, az: real, bx: real, bz: real, maxY: real, radius: real)

  function OccluderOf(s: Segment): Occluder
  {
    Occluder(s.start.x, s.start.z, s.end.x, s.end.z, Max(s.start.y, s.end.y), s.radius)
  }

  function Occluders(segments: seq<Segment>): (os: seq<Occluder>)
    ensures |os| == |segments| && forall i :: 0 <= i < |segments| ==> os[i] == OccluderOf(segments[i])
  {
    seq(|segments|, i requires 0 <= i < |segments| => OccluderOf(segments[i]))
  }

  // ---------------------------------------------------------------------------
  // Distance from a point to a segment in the ground plane
  // ---------------------------------------------------------------------------

  /**
   * The parameter of the point of segment a-b nearest to p: the projection of
   * a-p onto a-b clamped to [0, 1], or 0 for a degenerate segment.
   */
  function Projection(px: real, pz: real, ax: real, az: real, bx: real, bz: real): (t: real)
    ensures 0.0 <= t <= 1.0
  {
    var abx := bx - ax;
    var abz := bz - az;
    var denom := abx * abx + abz * abz;
    if denom == 0.0 then 0.0 else Max(0.0, Min(1.0, ((px - ax) * abx + (pz - az) * abz) / denom))
  }

  /** Squared distance from p to the point of segment a-b at parameter t. */
  function DistanceSqAt(px: real, pz: real, ax: real, az: real, bx: real, bz: real, t: real): (d: real)
    ensures d >= 0.0
  {
    var dx := px - (ax + (bx - ax) * t);
    var dz := pz - (az + (bz - az) * t);
    dx * dx + dz * dz
  }

  /** Squared form of distanceToSegment2D (the square root is left out). */
  function DistanceSq(px: real, pz: real, ax: real, az: real, bx: real, bz: real): real
  {
    DistanceSqAt(px, pz, ax, az, bx, bz, Projection(px, pz, ax, az, bx, bz))
  }

  /** A degenerate segment (a == b) measures the distance to its start point. */
  lemma DegenerateSegmentMeasuresStart(px: real, pz: real, ax: real, az: real)
    ensures DistanceSq(px, pz, ax, az, ax, az) == (px - ax) * (px - ax) + (pz - az) * (pz - az)
  {
    assert Projection(px, pz, ax, az, ax, az) == 0.0;
  }

  /**
   * `Math.sqrt(d2) < r`, stated without the square root: for d2 >= 0 the root is
   * below r exactly when r is positive and d2 < r * r.
   */
  predicate RootBelow(d2: real, r: real)
  {
    r > 0.0 && d2 < r * r
  }

  // ---------------------------------------------------------------------------
  // Exposure
  // ---------------------------------------------------------------------------

  /** An occluder shades p when its top is more than 0.02 above p and p is within 1.2 radii of it. */
  predicate Shades(o: Occluder, p: Vec3)
  {
    !(o.maxY <= p.y + 0.02) && RootBelow(DistanceSq(p.x, p.z, o.ax, o.az, o.bx, o.bz), o.radius * 1.2)
  }

  /** The exposure of a point: 0.15 in the shade of any occluder, else full light. */
  ghost function Exposure(p: Vec3, occluders: seq<Occluder>): real
  {
    if exists k :: 0 <= k < |occluders| && Shades(occluders[k], p) then 0.15 else 1.0
  }

  /** computeExposure: scan the occluders and stop at the first that shades the point. */
  method ComputeExposure(point: Vec3, occluders: seq<Occluder>) returns (exposure: real)
    ensures exposure == Exposure(point, occluders)
  {
    var k := 0;
    while k < |occluders|
      invariant 0 <= k <= |occluders|
      invariant forall j :: 0 <= j < k ==> !Shades(occluders[j], point)
    {
      var segment := occluders[k];
      k := k + 1;
      if segment.maxY <= point.y + 0.02 {
        continue;
      }
      var distanceSq := DistanceSq(point.x, point.z, segment.ax, segment.az, segment.bx, segment.bz);
      if RootBelow(distanceSq, segment.radius * 1.2) {
        return 0.15;
      }
    }
    return 1.0;
  }

  /** Occluders whose top is no more than 0.02 above the point are skipped: with no higher one, full light. */
  lemma NoHigherOccluderFullLight(p: Vec3, occluders: seq<Occluder>)
    requires forall k :: 0 <= k < |occluders| ==> occluders[k].maxY <= p.y + 0.02
    ensures Exposure(p, occluders) == 1.0
  {
  }

  ghost function ExposedLeaves(leaves: seq<Leaf>, occluders: seq<Occluder>): (r: seq<Leaf>)
    ensures |r| == |leaves|
  {
    seq(|leaves|, i requires 0 <= i < |leaves| => leaves[i].(exposure := Exposure(leaves[i].position, occluders)))
  }

  ghost function ExposedSegments(segments: seq<Segment>, occluders: seq<Occluder>): (r: seq<Segment>)
    ensures |r| == |segments|
  {
    seq(|segments|, i requires 0 <= i < |segments| => segments[i].(exposure := Exposure(segments[i].end, occluders)))
  }

  /** The sum of the leaves' exposures. */
  function ExposureSum(leaves: seq<Leaf>): real
  {
    if |leaves| == 0 then 0.0 else ExposureSum(leaves[..|leaves| - 1]) + leaves[|leaves| - 1].exposure
  }

  /** The leaf loop: set each leaf's exposure in place and add it up. */
  method ShadeLeaves(leaves: array<Leaf>, occluders: seq<Occluder>) returns (exposureSum: real)
    modifies leaves
    ensures leaves[..] == ExposedLeaves(old(leaves[..]), occluders)
    ensures exposureSum == ExposureSum(leaves[..])
  {
    exposureSum := 0.0;
    for i := 0 to leaves.Length
      invariant forall j :: 0 <= j < i ==> leaves[j] == old(leaves[j]).(exposure := Exposure(old(leaves[j]).position, occluders))
      invariant forall j :: i <= j < leaves.Length ==> leaves[j] == old(leaves[j])
      invariant exposureSum == ExposureSum(leaves[..i])
    {
      var exposure := ComputeExposure(leaves[i].position, occluders);
      leaves[i] := leaves[i].(exposure := exposure);
      assert leaves[..i + 1][..i] == leaves[..i];
      exposureSum := exposureSum + exposure;
    }
    assert leaves[..leaves.Length] == leaves[..];
  }

  /** The segment loop: set each segment's exposure from the light at its tip. */
  method ShadeSegments(segments: array<Segment>, occluders: seq<Occluder>)
    modifies segments
    ensures segments[..] == ExposedSegments(old(segments[..]), occluders)
  {
    for i := 0 to segments.Length
      invariant forall j :: 0 <= j < i ==> segments[j] == old(segments[j]).(exposure := Exposure(old(segments[j]).end, occluders))
      invariant forall j :: i <= j < segments.Length ==> segments[j] == old(segments[j])
    {
      var exposure := ComputeExposure(segments[i].end, occluders);
      segments[i] := segments[i].(exposure := exposure);
    }
  }

  // ---------------------------------------------------------------------------
  // Statistics
  // ---------------------------------------------------------------------------

  datatype Stats = Stats(
    leafCount: nat,
    avgExposure: real,
    totalVolume: real,
    rootDepth: real,
    maxHeight: real,
    segmentCount: nat,
    sentenceLength: nat,
    suggestedAngle: real,
    center: Vec3)

  /** The sum of radius^2 * length over the segments; the total volume is pi times this. */
  function CylinderSum(segments: seq<Segment>): real
  {
    if |segments| == 0 then 0.0
    else CylinderSum(segments[..|segments| - 1])
         + segments[|segments| - 1].radius * segments[|segments| - 1].radius * segments[|segments| - 1].length
  }

  /** The mean leaf exposure, 1 for a tree without leaves. */
  function AverageExposure(leaves: seq<Leaf>): real
  {
    if |leaves| > 0 then ExposureSum(leaves) / |leaves| as real else 1.0
  }

  /** The branching angle the shade suggests: 20 + 55 (1 - mean exposure), kept in [10, 85]. */
  function SuggestedAngle(avgExposure: real): real
  {
    Min(85.0, Max(10.0, 20.0 + (1.0 - avgExposure) * 55.0))
  }

  /** The statistics of a shaded tree. `pi` is the value of Math.PI. */
  function StatsOf(sentence: string, segments: seq<Segment>, leaves: seq<Leaf>, bounds: Bounds, pi: real): Stats
  {
    var avg := AverageExposure(leaves);
    Stats(|leaves|, avg, pi * CylinderSum(segments), Max(0.5, Abs(bounds.min.y)), bounds.max.y,
          |segments|, |sentence|, SuggestedAngle(avg), bounds.center)
  }

  predicate ExposureIsLightOrShade(e: real) { e == 0.15 || e == 1.0 }

  lemma {:induction false} ExposureSumBounds(leaves: seq<Leaf>)
    requires forall i :: 0 <= i < |leaves| ==> ExposureIsLightOrShade(leaves[i].exposure)
    ensures 0.15 * |leaves| as real <= ExposureSum(leaves) <= |leaves| as real
  {
    if |leaves| > 0 {
      ExposureSumBounds(leaves[..|leaves| - 1]);
    }
  }

  lemma {:induction false} CylinderSumNonNegative(segments: seq<Segment>)
    requires forall i :: 0 <= i < |segments| ==> segments[i].length >= 0.0
    ensures CylinderSum(segments) >= 0.0
  {
    if |segments| > 0 {
      CylinderSumNonNegative(segments[..|segments| - 1]);
      var s := segments[|segments| - 1];
      assert s.radius * s.radius >= 0.0;
      assert s.radius * s.radius * s.length >= 0.0 by { NonNegativeProduct(s.radius * s.radius, s.length); }
    }
  }

  /** lo * n <= sum <= hi * n bounds the mean sum / n by lo and hi. */
  lemma QuotientBounds(sum: real, n: real, lo: real, hi: real)
    requires n > 0.0 && lo * n <= sum <= hi * n
    ensures lo <= sum / n <= hi
  {
    assert sum / n - lo == (sum - lo * n) / n;
    assert hi - sum / n == (hi * n - sum) / n;
    NonNegativeQuotient(sum - lo * n, n);
    NonNegativeQuotient(hi * n - sum, n);
  }

  lemma NonNegativeQuotient(a: real, n: real)
    requires a >= 0.0 && n > 0.0
    ensures a / n >= 0.0
  {
  }

  lemma NonNegativeProduct(a: real, b: real)
    requires a >= 0.0 && b >= 0.0
    ensures a * b >= 0.0
  {
  }

  /**
   * With every exposure 0.15 or 1, the mean exposure lies in [0.15, 1], so the
   * suggested angle lies in [20, 66.75] and neither clamp ever applies; the root
   * depth is at least 0.5, and the volume is non-negative.
   */
  lemma StatsBounds(sentence: string, segments: seq<Segment>, leaves: seq<Leaf>, bounds: Bounds, pi: real)
    requires forall i :: 0 <= i < |leaves| ==> ExposureIsLightOrShade(leaves[i].exposure)
    requires forall i :: 0 <= i < |segments| ==> segments[i].length >= 0.0
    requires pi >= 0.0
    ensures var st := StatsOf(sentence, segments, leaves, bounds, pi);
            && 0.15 <= st.avgExposure <= 1.0
            && 20.0 <= st.suggestedAngle <= 66.75
            && st.suggestedAngle == 20.0 + (1.0 - st.avgExposure) * 55.0
            && st.rootDepth >= 0.5
            && st.totalVolume >= 0.0
  {
    if |leaves| > 0 {
      ExposureSumBounds(leaves);
      var n := |leaves| as real;
      var sum := ExposureSum(leaves);
      QuotientBounds(sum, n, 0.15, 1.0);
    }
    CylinderSumNonNegative(segments);
    NonNegativeProduct(pi, CylinderSum(segments));
  }

  /** A tree without leaves has mean exposure 1 and so the suggested angle 20. */
  lemma NoLeavesFullExposure(sentence: string, segments: seq<Segment>, bounds: Bounds, pi: real)
    ensures StatsOf(sentence, segments, [], bounds, pi).avgExposure == 1.0
    ensures StatsOf(sentence, segments, [], bounds, pi).suggestedAngle == 20.0
  {
  }

  /** Each shaded exposure is 0.15 or 1. */
  lemma ExposedLeavesAreLightOrShade(leaves: seq<Leaf>, occluders: seq<Occluder>)
    ensures forall i :: 0 <= i < |leaves| ==> ExposureIsLightOrShade(ExposedLeaves(leaves, occluders)[i].exposure)
  {
  }

  // ---------------------------------------------------------------------------
  // The hook
  // ---------------------------------------------------------------------------

  /** The hook's configuration; the two caps are optional. */
  datatype Config = Config(
    axiom: string,
    rules: Rules,
    iterations: int,
    angle: real,
    step: real,
    width: real,
    enablePitch: bool,
    enableRoll: bool,
    maxSegments: Option<int>,
    maxSentenceLength: Option<int>)

  function MaxSentenceOf(config: Config): int
  {
    GetOrElse(config.maxSentenceLength, DefaultMaxSentence)
  }

  /** The turtle configuration interpretSentence receives; a missing segment cap means 3500. */
  function TurtleConfigOf(config: Config): (cfg: TurtleConfig)
    ensures config.maxSegments.None? ==> cfg.maxSegments == DefaultMaxSegments
  {
    TurtleConfig(config.angle, config.step, config.width, config.enablePitch, config.enableRoll,
                 GetOrElse(config.maxSegments, DefaultMaxSegments))
  }

  datatype HookResult = HookResult(sentence: string, segments: seq<Segment>, leaves: seq<Leaf>, stats: Stats)

  /**
   * The body of useLSystem (the memoisation is left out). `heading` gives the
   * turtle's unit heading for a rotation and `pi` is Math.PI.
   */
  method Compute(config: Config, heading: Heading, pi: real) returns (result: HookResult)
    ensures result.sentence == Generate(config.rules, config.axiom, config.iterations, MaxSentenceOf(config))
    ensures var r := Interpret(TurtleConfigOf(config), heading, result.sentence);
            var occluders := Occluders(r.segments);
            && result.segments == ExposedSegments(r.segments, occluders)
            && result.leaves == ExposedLeaves(r.leaves, occluders)
            && result.stats == StatsOf(result.sentence, result.segments, result.leaves, r.bounds, pi)
  {
    var sentence := GenerateSentence(config.axiom, config.rules, config.iterations, MaxSentenceOf(config));
    var interpretation := InterpretSentence(sentence, TurtleConfigOf(config), heading);
    var occluders := Occluders(interpretation.segments);
    var leaves := new Leaf[|interpretation.leaves|](i requires 0 <= i < |interpretation.leaves| => interpretation.leaves[i]);
    var segments := new Segment[|interpretation.segments|](i requires 0 <= i < |interpretation.segments| => interpretation.segments[i]);
    assert leaves[..] == interpretation.leaves;
    assert segments[..] == interpretation.segments;
    var exposureSum := ShadeLeaves(leaves, occluders);
    ShadeSegments(segments, occluders);
    assert leaves[..] == ExposedLeaves(interpretation.leaves, occluders);
    var stats := Summarise(sentence, segments, leaves, exposureSum, interpretation.bounds, pi);
    result := HookResult(sentence, segments[..], leaves[..], stats);
  }

  /** The statistics the hook derives from the shaded arrays and the running exposure sum. */
  method Summarise(sentence: string, segments: array<Segment>, leaves: array<Leaf>, exposureSum: real,
                   bounds: Bounds, pi: real) returns (stats: Stats)
    requires exposureSum == ExposureSum(leaves[..])
    ensures stats == StatsOf(sentence, segments[..], leaves[..], bounds, pi)
  {
    var leafCount := leaves.Length;
    var avgExposure := if leafCount > 0 then exposureSum / leafCount as real else 1.0;
    var rootDepth := Max(0.5, Abs(bounds.min.y));
    var maxHeight := bounds.max.y;
    var suggestedAngle := Min(85.0, Max(10.0, 20.0 + (1.0 - avgExposure) * 55.0));
    var totalVolume := pi * CylinderSum(segments[..]);
    stats := Stats(leafCount, avgExposure, totalVolume, rootDepth, maxHeight, segments.Length, |sentence|,
                   suggestedAngle, bounds.center);
  }

  /**
   * What the hook promises about its statistics: the counts match the lists, the
   * mean exposure lies in [0.15, 1], the suggested angle in [20, 66.75], the root
   * depth is at least 0.5, the tree reaches no lower than its lowest point and
   * the maximum height is at least 0 (the bounds hold the origin).
   */
  lemma HookStats(config: Config, heading: Heading, pi: real, result: HookResult)
    requires pi >= 0.0
    requires result.sentence == Generate(config.rules, config.axiom, config.iterations, MaxSentenceOf(config))
    requires var r := Interpret(TurtleConfigOf(config), heading, result.sentence);
             var occluders := Occluders(r.segments);
             && result.segments == ExposedSegments(r.segments, occluders)
             && result.leaves == ExposedLeaves(r.leaves, occluders)
             && result.stats == StatsOf(result.sentence, result.segments, result.leaves, r.bounds, pi)
    ensures result.stats.leafCount == |result.leaves| && result.stats.segmentCount == |result.segments|
    ensures result.stats.sentenceLength == |result.sentence|
    ensures 0.15 <= result.stats.avgExposure <= 1.0
    ensures 20.0 <= result.stats.suggestedAngle <= 66.75
    ensures result.stats.rootDepth >= 0.5 && result.stats.maxHeight >= 0.0 && result.stats.totalVolume >= 0.0
  {
    var cfg := TurtleConfigOf(config);
    var r := Interpret(cfg, heading, result.sentence);
    InterpretBoundsEnclose(cfg, heading, result.sentence);
    ExposedLeavesAreLightOrShade(r.leaves, Occluders(r.segments));
    assert forall i :: 0 <= i < |result.segments| ==> result.segments[i].length == r.segments[i].length;
    StatsBounds(result.sentence, result.segments, result.leaves, r.bounds, pi);
  }
}
