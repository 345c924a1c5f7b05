/** The metrics analyser (`analyzeResults`, App.tsx:250-299): onset
    detection, reaction and travel time with their 1 ms floors, peak speed
    and acceleration, endpoint accuracy, path efficiency and tier. */
module Metrics {
  import opened Geometry
  import opened Options
  import opened Capture
  import Placement

  /** Displacement from the first sample that counts as movement (m). */
  const MovementThreshold: real := 0.002
  /** Peak speed above which a trial is rated elite (m/s). */
  const EliteSpeed: real := 1.5
  /** Floor applied to both reaction and travel time (ms). */
  const MinTime: real := 1.0

  datatype Tier = EliteTwitch | Standard

  datatype Results = Results(
    reactionTime: real,
    travelTime: real,
    peakV: real,
    peakA: real,
    tier: Tier,
    accuracy: real,        // mm
    pathEfficiency: real)  // percent

  /** Physical displacement (m) of sample i from the first sample. */
  function Displacement(p: seq<Sample>, i: nat, ppm: real, sqrt: real -> real): real
    requires i < |p| && ppm != 0.0 && IsSqrt(sqrt)
  {
    Norm(sqrt, (p[i].x - p[0].x) / ppm, (p[i].y - p[0].y) / ppm)
  }

  /** The onset test of App.tsx:262. */
  predicate Moved(p: seq<Sample>, i: nat, ppm: real, sqrt: real -> real)
    requires i < |p| && ppm != 0.0 && IsSqrt(sqrt)
  {
    Displacement(p, i, ppm, sqrt) > MovementThreshold
  }

  /** The onset test reads as a comparison of squared distances: moved
      exactly when dx² + dy² exceeds the squared threshold, in metres. */
  lemma MovedIff(p: seq<Sample>, i: nat, ppm: real, sqrt: real -> real)
    requires i < |p| && ppm != 0.0 && IsSqrt(sqrt)
    ensures var dx, dy := (p[i].x - p[0].x) / ppm, (p[i].y - p[0].y) / ppm;
            Moved(p, i, ppm, sqrt) <==> dx * dx + dy * dy > MovementThreshold * MovementThreshold
  {
    NormExceedsIff(sqrt, (p[i].x - p[0].x) / ppm, (p[i].y - p[0].y) / ppm, MovementThreshold);
  }

  /** The first index at or after i that has moved, or 0 when none has. */
  function OnsetFrom(p: seq<Sample>, i: nat, ppm: real, sqrt: real -> real): (k: nat)
    requires i <= |p| && ppm != 0.0 && IsSqrt(sqrt)
    decreases |p| - i
    ensures (i <= k < |p| && Moved(p, k, ppm, sqrt)) ||
            (k == 0 && forall j :: i <= j < |p| ==> !Moved(p, j, ppm, sqrt))
    ensures forall j :: i <= j < k ==> !Moved(p, j, ppm, sqrt)
  {
    if i == |p| then 0
    else if Moved(p, i, ppm, sqrt) then i
    else OnsetFrom(p, i + 1, ppm, sqrt)
  }

  /** The onset index: the first sample farther than the movement threshold
      from the first sample; every earlier one is within it; 0 when no
      sample qualifies. */
  function OnsetIndex(p: seq<Sample>, ppm: real, sqrt: real -> real): (k: nat)
    requires |p| > 0 && ppm != 0.0 && IsSqrt(sqrt)
    ensures k < |p|
    ensures forall j :: 0 <= j < k ==> !Moved(p, j, ppm, sqrt)
    ensures Moved(p, k, ppm, sqrt) || (k == 0 && forall j :: 0 <= j < |p| ==> !Moved(p, j, ppm, sqrt))
  {
    OnsetFrom(p, 0, ppm, sqrt)
  }

  /** The onset conditions determine the index: any k that moved after
      only unmoved samples is the onset index. */
  lemma OnsetUnique(p: seq<Sample>, k: nat, ppm: real, sqrt: real -> real)
    requires |p| > 0 && ppm != 0.0 && IsSqrt(sqrt)
    requires k < |p| && Moved(p, k, ppm, sqrt)
    requires forall j :: 0 <= j < k ==> !Moved(p, j, ppm, sqrt)
    ensures OnsetIndex(p, ppm, sqrt) == k
  {
  }

  /** `max(1, (onset.t - goTime) - overhead)`. */
  function ReactionTime(onsetT: real, goTime: real, overhead: real): (r: real)
    ensures r >= MinTime
    ensures r >= onsetT - goTime - overhead
    ensures r == MinTime || r == onsetT - goTime - overhead
  {
    Max(MinTime, (onsetT - goTime) - overhead)
  }

  /** `max(1, (last.t - onset.t) - overhead / 4)`: a quarter of the
      correction applies to travel. */
  function TravelTime(onsetT: real, lastT: real, overhead: real): (r: real)
    ensures r >= MinTime
    ensures r >= lastT - onsetT - overhead / 4.0
    ensures r == MinTime || r == lastT - onsetT - overhead / 4.0
  {
    Max(MinTime, (lastT - onsetT) - overhead / 4.0)
  }

  /** A worked example: 6 ms overhead, onset 140 ms and last sample 340 ms
      after the stimulus give 134 ms reaction and 198.5 ms travel. */
  lemma TimingExample(goTime: real)
    ensures ReactionTime(goTime + 140.0, goTime, 6.0) == 134.0
    ensures TravelTime(goTime + 140.0, goTime + 340.0, 6.0) == 198.5
  {
  }

  /** `Math.max(...xs)` of a non-empty list: an element, and no element
      exceeds it. */
  function Peak(xs: seq<real>): (m: real)
    requires |xs| > 0
    ensures exists i :: 0 <= i < |xs| && xs[i] == m
    ensures forall i :: 0 <= i < |xs| ==> xs[i] <= m
  {
    if |xs| == 1 then xs[0]
    else
      var rest := Peak(xs[..|xs| - 1]);
      assert forall i :: 0 <= i < |xs| - 1 ==> xs[..|xs| - 1][i] == xs[i];
      Max(rest, xs[|xs| - 1])
  }

  function Speeds(p: seq<Sample>): (vs: seq<real>)
    ensures |vs| == |p| && forall i :: 0 <= i < |p| ==> vs[i] == p[i].v
  {
    seq(|p|, i requires 0 <= i < |p| => p[i].v)
  }

  function Accelerations(p: seq<Sample>): (as_: seq<real>)
    ensures |as_| == |p| && forall i :: 0 <= i < |p| ==> as_[i] == p[i].a
  {
    seq(|p|, i requires 0 <= i < |p| => p[i].a)
  }

  /** Summed length (px) of the segments between consecutive samples. */
  function PathLength(p: seq<Sample>, sqrt: real -> real): (len: real)
    requires IsSqrt(sqrt)
    ensures len >= 0.0
  {
    if |p| < 2 then 0.0
    else PathLength(p[..|p| - 1], sqrt) + Dist(sqrt, Position(p[|p| - 1]), Position(p[|p| - 2]))
  }

  /** `actual > 0 ? min(100, ideal / actual * 100) : 0`. */
  function PathEfficiency(ideal: real, actual: real): (e: real)
    ensures ideal >= 0.0 ==> 0.0 <= e <= 100.0
    ensures actual <= 0.0 ==> e == 0.0
    ensures e == 100.0 <==> actual > 0.0 && ideal >= actual
  {
    if actual > 0.0 then Min(100.0, (ideal / actual) * 100.0) else 0.0
  }

  /** Distance (mm) from the final sample to the target. */
  function Accuracy(last: Sample, b: Vec2, ppm: real, sqrt: real -> real): (mm: real)
    requires ppm > 0.0 && IsSqrt(sqrt)
    ensures mm >= 0.0
  {
    (Dist(sqrt, Position(last), b) / ppm) * 1000.0
  }

  function TierOf(peakV: real): (tier: Tier)
    ensures tier == EliteTwitch <==> peakV > EliteSpeed
  {
    if peakV > EliteSpeed then EliteTwitch else Standard
  }

  /** The analyser as a function of the frozen path: no result below three
      samples; otherwise both times are at least 1 ms, the efficiency is a
      percentage, the peaks bound every sample and are attained, the
      accuracy is non-negative and the tier is elite exactly above 1.5 m/s. */
  function Analyze(path: seq<Sample>, anchors: Placement.Anchors, goTime: real, overhead: real,
                   ppm: real, sqrt: real -> real): (r: Option<Results>)
    requires ppm > 0.0 && IsSqrt(sqrt)
    ensures r.None? <==> |path| < 3
    ensures r.Some? ==>
              r.value.reactionTime >= MinTime && r.value.travelTime >= MinTime &&
              0.0 <= r.value.pathEfficiency <= 100.0 && r.value.accuracy >= 0.0 &&
              (r.value.tier == EliteTwitch <==> r.value.peakV > EliteSpeed)
    ensures r.Some? ==> forall i :: 0 <= i < |path| ==> path[i].v <= r.value.peakV && path[i].a <= r.value.peakA
    ensures r.Some? ==> (exists i :: 0 <= i < |path| && path[i].v == r.value.peakV) &&
                        (exists i :: 0 <= i < |path| && path[i].a == r.value.peakA)
    ensures r.Some? && path[0].v == 0.0 && path[0].a == 0.0 ==> r.value.peakV >= 0.0 && r.value.peakA >= 0.0
  {
    if |path| < 3 then None
    else
      var onset := OnsetIndex(path, ppm, sqrt);
      var lastPoint := path[|path| - 1];
      var peakV := Peak(Speeds(path));
      var peakA := Peak(Accelerations(path));
      var ideal := Dist(sqrt, anchors.b, anchors.a);
      Some(Results(
        ReactionTime(path[onset].t, goTime, overhead),
        TravelTime(path[onset].t, lastPoint.t, overhead),
        peakV,
        peakA,
        TierOf(peakV),
        Accuracy(lastPoint, anchors.b, ppm, sqrt),
        PathEfficiency(ideal, PathLength(path, sqrt))))
  }

  /** The onset scan of App.tsx:255-266: stops at the first moved sample. */
  method FindOnset(data: seq<Sample>, ppm: real, sqrt: real -> real) returns (onsetIdx: nat)
    requires |data| > 0 && ppm != 0.0 && IsSqrt(sqrt)
    ensures onsetIdx == OnsetIndex(data, ppm, sqrt)
  {
    onsetIdx := 0;
    var startPoint := data[0];
    var i := 0;
    while i < |data|
      invariant 0 <= i <= |data|
      invariant onsetIdx == 0
      invariant forall j :: 0 <= j < i ==> !Moved(data, j, ppm, sqrt)
    {
      var dx := (data[i].x - startPoint.x) / ppm;
      var dy := (data[i].y - startPoint.y) / ppm;
      if Norm(sqrt, dx, dy) > MovementThreshold {
        OnsetUnique(data, i, ppm, sqrt);
        onsetIdx := i;
        return;
      }
      i := i + 1;
    }
  }

  /** The running sum of segment lengths of App.tsx:281-284. */
  method MeasurePath(data: seq<Sample>, sqrt: real -> real) returns (actualDistPx: real)
    requires IsSqrt(sqrt)
    ensures actualDistPx == PathLength(data, sqrt)
  {
    actualDistPx := 0.0;
    if |data| < 2 {
      return;
    }
    var i := 1;
    while i < |data|
      invariant 1 <= i <= |data|
      invariant actualDistPx == PathLength(data[..i], sqrt)
    {
      assert data[..i + 1][..i] == data[..i];
      actualDistPx := actualDistPx + Dist(sqrt, Position(data[i]), Position(data[i - 1]));
      i := i + 1;
    }
    assert data[..|data|] == data;
  }

  /** `analyzeResults`: nothing below three samples, otherwise the fresh
      results record. */
  method AnalyzeResults(data: seq<Sample>, anchors: Placement.Anchors, goTime: real, overhead: real,
                        ppm: real, sqrt: real -> real) returns (r: Option<Results>)
    requires ppm > 0.0 && IsSqrt(sqrt)
    ensures r == Analyze(data, anchors, goTime, overhead, ppm, sqrt)
  {
    if |data| < 3 {
      return None;
    }
    var onsetIdx := FindOnset(data, ppm, sqrt);
    var lastPoint := data[|data| - 1];
    var reactionTime := ReactionTime(data[onsetIdx].t, goTime, overhead);
    var travelTime := TravelTime(data[onsetIdx].t, lastPoint.t, overhead);
    var peakV := Peak(Speeds(data));
    var peakA := Peak(Accelerations(data));
    var accuracyMm := Accuracy(lastPoint, anchors.b, ppm, sqrt);
    var idealDistPx := Dist(sqrt, anchors.b, anchors.a);
    var actualDistPx := MeasurePath(data, sqrt);
    var pathEfficiency := PathEfficiency(idealDistPx, actualDistPx);
    r := Some(Results(reactionTime, travelTime, peakV, peakA, TierOf(peakV), accuracyMm, pathEfficiency));
  }
}
