/** Session calibration (App.tsx:63-93): the measurement overhead that is
    subtracted from every reaction time, and the pixels-per-metre ratio.
    `performance.now()` is replaced by the sequence of clock readings the
    calibration loop would take, in order. */
module Calibration {

  /** Number of timed workloads. */
  const Runs: nat := 50
  /** Input-pipeline lag added on touch devices and on desktops (ms). */
  const MobileLag: real := 8.0
  const DesktopLag: real := 4.0
  /** Base pixel density and the length of an inch in metres. */
  const BasePpi: real := 160.0
  const InchInMeters: real := 0.0254

  /** `samples.reduce((a, b) => a + b, 0)`. */
  function Sum(xs: seq<real>): real
  {
    if xs == [] then 0.0 else Sum(xs[..|xs| - 1]) + xs[|xs| - 1]
  }

  lemma {:induction false} SumNonNegative(xs: seq<real>)
    requires forall i :: 0 <= i < |xs| ==> xs[i] >= 0.0
    ensures Sum(xs) >= 0.0
  {
    if xs != [] {
      SumNonNegative(xs[..|xs| - 1]);
    }
  }

  function PlatformLag(isMobile: bool): real
  {
    if isMobile then MobileLag else DesktopLag
  }

  /** The duration of each timed run: reading 2i is taken before run i,
      reading 2i + 1 after it. */
  function Durations(clock: seq<real>): (ds: seq<real>)
    requires |clock| % 2 == 0
    ensures |ds| == |clock| / 2
  {
    if clock == [] then []
    else Durations(clock[..|clock| - 2]) + [clock[|clock| - 1] - clock[|clock| - 2]]
  }

  lemma {:induction false} DurationAt(clock: seq<real>, i: nat)
    requires |clock| % 2 == 0 && i < |clock| / 2
    ensures Durations(clock)[i] == clock[2 * i + 1] - clock[2 * i]
  {
    if i < |clock| / 2 - 1 {
      DurationAt(clock[..|clock| - 2], i);
    }
  }

  /** The session overhead: the mean run duration plus the platform lag. */
  function Overhead(samples: seq<real>, isMobile: bool): real
    requires |samples| > 0
  {
    Sum(samples) / (|samples| as real) + PlatformLag(isMobile)
  }

  /** With a clock that never runs backwards every duration is non-negative,
      so the overhead is at least the platform lag, and at least 4 ms. */
  lemma OverheadAtLeastLag(clock: seq<real>, isMobile: bool)
    requires |clock| == 2 * Runs
    requires forall i, j :: 0 <= i <= j < |clock| ==> clock[i] <= clock[j]
    ensures Overhead(Durations(clock), isMobile) >= PlatformLag(isMobile) >= DesktopLag
  {
    var ds := Durations(clock);
    forall i | 0 <= i < |ds|
      ensures ds[i] >= 0.0
    {
      DurationAt(clock, i);
      assert clock[2 * i] <= clock[2 * i + 1];
    }
    SumNonNegative(ds);
    QuotientNonNegative(Sum(ds), |ds| as real);
  }

  lemma QuotientNonNegative(a: real, n: real)
    requires a >= 0.0 && n > 0.0
    ensures a / n >= 0.0
  {
  }

  /** The calibration loop of App.tsx:65-78: times fifty runs, averages
      them and adds the platform lag. */
  method RunCalibration(clock: seq<real>, isMobile: bool) returns (overhead: real)
    requires |clock| == 2 * Runs
    ensures overhead == Overhead(Durations(clock), isMobile)
  {
    var samples: seq<real> := [];
    var i := 0;
    while i < Runs
      invariant 0 <= i <= Runs
      invariant samples == Durations(clock[..2 * i])
    {
      var t0 := clock[2 * i];
      var t1 := clock[2 * i + 1];
      ghost var next := clock[..2 * i + 2];
      assert next[..|next| - 2] == clock[..2 * i];
      assert Durations(next) == Durations(clock[..2 * i]) + [t1 - t0];
      samples := samples + [t1 - t0];
      i := i + 1;
    }
    assert clock[..2 * Runs] == clock;
    var avgOverhead := Sum(samples) / (|samples| as real);
    overhead := avgOverhead + PlatformLag(isMobile);
  }

  /** `getPPM`: `160 * (devicePixelRatio || 1) / 0.0254`; a ratio of 0 is
      falsy and falls back to 1. */
  function PixelsPerMeter(dpr: real): (ppm: real)
    ensures dpr != 0.0 ==> ppm * InchInMeters == BasePpi * dpr
    ensures dpr == 0.0 ==> ppm * InchInMeters == BasePpi
    ensures dpr >= 0.0 ==> ppm > 0.0
    ensures ppm != 0.0
  {
    BasePpi * (if dpr == 0.0 then 1.0 else dpr) / InchInMeters
  }
}
