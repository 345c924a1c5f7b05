/** The point capture pipeline (`processPointerEvent`, App.tsx:140-173):
    each coalesced pointer event is turned into a sample with a
    finite-difference speed and acceleration and appended to the path,
    unless its timestamp does not advance. */
module Capture {
  import opened Geometry

  /** One captured sample: time (ms), position (px), speed (m/s) and
      acceleration (m/s^2). */
  datatype Sample = Sample(t: real, x: real, y: real, v: real, a: real)

  /** A coalesced pointer event as delivered by the browser. */
  datatype PointerSample = PointerSample(timeStamp: real, clientX: real, clientY: real)

  function Position(s: Sample): Vec2
  {
    Vec2(s.x, s.y)
  }

  /** `event.timeStamp || now`: a zero timestamp is falsy. */
  function EventTime(e: PointerSample, now: real): real
  {
    if e.timeStamp == 0.0 then now else e.timeStamp
  }

  /** Elapsed seconds between two timestamps in ms. */
  function Seconds(from: real, to: real): real
  {
    (to - from) / 1000.0
  }

  /** Speed (m/s) from `last` to the pixel position (x, y) over `dt` seconds. */
  function Speed(last: Sample, x: real, y: real, dt: real, ppm: real, sqrt: real -> real): (v: real)
    requires dt > 0.0 && ppm != 0.0 && IsSqrt(sqrt)
    ensures v >= 0.0
  {
    Norm(sqrt, (x - last.x) / ppm, (y - last.y) / ppm) / dt
  }

  /** One iteration of the `forEach` body of App.tsx:149-172. */
  function Step(path: seq<Sample>, e: PointerSample, now: real, left: real, top: real,
                ppm: real, sqrt: real -> real): (r: seq<Sample>)
    requires ppm != 0.0 && IsSqrt(sqrt)
    ensures |path| <= |r| <= |path| + 1 && r[..|path|] == path
    ensures |r| == |path| + 1 <==> path == [] || EventTime(e, now) > path[|path| - 1].t
    ensures |r| == |path| + 1 ==>
              r[|path|].t == EventTime(e, now) && r[|path|].x == e.clientX - left && r[|path|].y == e.clientY - top
  {
    var t := EventTime(e, now);
    var x := e.clientX - left;
    var y := e.clientY - top;
    if |path| > 0 then
      var last := path[|path| - 1];
      var dt := Seconds(last.t, t);
      if dt > 0.0 then
        var instV := Speed(last, x, y, dt, ppm, sqrt);
        var instA := if |path| > 1 then (instV - last.v) / dt else 0.0;
        path + [Sample(t, x, y, instV, instA)]
      else
        path
    else
      [Sample(t, x, y, 0.0, 0.0)]
  }

  /** The path after ingesting all coalesced events of one pointer move,
      in order. */
  function IngestAll(path: seq<Sample>, events: seq<PointerSample>, now: real, left: real, top: real,
                     ppm: real, sqrt: real -> real): (r: seq<Sample>)
    requires ppm != 0.0 && IsSqrt(sqrt)
    ensures |path| <= |r| <= |path| + |events|
    ensures r[..|path|] == path
  {
    if events == [] then path
    else
      var prior := IngestAll(path, events[..|events| - 1], now, left, top, ppm, sqrt);
      var r := Step(prior, events[|events| - 1], now, left, top, ppm, sqrt);
      assert r[..|prior|] == prior;
      assert r[..|path|] == prior[..|path|];
      r
  }

  /** Sample `s` was taken from event `e`: its time and container-local
      position (App.tsx:150-152). */
  ghost predicate Records(s: Sample, e: PointerSample, now: real, left: real, top: real)
  {
    s.t == EventTime(e, now) && s.x == e.clientX - left && s.y == e.clientY - top
  }

  /** Every sample of `r` past `path` records one of `events`. */
  ghost predicate AllRecorded(path: seq<Sample>, r: seq<Sample>, events: seq<PointerSample>,
                              now: real, left: real, top: real)
  {
    forall k :: |path| <= k < |r| ==>
      exists j :: 0 <= j < |events| && Records(r[k], events[j], now, left, top)
  }

  /** Every sample a pointer move appends records one of its events. */
  lemma {:induction false} IngestRecordsEvents(path: seq<Sample>, events: seq<PointerSample>, now: real,
                                               left: real, top: real, ppm: real, sqrt: real -> real)
    requires ppm != 0.0 && IsSqrt(sqrt)
    ensures AllRecorded(path, IngestAll(path, events, now, left, top, ppm, sqrt), events, now, left, top)
  {
    if events != [] {
      var n := |events|;
      var init := events[..n - 1];
      IngestRecordsEvents(path, init, now, left, top, ppm, sqrt);
      var prior := IngestAll(path, init, now, left, top, ppm, sqrt);
      var r := IngestAll(path, events, now, left, top, ppm, sqrt);
      assert r == Step(prior, events[n - 1], now, left, top, ppm, sqrt);
      forall k | |path| <= k < |r|
        ensures exists j :: 0 <= j < n && Records(r[k], events[j], now, left, top)
      {
        if k < |prior| {
          assert r[k] == r[..|prior|][k] == prior[k];
          assert AllRecorded(path, prior, init, now, left, top);
          var j :| 0 <= j < |init| && Records(prior[k], init[j], now, left, top);
          assert init[j] == events[j];
        } else {
          assert Records(r[k], events[n - 1], now, left, top);
        }
      }
    }
  }

  /** Timestamps strictly increase along the path. */
  ghost predicate Increasing(p: seq<Sample>)
  {
    forall i, j :: 0 <= i < j < |p| ==> Earlier(p, i, j)
  }

  ghost predicate Earlier(p: seq<Sample>, i: nat, j: nat)
    requires i < |p| && j < |p|
  {
    p[i].t < p[j].t
  }

  /** `s` was derived from its predecessor `prev` by finite differences;
      `second` says that `s` is the second sample of the path, whose
      acceleration is 0. */
  ghost predicate FollowsFrom(prev: Sample, s: Sample, second: bool, ppm: real, sqrt: real -> real)
    requires ppm != 0.0 && IsSqrt(sqrt)
  {
    var dt := Seconds(prev.t, s.t);
    dt > 0.0 &&
    s.v == Speed(prev, s.x, s.y, dt, ppm, sqrt) &&
    s.a == (if second then 0.0 else (s.v - prev.v) / dt)
  }

  /** Sample i of p follows from sample i - 1. */
  ghost predicate FollowsAt(p: seq<Sample>, i: nat, ppm: real, sqrt: real -> real)
    requires 1 <= i < |p| && ppm != 0.0 && IsSqrt(sqrt)
  {
    FollowsFrom(p[i - 1], p[i], i == 1, ppm, sqrt)
  }

  /** The seed sample is at rest and every later sample follows from its
      predecessor. */
  ghost predicate FiniteDifferences(p: seq<Sample>, ppm: real, sqrt: real -> real)
    requires ppm != 0.0 && IsSqrt(sqrt)
  {
    (|p| > 0 ==> p[0].v == 0.0 && p[0].a == 0.0) &&
    forall i :: 1 <= i < |p| ==> FollowsAt(p, i, ppm, sqrt)
  }

  lemma StepKeeps(path: seq<Sample>, e: PointerSample, now: real, left: real, top: real,
                  ppm: real, sqrt: real -> real)
    requires ppm != 0.0 && IsSqrt(sqrt)
    requires Increasing(path) && FiniteDifferences(path, ppm, sqrt)
    ensures var r := Step(path, e, now, left, top, ppm, sqrt);
            Increasing(r) && FiniteDifferences(r, ppm, sqrt)
  {
    var r := Step(path, e, now, left, top, ppm, sqrt);
    if |r| == |path| + 1 && |path| > 0 {
      assert r[..|path|] == path;
      forall i | 1 <= i < |r|
        ensures FollowsAt(r, i, ppm, sqrt)
      {
        if i < |path| {
          assert FollowsAt(path, i, ppm, sqrt);
          assert r[i - 1] == path[i - 1] && r[i] == path[i];
        }
      }
      var n := |path|;
      forall i, j | 0 <= i < j < |r|
        ensures Earlier(r, i, j)
      {
        assert r[i] == path[i];
        if j < n {
          assert Earlier(path, i, j) && r[j] == path[j];
        } else if i < n - 1 {
          assert Earlier(path, i, n - 1) && r[n - 1] == path[n - 1];
        }
      }
    }
  }

  /** Ingestion keeps timestamps strictly increasing and every appended
      sample's speed and acceleration the finite differences of App.tsx:158-170. */
  lemma {:induction false} IngestKeeps(path: seq<Sample>, events: seq<PointerSample>, now: real,
                                       left: real, top: real, ppm: real, sqrt: real -> real)
    requires ppm != 0.0 && IsSqrt(sqrt)
    requires Increasing(path) && FiniteDifferences(path, ppm, sqrt)
    ensures var r := IngestAll(path, events, now, left, top, ppm, sqrt);
            Increasing(r) && FiniteDifferences(r, ppm, sqrt)
  {
    if events != [] {
      IngestKeeps(path, events[..|events| - 1], now, left, top, ppm, sqrt);
      StepKeeps(IngestAll(path, events[..|events| - 1], now, left, top, ppm, sqrt),
                events[|events| - 1], now, left, top, ppm, sqrt);
    }
  }

  /** What the finite-difference invariant says sample by sample: every
      speed is non-negative, the seed is at rest, the second sample has no
      acceleration, and later ones the change in speed over dt. */
  lemma FiniteDifferenceFacts(p: seq<Sample>, ppm: real, sqrt: real -> real)
    requires ppm != 0.0 && IsSqrt(sqrt)
    requires FiniteDifferences(p, ppm, sqrt)
    ensures forall i :: 0 <= i < |p| ==> p[i].v >= 0.0
    ensures |p| > 0 ==> p[0].v == 0.0 && p[0].a == 0.0
    ensures |p| > 1 ==> p[1].a == 0.0
    ensures forall i :: 2 <= i < |p| ==>
              (p[i].t > p[i - 1].t && p[i].a == (p[i].v - p[i - 1].v) / Seconds(p[i - 1].t, p[i].t))
  {
    forall i | 1 <= i < |p|
      ensures p[i].v >= 0.0 && p[i].t > p[i - 1].t
      ensures i == 1 ==> p[i].a == 0.0
      ensures i >= 2 ==> p[i].a == (p[i].v - p[i - 1].v) / Seconds(p[i - 1].t, p[i].t)
    {
      assert FollowsAt(p, i, ppm, sqrt);
    }
  }
}
