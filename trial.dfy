/** The trial state machine and replay clock of the `App` component
    (App.tsx:37-61, 175-211, 301-366, 376-423). React state and refs are
    the fields of one object; each event handler is a method. Clocks,
    random draws, the viewport size and the random directions arrive as
    parameters; timer expiry and animation frames are methods the
    environment calls. */
module Trial {
  import opened Geometry
  import opened Options
  import opened Capture
  import Calibration
  import Placement
  import Metrics

  datatype GameState = Idle | Holding | Active | Results | Replay | Analysis

  /** Pointer-down must land this close to A (px). */
  const HoldRadius: real := 65.0

  /** A start timer that is armed and not yet cleared: the pointer-down
      position it seeds the path with, and its delay (ms). */
  datatype PendingStart = PendingStart(x: real, y: real, delay: real)

  /** `2000 + Math.random() * 3000`, given the random draw. */
  function StartDelay(rand: real): (delay: real)
    ensures 0.0 <= rand < 1.0 ==> 2000.0 <= delay < 5000.0
  {
    2000.0 + rand * 3000.0
  }

  /** The functional update of `setReplayTime` in the animation tick:
      advance by delta times speed, and loop back to 0 at the end. */
  function NextReplayTime(prev: real, delta: real, speed: real, duration: real): (next: real)
    ensures next == 0.0 || next < duration
    ensures prev + delta * speed < duration ==> next == prev + delta * speed
    ensures prev + delta * speed >= duration ==> next == 0.0
  {
    var next := prev + delta * speed;
    if next >= duration then 0.0 else next
  }

  /** With a positive duration and time moving forward, the replay time
      stays within [0, duration). */
  lemma ReplayTimeInRange(prev: real, delta: real, speed: real, duration: real)
    requires duration > 0.0 && 0.0 <= prev
    requires delta >= 0.0 && speed >= 0.0
    ensures 0.0 <= NextReplayTime(prev, delta, speed, duration) < duration
  {
    ProductNonNegative(delta, speed);
  }

  /** The fields the handlers change, as one value. */
  datatype Snapshot = Snapshot(
    state: GameState,
    anchors: Placement.Anchors,
    results: Option<Metrics.Results>,
    holdingA: bool,
    path: seq<Sample>,
    pending: Option<PendingStart>,
    goTime: real,
    isPlaying: bool,
    replaySpeed: real,
    replayTime: real,
    replayDuration: real,
    lastFrameTime: Option<real>)

  class App {
    var state: GameState
    var anchors: Placement.Anchors
    var results: Option<Metrics.Results>
    var holdingA: bool
    var path: seq<Sample>
    var pending: Option<PendingStart>
    var goTime: real
    var isPlaying: bool
    var replaySpeed: real
    var replayTime: real
    var replayDuration: real
    var lastFrameTime: Option<real>

    /** Session overhead (ms) measured once on mount. */
    const overhead: real
    /** Pixels per metre; the device pixel ratio is fixed for the session. */
    const ppm: real
    const sqrt: real -> real

    function Snap(): Snapshot
      reads this
    {
      Snapshot(state, anchors, results, holdingA, path, pending, goTime,
               isPlaying, replaySpeed, replayTime, replayDuration, lastFrameTime)
    }

    ghost predicate Valid()
      reads this
    {
      ppm > 0.0 && IsSqrt(sqrt) &&
      (pending.Some? <==> state == Holding) &&
      (holdingA <==> state == Holding || state == Active) &&
      (state == Idle || state == Holding ==> path == []) &&
      (state != Idle && state != Holding ==> |path| >= 1 && goTime <= path[0].t) &&
      Increasing(path) && FiniteDifferences(path, ppm, sqrt) &&
      (state == Idle || state == Holding || state == Active ==> results.None?) &&
      (state == Results || state == Replay || state == Analysis ==> (results.Some? <==> |path| >= 3)) &&
      (state == Replay || state == Analysis ==> results.Some?) &&
      (state == Replay ==> replayDuration == path[|path| - 1].t - goTime) &&
      (lastFrameTime.Some? ==> state == Replay && isPlaying)
    }

    /** The results dashboard is rendered (App.tsx:391). */
    predicate DashboardVisible()
      reads this
    {
      (state == Results || state == Replay) && results.Some?
    }

    /** The replay overlay is rendered (App.tsx:404). */
    predicate OverlayVisible()
      reads this
    {
      state == Replay && results.Some?
    }

    /** The path analysis view is rendered (App.tsx:418). */
    predicate AnalysisVisible()
      reads this
    {
      state == Analysis && results.Some?
    }

    /** Mount: the calibration effect, `getPPM` and the first
        `generatePoints`, with the initial React state. */
    constructor(clock: seq<real>, isMobile: bool, dpr: real, sqrt: real -> real,
                width: real, height: real, dirs: seq<Vec2>, toCenter: Vec2)
      requires |clock| == 2 * Calibration.Runs
      requires dpr >= 0.0 && IsSqrt(sqrt)
      requires |dirs| == Placement.Attempts
      ensures Valid()
      ensures overhead == Calibration.Overhead(Calibration.Durations(clock), isMobile)
      ensures ppm == Calibration.PixelsPerMeter(dpr) && this.sqrt == sqrt
      ensures anchors.a == Placement.AnchorStart(width, height)
      ensures anchors.b == Placement.Target(anchors.a, dirs, toCenter, Placement.RadiusMeters * ppm, width, height)
      ensures state == Idle && results == None && !holdingA && path == [] && pending == None
      ensures goTime == 0.0 && !isPlaying && replaySpeed == 1.0 && replayTime == 0.0
      ensures replayDuration == 0.0 && lastFrameTime == None
    {
      var o := Calibration.RunCalibration(clock, isMobile);
      var p := Calibration.PixelsPerMeter(dpr);
      var placed, _ := Placement.GeneratePoints(width, height, p, dirs, toCenter);
      overhead := o;
      ppm := p;
      this.sqrt := sqrt;
      state := Idle;
      anchors := placed;
      results := None;
      holdingA := false;
      path := [];
      pending := None;
      goTime := 0.0;
      isPlaying := false;
      replaySpeed := 1.0;
      replayTime := 0.0;
      replayDuration := 0.0;
      lastFrameTime := None;
    }

    /** `startSequence`: a pointer-down in idle within 65 px of A starts
        holding and arms the start timer; anything else is ignored. */
    method StartSequence(clientX: real, clientY: real, left: real, top: real, rand: real)
      requires Valid()
      modifies this
      ensures Valid()
      ensures var local := Vec2(clientX - left, clientY - top);
              var accepted := old(state) == Idle && SqDist(local, anchors.a) < HoldRadius * HoldRadius;
              Snap() == if accepted
                        then old(Snap()).(state := Holding, holdingA := true,
                                          pending := Some(PendingStart(local.x, local.y, StartDelay(rand))))
                        else old(Snap())
    {
      if state != Idle {
        return;
      }
      var local := Vec2(clientX - left, clientY - top);
      var distToA := Dist(sqrt, local, anchors.a);
      SqrtBelowIff(sqrt, SqDist(local, anchors.a), HoldRadius);
      if distToA < HoldRadius {
        holdingA := true;
        state := Holding;
        pending := Some(PendingStart(local.x, local.y, StartDelay(rand)));
      }
    }

    /** The start timer's callback: go, stamp `goTime` and seed the path
        with the pointer-down position at rest. `goNow` and `seedNow` are
        the two successive `performance.now()` readings. */
    method StartTimerFires(goNow: real, seedNow: real)
      requires Valid()
      requires goNow <= seedNow
      modifies this
      ensures Valid()
      ensures old(pending).Some? ==>
                Snap() == old(Snap()).(state := Active, goTime := goNow, pending := None,
                                       path := [Sample(seedNow, old(pending).value.x, old(pending).value.y, 0.0, 0.0)])
      ensures old(pending).None? ==> Snap() == old(Snap())
    {
      if pending.Some? {
        var start := pending.value;
        state := Active;
        goTime := goNow;
        path := [Sample(seedNow, start.x, start.y, 0.0, 0.0)];
        pending := None;
      }
    }

    /** `onPointerMove`: in active, every coalesced event goes through
        `processPointerEvent`; in any other state the move is ignored. */
    method PointerMove(events: seq<PointerSample>, now: real, left: real, top: real)
      requires Valid()
      modifies this
      ensures Valid()
      ensures old(state) == Active ==>
                Snap() == old(Snap()).(path := IngestAll(old(path), events, now, left, top, ppm, sqrt))
      ensures old(state) != Active ==> Snap() == old(Snap())
    {
      if state != Active {
        return;
      }
      var i := 0;
      while i < |events|
        invariant 0 <= i <= |events|
        invariant path == IngestAll(old(path), events[..i], now, left, top, ppm, sqrt)
        invariant Snap() == old(Snap()).(path := path)
      {
        assert events[..i + 1][..i] == events[..i];
        path := Step(path, events[i], now, left, top, ppm, sqrt);
        i := i + 1;
      }
      assert events[..|events|] == events;
      IngestKeeps(old(path), events, now, left, top, ppm, sqrt);
      assert path[..|old(path)|] == old(path);
    }

    /** `handlePointerUp`: releasing while holding clears the timer and
        returns to idle; releasing while active ends the trial and runs the
        analyser, which leaves the results null below three samples. */
    method HandlePointerUp()
      requires Valid()
      modifies this
      ensures Valid()
      ensures old(state) == Holding ==> Snap() == old(Snap()).(state := Idle, pending := None, holdingA := false)
      ensures old(state) == Active ==>
                Snap() == old(Snap()).(state := Results, holdingA := false,
                                       results := Metrics.Analyze(path, anchors, goTime, overhead, ppm, sqrt))
      ensures old(state) == Active ==> (results.None? <==> |path| < 3)
      ensures old(state) != Holding && old(state) != Active ==> Snap() == old(Snap())
    {
      if state == Holding {
        pending := None;
        state := Idle;
        holdingA := false;
      } else if state == Active {
        var r := Metrics.AnalyzeResults(path, anchors, goTime, overhead, ppm, sqrt);
        EndTrial(r);
      } else {
        holdingA := false;
      }
    }

    /** Releasing while active: the trial ends, and the analyser's record
        `r` is kept only when there is one (three samples or more). */
    method EndTrial(r: Option<Metrics.Results>)
      requires Valid() && state == Active
      requires r.None? <==> |path| < 3
      modifies this
      ensures Valid()
      ensures Snap() == old(Snap()).(state := Results, holdingA := false, results := r)
    {
      state := Results;
      if r.Some? {
        results := r;
      }
      holdingA := false;
    }

    /** `reset` from the dashboard: back to idle with an empty path, no
        results, replay stopped at 0 and freshly placed anchors. */
    method Reset(width: real, height: real, dirs: seq<Vec2>, toCenter: Vec2)
      requires Valid()
      requires |dirs| == Placement.Attempts
      modifies this
      ensures Valid()
      ensures old(DashboardVisible()) ==>
                Snap() == old(Snap()).(state := Idle, results := None, holdingA := false, path := [],
                                       replayTime := 0.0, isPlaying := false, lastFrameTime := None,
                                       anchors := anchors)
      ensures old(DashboardVisible()) ==>
                anchors.a == Placement.AnchorStart(width, height) &&
                anchors.b == Placement.Target(anchors.a, dirs, toCenter, Placement.RadiusMeters * ppm, width, height)
      ensures !old(DashboardVisible()) ==> Snap() == old(Snap())
    {
      if !DashboardVisible() {
        return;
      }
      var placed, _ := Placement.GeneratePoints(width, height, ppm, dirs, toCenter);
      Restart(placed);
    }

    /** The state updates of `reset`, with the freshly placed anchors. */
    method Restart(placed: Placement.Anchors)
      requires Valid() && DashboardVisible()
      modifies this
      ensures Valid()
      ensures Snap() == old(Snap()).(state := Idle, results := None, holdingA := false, path := [],
                                     replayTime := 0.0, isPlaying := false, lastFrameTime := None,
                                     anchors := placed)
    {
      state := Idle;
      results := None;
      holdingA := false;
      path := [];
      assert Increasing(path) && FiniteDifferences(path, ppm, sqrt);
      replayTime := 0.0;
      isPlaying := false;
      anchors := placed;
      lastFrameTime := None;
    }

    /** `initReplay` from the dashboard: refuses an empty path; otherwise
        replays from 0 over the span from go to the last sample. */
    method InitReplay(speed: real)
      requires Valid()
      modifies this
      ensures Valid()
      ensures old(DashboardVisible()) && |path| > 0 ==>
                Snap() == old(Snap()).(state := Replay, replaySpeed := speed, replayTime := 0.0, isPlaying := true,
                                       replayDuration := path[|path| - 1].t - goTime)
      ensures old(DashboardVisible()) && |path| > 0 ==> replayDuration > 0.0
      ensures !old(DashboardVisible()) || |path| == 0 ==> Snap() == old(Snap())
    {
      if !DashboardVisible() {
        return;
      }
      if |path| == 0 {
        return;
      }
      state := Replay;
      replaySpeed := speed;
      replayDuration := path[|path| - 1].t - goTime;
      replayTime := 0.0;
      isPlaying := true;
      if |path| > 1 {
        assert Earlier(path, 0, |path| - 1);
      }
    }

    /** One `animate` frame while replaying: the first frame after a
        (re)start has delta 0, later ones the time since the last frame. */
    method AnimationFrame(time: real)
      requires Valid()
      modifies this
      ensures Valid()
      ensures old(state) == Replay && old(isPlaying) ==>
                var last := if old(lastFrameTime).None? then time else old(lastFrameTime).value;
                Snap() == old(Snap()).(lastFrameTime := Some(time),
                                       replayTime := NextReplayTime(old(replayTime), time - last, replaySpeed, replayDuration))
      ensures !(old(state) == Replay && old(isPlaying)) ==> Snap() == old(Snap())
    {
      if !(state == Replay && isPlaying) {
        return;
      }
      if lastFrameTime.None? {
        lastFrameTime := Some(time);
      }
      var delta := time - lastFrameTime.value;
      lastFrameTime := Some(time);
      replayTime := NextReplayTime(replayTime, delta, replaySpeed, replayDuration);
    }

    /** `handleSeek`, which only the replay overlay receives: sets the
        replay time and nothing else. */
    method Seek(time: real)
      requires Valid()
      modifies this
      ensures Valid()
      ensures old(OverlayVisible()) ==> Snap() == old(Snap()).(replayTime := time)
      ensures !old(OverlayVisible()) ==> Snap() == old(Snap())
    {
      if !OverlayVisible() {
        return;
      }
      replayTime := time;
    }

    /** The overlay's stop button: pause and return to the results. */
    method Stop()
      requires Valid()
      modifies this
      ensures Valid()
      ensures old(OverlayVisible()) ==>
                Snap() == old(Snap()).(isPlaying := false, state := Results, lastFrameTime := None)
      ensures !old(OverlayVisible()) ==> Snap() == old(Snap())
    {
      if !OverlayVisible() {
        return;
      }
      isPlaying := false;
      state := Results;
      lastFrameTime := None;
    }

    /** The dashboard's analysis button. */
    method ShowAnalysis()
      requires Valid()
      modifies this
      ensures Valid()
      ensures old(DashboardVisible()) ==> Snap() == old(Snap()).(state := Analysis, lastFrameTime := None)
      ensures !old(DashboardVisible()) ==> Snap() == old(Snap())
    {
      if !DashboardVisible() {
        return;
      }
      state := Analysis;
      lastFrameTime := None;
    }

    /** The analysis view's back button. */
    method Back()
      requires Valid()
      modifies this
      ensures Valid()
      ensures old(AnalysisVisible()) ==> Snap() == old(Snap()).(state := Results)
      ensures !old(AnalysisVisible()) ==> Snap() == old(Snap())
    {
      if !AnalysisVisible() {
        return;
      }
      state := Results;
    }
  }
}
