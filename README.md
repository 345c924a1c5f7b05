# Reactor kinematic engine in Dafny

Reactor is a browser reflex test. The player holds a pointer on anchor A.
After a random delay the target B lights up ("go"), and the player drags
to B as fast as possible. The app records every coalesced pointer
sample with a finite-difference speed and acceleration. On release it
computes:

- the reaction time, corrected by a calibrated system overhead;
- the travel time;
- the peak speed and peak acceleration;
- the endpoint accuracy in millimetres;
- the path efficiency;
- a speed tier.

The trial can then be replayed on a looping clock, or inspected as a
deviation-from-the-ideal-line analysis. A history panel reports personal
records per day, week, month, year and overall.

This project models that engine and proves what it promises. The modules
follow the program's structure:

| module | file | models |
|---|---|---|
| `Geometry` | geometry.dfy | points, squared distance, a square root passed in as `sqrt` with the `IsSqrt` law |
| `Calibration` | calibration.dfy | the 50-run overhead measurement and pixels per metre |
| `Placement` | placement.dfy | anchor placement: A clamped into the padded viewport, B at 2 cm from A |
| `Capture` | capture.dfy | pointer-sample ingestion into the append-only path |
| `Metrics` | metrics.dfy | the analyser: onset, times, peaks, accuracy, efficiency, tier |
| `PathAnalysis` | path_analysis.dfy | the speed colour ramp and the maximum-deviation scan |
| `ReplayOverlay` | replay_overlay.dfy | the biomechanical phase classifier and the reaction share of the bar |
| `History` | history.dfy | `getBest`, the calendar-window predicates and the record windows |
| `Trial` | trial.dfy | the `App` component as an object: the state machine idle → holding → active → results ⇄ replay / analysis, and the replay clock |

The arithmetic is on `real`. `Math.sqrt` is a parameter constrained to
be the non-negative square root. The clock readings, random draws,
device pixel ratio, mobile flag, viewport size and the unit direction
vectors of the random angles are all parameters. The direction toward
the viewport centre is a parameter too; `Placement.TowardCentre` states
which vector `atan2` followed by `cos`/`sin` yields. Loops in the source
are methods with loop invariants. These are each proved equal to a pure
function:

- the calibration runs;
- the placement attempts;
- the coalesced-event loop;
- the onset scan and the path-length sum.

The deviation scan is specified directly: its result is the largest
deviation, found at the first sample that attains it.

The `App` object keeps its React state and refs as fields, and its
handlers are methods. `Valid()` is the invariant every handler
preserves:

- a start timer is armed exactly in holding;
- the "holding A" flag is set exactly in holding and active;
- the path is empty before go;
- after go, the path starts no earlier than go;
- timestamps strictly increase along the path;
- every sample is the finite difference of its predecessor;
- in results, replay and analysis, a record exists exactly when the path has at least three samples;
- the replay duration is the span from go to the last sample;
- an animation-frame anchor exists only while replaying.

Handlers that are reachable only through a rendered control take effect
only when that control is on screen. These are the dashboard
(App.tsx:391), the replay overlay (App.tsx:404), which alone receives
`handleSeek`, and the analysis view (App.tsx:418).

One consequence of the code as written shows in the model. Releasing
after go with fewer than three samples enters `results` with no record.
No dashboard is then rendered, so every later handler leaves the state
unchanged.

## Model

| member | source | states |
|---|---|---|
| Calibration.Durations | App.tsx:67-72 | one duration per run, from the pair of clock readings around it |
| Calibration.SumNonNegative | App.tsx:73 | the summed durations are non-negative when every duration is |
| Calibration.DurationAt | App.tsx:67-72 | sample i is the difference of the two clock readings around run i |
| Calibration.OverheadAtLeastLag | App.tsx:73-78 | with a non-decreasing clock the overhead is at least the platform lag, hence at least 4 ms |
| Calibration.Overhead | App.tsx:73-78 | the overhead is the mean run duration plus the platform lag; `OverheadAtLeastLag` bounds it |
| Calibration.RunCalibration | App.tsx:64-87 | the loop's overhead is the mean of the 50 run durations plus 8 ms on mobile or 4 ms on desktop |
| Calibration.PixelsPerMeter | App.tsx:89-93 | ppm·0.0254 = 160·dpr, a zero ratio counting as 1, and ppm > 0 |
| Geometry.SqrtExceedsIff | App.tsx:262 | a square root exceeds c exactly when its argument exceeds c² |
| Geometry.NormExceedsIff | App.tsx:262 | a length exceeds c exactly when dx² + dy² exceeds c² |
| Geometry.SqrtBelowIff | App.tsx:184-186 | a square root is below c exactly when its argument is below c², so the 65 px hold test compares squared distances |
| Placement.AnchorStart | App.tsx:99-103 | A is at least 80 px in on both axes; x is w/2 when w ≥ 160 and 80 below; y is 0.6·h when h ≥ 200, h − 80 when 160 ≤ h < 200, and 80 below |
| Placement.FirstFit | App.tsx:111-121 | the first candidate in bounds, every earlier one out of bounds, and none when no candidate fits |
| Placement.FirstFitAt | App.tsx:111-121 | an in-bounds candidate with none before it is the accepted one |
| Placement.FirstFitNone | App.tsx:123-129 | with no candidate in bounds there is no fit, so `Target` falls back to the centre direction |
| Placement.Target | App.tsx:108-129 | B is the first accepted candidate, which is in bounds, or else the step toward the centre |
| Placement.FallbackTowardCentre | App.tsx:123-129 | with no fit, B lies on the ray from A through the viewport centre, and is one radius to the right of A when A is the centre |
| Placement.TowardAtRadius | App.tsx:112-114 | a unit direction puts the candidate exactly at the radius from A |
| Placement.TargetAtRadius | App.tsx:108-129 | B is at the radius from A on both the accepted-angle and the fallback path |
| Placement.SearchFit | App.tsx:110-120 | the loop over the candidate angles stops at exactly the first fitting candidate, or at none |
| Placement.PlaceTarget | App.tsx:108-129 | for a given A: B is `Target`; found exactly when some candidate fits; an accepted B is in bounds; the fallback lies toward the centre |
| Placement.GeneratePoints | App.tsx:95-132 | the loop yields the first fitting candidate or the fallback; found exactly when some candidate fits; an accepted B has 30 < x < w−30 and 30 < y < h−30; B is 0.02·ppm from A; without a fit, B lies on the ray from A through the viewport centre |
| Capture.EventTime | App.tsx:150 | the event's timestamp, or the current time when the timestamp is 0 |
| Capture.Speed | App.tsx:158-163 | the instantaneous speed is non-negative |
| Capture.Step | App.tsx:149-171 | one event appends at most one sample, keeps the earlier ones, and appends exactly when the path is empty or its time advances; the appended sample has the event's time and container-local position |
| Capture.IngestAll | App.tsx:140-173 | the path only grows, by at most the number of coalesced events, and its old prefix is unchanged |
| Capture.IngestRecordsEvents | App.tsx:149-171 | every sample a pointer move appends has the time and container-local position of one of its coalesced events |
| Capture.StepKeeps | App.tsx:154-171 | one event keeps timestamps strictly increasing and every sample a finite difference of its predecessor |
| Capture.IngestKeeps | App.tsx:149-171 | a whole pointer move keeps both invariants |
| Capture.FiniteDifferenceFacts | App.tsx:158-170 | every speed is ≥ 0, the seed is at rest, the second sample has a = 0, and later ones have a = (v − last.v)/dt |
| Metrics.MovedIff | App.tsx:262 | a sample has moved exactly when its squared displacement in metres exceeds (2 mm)² |
| Metrics.OnsetIndex | App.tsx:255-266 | the onset is the first sample displaced more than 2 mm from the start, or 0 when none is |
| Metrics.OnsetUnique | App.tsx:255-266 | any index that moved, with none moved before it, is the onset |
| Metrics.FindOnset | App.tsx:255-266 | the scan with early exit returns the onset index |
| Metrics.ReactionTime | App.tsx:268-269 | the reaction time is at least 1 and equals the raw time less the overhead whenever that is larger |
| Metrics.TravelTime | App.tsx:271-272 | the travel time is at least 1 and equals the raw travel less a quarter of the overhead whenever that is larger |
| Metrics.TimingExample | App.tsx:268-272 | a 140 ms onset with 6 ms overhead gives 134 ms, and a 200 ms travel gives 198.5 ms |
| Metrics.Peak | App.tsx:274-275 | the peak is one of the values and no value exceeds it |
| Metrics.PathLength | App.tsx:280-283 | the summed segment length is non-negative |
| Metrics.MeasurePath | App.tsx:280-283 | the accumulation loop returns the summed segment length |
| Metrics.PathEfficiency | App.tsx:284 | efficiency lies in [0, 100], is 0 when the path length is 0, and is 100 exactly when the ideal distance reaches the path length |
| Metrics.Accuracy | App.tsx:276-277 | the endpoint error in mm is non-negative |
| Metrics.TierOf | App.tsx:292 | elite exactly when the peak speed exceeds 1.5 m/s |
| Metrics.Analyze | App.tsx:250-299 | no record below three samples; otherwise both times are ≥ 1, efficiency in [0, 100], accuracy ≥ 0, the tier rule, the peaks bound and are attained by samples, and they are ≥ 0 when the seed is at rest |
| Metrics.AnalyzeResults | App.tsx:250-299 | the analyser's loops compute exactly the `Analyze` record |
| PathAnalysis.PeakScale | PathAnalysis.tsx:22 | a zero peak speed is replaced by 1; the scale is never 0 |
| PathAnalysis.VelocityColor | PathAnalysis.tsx:21-27 | green is 0; red and blue lie in [0, 255] with sum 254 or 255; v at or above the peak gives pure red; v = 0 gives pure blue |
| PathAnalysis.AnchorsOnLine | PathAnalysis.tsx:35-37 | both anchors satisfy the line equation, so both have deviation 0 |
| PathAnalysis.Deviation | PathAnalysis.tsx:43 | the distance to the line is non-negative |
| PathAnalysis.Projection | PathAnalysis.tsx:49-55 | the point of the ideal line at parameter u along A-B; `ProjectionIsFoot` proves it the foot of the perpendicular |
| PathAnalysis.ProjectionIsFoot | PathAnalysis.tsx:49-55 | the projected point lies on the line, and p minus it is perpendicular to B − A |
| PathAnalysis.MaxDeviation | PathAnalysis.tsx:29-58 | maxDev ≥ 0; it is 0 for an empty path or coinciding anchors; it bounds every sample's deviation; when positive, it belongs to the first sample attaining it, whose projection is recorded |
| ReplayOverlay.PhaseAt | ReplayOverlay.tsx:19-29 | phases 0 and 1 cover exactly the first 80 ms; junction firing lies in [r, r + 50); motor planning lies before r |
| ReplayOverlay.PhaseIsFirstAbove | ReplayOverlay.tsx:19-29 | the phase is the first of the thresholds 20, 80, min(140, r), r, r + 50 that exceeds t |
| ReplayOverlay.PhaseMonotone | ReplayOverlay.tsx:23-28 | for a fixed reaction time the phase never goes back as replay time grows |
| ReplayOverlay.ContractionIff | ReplayOverlay.tsx:23-28 | phase 5 exactly when t ≥ max(80, r + 50) |
| ReplayOverlay.BioPhaseDesc | ReplayOverlay.tsx:31-37 | "no movement" exactly when t < r, and from 80 ms on exactly while the phase is below 4 |
| ReplayOverlay.ReactionShare | ReplayOverlay.tsx:51 | with both times ≥ 1 the reaction share of the bar lies strictly between 0 and 1 |
| History.IsSameDay | HistorySection.tsx:22-23 | equal day of month, month and year |
| History.IsSameWeek | HistorySection.tsx:25-29 | the rounded absolute day difference is below 7; `SameWeekIff` gives its meaning |
| History.IsSameMonth | HistorySection.tsx:31-32 | equal month and year |
| History.IsSameYear | HistorySection.tsx:34-35 | equal year |
| History.SameWeekIff | HistorySection.tsx:25-29 | same week exactly when the dates are less than 6.5 days apart |
| History.SameWeekSymmetric | HistorySection.tsx:25-29 | the week test is symmetric |
| History.SameDayNested | HistorySection.tsx:22-35 | same day implies same month, which implies same year |
| History.Fastest | HistorySection.tsx:39 | the reduction returns an item of the list with the least reaction time |
| History.FastestIsLastMinimum | HistorySection.tsx:39 | on ties the reduction returns the last item with the least reaction time |
| History.GetBest | HistorySection.tsx:37-40 | null exactly for an empty list; otherwise a member no other item beats |
| History.Window | HistorySection.tsx:45-48 | a window holds exactly the history items in the period |
| History.ComputeStats | HistorySection.tsx:19-51 | no all-time record exactly for an empty history; each period's record is a history item in that period |
| History.RecordsOrdered | HistorySection.tsx:44-50 | the all-time record is no slower than any window's, and the day, month and year records are ordered |
| History.Reversed | HistorySection.tsx:114 | the display list is the history in reverse order, built as a fresh value |
| Trial.StartDelay | App.tsx:192 | a random draw in [0, 1) gives a delay in [2000, 5000) ms |
| Trial.NextReplayTime | App.tsx:343-352 | the next replay time is prev + delta·speed when that is below the duration, and loops back to 0 when it reaches the duration |
| Trial.ReplayTimeInRange | App.tsx:343-352 | with a positive duration and time moving forward, the replay time stays in [0, duration) |
| Trial.App.constructor | App.tsx:37-93 | the initial React state, the calibrated overhead, ppm from the pixel ratio and the first placement |
| Trial.App.StartSequence | App.tsx:175-200 | a pointer-down acts only in idle and within 65 px of A; it moves to holding and arms the timer with the pointer position and delay |
| Trial.App.StartTimerFires | App.tsx:194-198 | timer expiry goes active, sets goTime, and resets the path to the single seed sample at rest |
| Trial.App.PointerMove | App.tsx:379 | moves are ingested only in active, and the path becomes the ingestion of all coalesced events |
| Trial.App.HandlePointerUp | App.tsx:202-211 | release in holding cancels the timer and returns to idle; release in active always goes to results with the analyser's record, which is null below three samples |
| Trial.App.EndTrial | App.tsx:205-208 | the end of a trial keeps the invariant and stores the analyser's record |
| Trial.App.Reset | App.tsx:301-310 | reset clears path, results, replay time and playing, returns to idle and places new anchors |
| Trial.App.Restart | App.tsx:302-308 | the state updates of reset keep the invariant |
| Trial.App.InitReplay | App.tsx:313-325 | refuses an empty path; otherwise sets the speed, duration = last.t − goTime, which is > 0, time 0 and playing |
| Trial.App.AnimationFrame | App.tsx:327-361 | a frame while playing advances the replay time by the time since the previous frame times the speed, looping to 0 |
| Trial.App.Seek | App.tsx:364-368 | seeking acts only while the replay overlay is shown, and then sets the replay time and nothing else |
| Trial.App.Stop | App.tsx:414 | stop pauses and returns to results |
| Trial.App.ShowAnalysis | App.tsx:400 | the dashboard's analysis button moves to analysis |
| Trial.App.Back | App.tsx:423 | the analysis view's back button returns to results |

## Left out

- The narration call to the generative-language service, with its prompt, JSON parsing, `analysis` and `isAnalyzing` state (App.tsx:213-248). It is an external, fallible network service.
- Timers and animation frames. They become events: `Trial.App.StartTimerFires` and `Trial.App.AnimationFrame`, which the environment calls. `setTimeout`, `clearTimeout`, `requestAnimationFrame` and `cancelAnimationFrame` are not modelled as such. The effect that clears the frame anchor (App.tsx:328-332) is folded into each handler that stops playback.
- `performance.now`, `Math.random`, `Math.cos`/`Math.sin`/`Math.atan2` and `Math.sqrt` are inputs, not functions of the model. Random angles arrive as unit direction vectors.
- Trial.App.StartTimerFires: assumes the second `performance.now()` reading is not earlier than the first, because the browser clock is monotonic.
- Pointer capture, `getBoundingClientRect` and `getCoalescedEvents` are left out. The container offset and the coalesced events are parameters.
- The resize listener (App.tsx:134-138) is left out. Anchors are placed on mount and on reset only.
- The device pixel ratio is fixed for the session, so ppm is a constant of the `App` object.
- The user-agent sniffing, `hardwareConcurrency` and the `deviceInfo` record (App.tsx:75, 79-83) are left out. The mobile flag is an input.
- The overlay's play/pause toggle and speed change (App.tsx:411-413) are not modelled: the overlay never calls them. `handleSeek` is modelled, gated on the overlay that receives it, although the overlay never calls it.
- Rendering (all JSX), PlayArea, ResultsDashboard, Header, InfoSection and TutorialOverlay are left out as presentation only. The dashboard's, overlay's and analysis view's visibility conditions are kept as gates.
- History dates are given as calendar fields plus a millisecond timestamp. `Date` parsing, time zones and locale formatting are not modelled.
- Floating-point rounding is not modelled; all arithmetic is exact, on reals.
