/** The replay overlay's timing logic (ReplayOverlay.tsx:19-51): which
    physiological phase the replay clock is in, whether movement has begun,
    and the reaction share of the timing bar. */
module ReplayOverlay {
  import opened Geometry

  datatype BioPhase =
    | Photoreception
    | SignalTransit
    | Processing
    | MotorPlanning
    | JunctionFiring
    | Contraction

  function PhaseNumber(p: BioPhase): nat
  {
    match p
    case Photoreception => 0
    case SignalTransit => 1
    case Processing => 2
    case MotorPlanning => 3
    case JunctionFiring => 4
    case Contraction => 5
  }

  function PhaseText(p: BioPhase): string
  {
    match p
    case Photoreception => "Phase 0: Photoreception (Retina)"
    case SignalTransit => "Phase 1: Signal Transit (Optic Nerve → Thalamus)"
    case Processing => "Phase 2: Processing (Visual Cortex)"
    case MotorPlanning => "Phase 3: Motor Planning (Pre-Motor Cortex)"
    case JunctionFiring => "Phase 4: Neuromuscular Junction Firing"
    case Contraction => "Phase 5: Muscular Contraction & Ballistic Motion"
  }

  /** The if-chain of `getBioPhaseText` at replay time t (ms after the
      stimulus) for a trial with the given reaction time. */
  function PhaseAt(t: real, reactionMs: real): (r: BioPhase)
    ensures PhaseNumber(r) <= 1 <==> t < 80.0
    ensures r == JunctionFiring ==> reactionMs <= t < reactionMs + 50.0
    ensures r == MotorPlanning ==> t < reactionMs
  {
    if t < 20.0 then Photoreception
    else if t < 80.0 then SignalTransit
    else if t < Min(140.0, reactionMs) then Processing
    else if t < reactionMs then MotorPlanning
    else if t >= reactionMs && t < reactionMs + 50.0 then JunctionFiring
    else Contraction
  }

  function BioPhaseText(t: real, reactionMs: real): string
  {
    PhaseText(PhaseAt(t, reactionMs))
  }

  /** The phase boundaries in order. */
  function Thresholds(reactionMs: real): seq<real>
  {
    [20.0, 80.0, Min(140.0, reactionMs), reactionMs, reactionMs + 50.0]
  }

  /** Index of the first threshold above t, or |ths| when there is none. */
  function FirstAbove(ths: seq<real>, t: real): (k: nat)
    ensures k <= |ths|
    ensures forall j :: 0 <= j < k ==> ths[j] <= t
    ensures k < |ths| ==> t < ths[k]
  {
    if ths == [] then 0
    else if t < ths[0] then 0
    else 1 + FirstAbove(ths[1..], t)
  }

  /** The if-chain returns the first phase whose threshold exceeds t. */
  lemma PhaseIsFirstAbove(t: real, reactionMs: real)
    ensures PhaseNumber(PhaseAt(t, reactionMs)) == FirstAbove(Thresholds(reactionMs), t)
  {
    var s0 := Thresholds(reactionMs);
    var s1, s2, s3, s4 := s0[1..], s0[2..], s0[3..], s0[4..];
    assert s1[1..] == s2 && s2[1..] == s3 && s3[1..] == s4 && s4[1..] == [];
    var k4 := FirstAbove(s4, t);
    assert k4 == if t < reactionMs + 50.0 then 0 else 1;
    var k3 := FirstAbove(s3, t);
    assert k3 == if t < reactionMs then 0 else 1 + k4;
    var k2 := FirstAbove(s2, t);
    assert k2 == if t < Min(140.0, reactionMs) then 0 else 1 + k3;
    var k1 := FirstAbove(s1, t);
    assert k1 == if t < 80.0 then 0 else 1 + k2;
    assert FirstAbove(s0, t) == if t < 20.0 then 0 else 1 + k1;
  }

  /** A later time never finds an earlier first threshold. */
  lemma {:induction false} FirstAboveMonotone(ths: seq<real>, t1: real, t2: real)
    requires t1 <= t2
    ensures FirstAbove(ths, t1) <= FirstAbove(ths, t2)
  {
    if ths != [] && !(t1 < ths[0]) {
      FirstAboveMonotone(ths[1..], t1, t2);
    }
  }

  /** For a fixed reaction time the phase never goes back as replay time
      advances. */
  lemma PhaseMonotone(t1: real, t2: real, reactionMs: real)
    requires t1 <= t2
    ensures PhaseNumber(PhaseAt(t1, reactionMs)) <= PhaseNumber(PhaseAt(t2, reactionMs))
  {
    PhaseIsFirstAbove(t1, reactionMs);
    PhaseIsFirstAbove(t2, reactionMs);
    FirstAboveMonotone(Thresholds(reactionMs), t1, t2);
  }

  /** The ballistic phase is reached exactly from max(80, reaction + 50). */
  lemma ContractionIff(t: real, reactionMs: real)
    ensures PhaseAt(t, reactionMs) == Contraction <==> t >= Max(80.0, reactionMs + 50.0)
  {
  }

  /** The two descriptions `getBioPhaseDesc` chooses between. */
  datatype MotionState = PreMotion | Ballistic

  function DescText(m: MotionState): string
  {
    match m
    case PreMotion =>
      "Brain is calculating trajectory. Signal is traveling from visual cortex to motor cortex. No movement detected yet."
    case Ballistic =>
      "Spinal motor neurons have fired. Muscles are contracting. Limb is in ballistic transit to target coordinates."
  }

  /** `getBioPhaseDesc`: "no movement" exactly before the reaction time.
      From 80 ms on this agrees with the phase text (phases 2 and 3 before
      movement, 4 and 5 after); before 80 ms a reaction time under 80 ms
      shows phase 0 or 1 beside the ballistic description. */
  function BioPhaseDesc(t: real, reactionMs: real): (m: MotionState)
    ensures m == PreMotion <==> t < reactionMs
    ensures t >= 80.0 ==> (m == PreMotion <==> PhaseNumber(PhaseAt(t, reactionMs)) < 4)
  {
    if t < reactionMs then PreMotion else Ballistic
  }

  /** Width fraction of the reaction segment of the timing bar:
      `reactionTime / (reactionTime + travelTime)`. */
  function ReactionShare(reactionTime: real, travelTime: real): (f: real)
    requires reactionTime >= 1.0 && travelTime >= 1.0
    ensures 0.0 < f < 1.0
  {
    reactionTime / (reactionTime + travelTime)
  }
}
