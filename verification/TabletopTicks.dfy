/** What each planner call proposes, commits or changes, as functions of the committed state.
    The planner class is proved against these; the run theorems are about them. */
module TabletopTicks {
  import opened Wrappers
  import opened JointMath
  import opened Scalars
  import opened TabletopModel
  import opened TabletopSafety
  import opened MinimumJerk
  import Ik = PoseIk

  /** Index bounds that keep every template lookup defined; weaker than the planner's invariant. */
  predicate Indexed(b: Bundle, c: Committed) {
    c.template < |b.hands| && c.preshape >= -1 && c.closureStep >= -1 && c.liftStep >= -1
  }

  predicate SequenceInTemplate(b: Bundle, sequence: int) { 1 <= sequence <= b.cfg.steps }

  // ---- Goal tracking ------------------------------------------------------------------

  /** How many control intervals the hand still needs to finish the grasp. */
  function RemainingIntervals(b: Bundle, c: Committed): Option<int>
    requires b.Valid()
  {
    if c.phase == Approach then Some(b.ClosureCount())
    else if c.closureStep == -1 && c.forceContact && c.template == b.cfg.catchIndex - 1 then Some(b.ClosureCount())
    else if 0 <= c.closureStep < b.ClosureCount() then
      Some(if b.cfg.closureEnd < b.cfg.catchIndex + c.closureStep then 0
           else b.cfg.closureEnd - (b.cfg.catchIndex + c.closureStep))
    else None
  }

  function CandidateScales(b: Bundle, interceptXY: real): seq<real> {
    if b.cfg.movingCapture && interceptXY > 0.45 * b.cfg.maxPositionXY then
      if b.cfg.collisionReplan then [0.75, 0.5] else [1.0, 0.5]
    else [1.0, 0.5, 0.0]
  }

  datatype Goal = Reached(q: Joints) | NoGoal(fault: Fault)

  /** The first candidate scale whose inverse kinematics stays inside the reserved correction
      envelope. Failures to converge move on; any other failure is raised. */
  function FirstReachable(b: Bundle, c: Committed, solver: real -> Ik.Problem, scales: seq<real>): Goal
    requires b.Valid()
  {
    if scales == [] then NoGoal(InterceptUnreachable)
    else match Ik.Solve(solver(scales[0]), b.lower, b.upper, c.goal, Ik.REFINED_PASSES)
      case Solved(q) =>
        if Within(q, b.ReferenceGrasp(), b.CorrectionLimit() + ROUNDOFF) then Reached(q)
        else FirstReachable(b, c, solver, scales[1..])
      case NotConverged => FirstReachable(b, c, solver, scales[1..])
      case broken => NoGoal(NoSolution(broken))
  }

  function AdaptiveGoal(b: Bundle, c: Committed, solver: real -> Ik.Problem, interceptXY: real, height: real): Goal
    requires b.Valid()
  {
    if Abs(height) > b.cfg.maxPositionZ + ROUNDOFF then NoGoal(InterceptOutsideHeight)
    else if b.CorrectionLimit() <= 0.0 then NoGoal(ReserveInvalid)
    else FirstReachable(b, c, solver, CandidateScales(b, interceptXY))
  }

  /** The tabletop height is measured once and then locked for the episode. */
  function LockedHeight(b: Bundle, c: Committed, observed: real): real {
    match c.height
    case Some(h) => h
    case None => if b.cfg.movingCapture && Abs(observed) > b.cfg.maxPositionZ + ROUNDOFF then 0.0 else observed
  }

  /** Without a usable fit, an approach that has already seen live motion keeps its last goal. */
  predicate HoldsGoal(b: Bundle, c: Committed, obs: Observation) {
    !obs.fitUsable && c.liveFitSeen
    && (if b.cfg.movingCapture then c.phase == Approach else c.preshape < b.cfg.catchIndex)
  }

  function RawGoal(b: Bundle, c: Committed, obs: Observation, height: real): Goal
    requires b.Valid()
  {
    if !obs.fitUsable && !c.liveFitSeen then AdaptiveGoal(b, c, obs.nominalSolver, 0.0, height)
    else if HoldsGoal(b, c, obs) then Reached(c.goal)
    else AdaptiveGoal(b, c, obs.interceptSolver, obs.interceptXY, height)
  }

  function FilteredGoal(b: Bundle, c: Committed, raw: Joints): Joints {
    SlewEach(c.goal, Along(c.goal, raw, b.cfg.filterAlpha), b.cfg.maxCorrectionStep)
  }

  // ---- Drafts of the four phases ------------------------------------------------------

  /** The live correction slewed around a nominal target, then the whole step clipped. */
  function ApproachTarget(b: Bundle, c: Committed, nominal: Joints, goal: Joints): Joints
    requires b.Valid()
  {
    var correction := SlewEach(c.correction, Minus(goal, b.ReferenceGrasp()), b.cfg.maxCorrectionStep);
    SlewEach(c.target, Plus(nominal, correction), b.cfg.maxTargetStep)
  }

  datatype Capture = Capture(accepted: bool, temporal: bool, volume: bool)

  function CaptureGate(b: Bundle, c: Committed, obs: Observation, preshapeReady: bool): Capture {
    var g := obs.gate;
    var temporal := b.cfg.mpcCapture && g.speedAlong;
    var degraded := b.cfg.mpcCapture && b.cfg.collisionReplan && !obs.fitUsable && HoldsGoal(b, c, obs) && g.degradedFit;
    var evidence := obs.fitUsable || degraded;
    var moving := evidence && (if temporal then g.alongTight else g.speedAlong && g.alongWindow);
    var stationary := c.liveFitSeen && g.stationary;
    var volume := temporal && b.cfg.collisionReplan && obs.fitUsable && g.inVolume;
    var accepted := preshapeReady && g.geometrySafe
      && ((b.cfg.movingCapture && (moving || volume)) || g.armReady)
      && (volume || (g.inCorridor && (moving || stationary)));
    Capture(accepted, accepted && temporal && moving, accepted && volume)
  }

  datatype Drafting = Drafted(d: Draft) | Stopped(fault: Fault)

  function MeasuredCheck(b: Bundle, obs: Observation): Check {
    if b.cfg.mpcCapture then ClosureCheck(MeasuredTips(obs.measuredTips)) else PlainCheck
  }

  /** The closure slews its target no faster than the arm can track. */
  function ClosureTarget(b: Bundle, c: Committed, target: Joints): Joints {
    if b.cfg.mpcCapture then SlewEach(c.target, target, b.ClosureSlew()) else target
  }

  function ClosureStepLimit(b: Bundle): real {
    if b.cfg.mpcCapture then b.ClosureSlew() else b.cfg.maxTargetStep
  }

  function NextPreshape(b: Bundle, c: Committed): int {
    if c.preshape < 0 then 0
    else if b.cfg.catchIndex - 1 < c.preshape + b.cfg.preshapeStep then b.cfg.catchIndex - 1
    else c.preshape + b.cfg.preshapeStep
  }

  /** The object has left the corridor, and this configuration does not wait for it to come back. */
  predicate HasPassed(b: Bundle, obs: Observation, preshapeReady: bool) {
    !b.cfg.movingCapture && !b.cfg.collisionReplan && obs.fitUsable && preshapeReady && obs.gate.passed
  }

  function ApproachDraft(b: Bundle, c: Committed, index: int, obs: Observation, goal: Joints, height: real): Drafting
    requires b.Valid()
  {
    var preshape := NextPreshape(b, c);
    var ready := preshape >= b.cfg.catchIndex - 1;
    var nominal := SlewEach(c.nominal, b.ReferenceApproach(), b.cfg.approachStep);
    var target := ApproachTarget(b, c, nominal, goal);
    var gate := CaptureGate(b, c, obs, ready);
    var live := c.liveFitSeen || obs.fitUsable;
    var evidence := Some(obs.contact.(preshapeReady := ready, geometrySafe := obs.gate.geometrySafe));
    if gate.accepted then
      Drafted(Draft(Closure, preshape, 0, c.liftStep, b.cfg.catchIndex, nominal, ClosureTarget(b, c, target), goal,
                    Some(height), live, gate.temporal || gate.volume, gate.volume, false, true,
                    MeasuredCheck(b, obs), ClosureStepLimit(b), false, evidence))
    else if index >= b.LastStart() then Stopped(CaptureDeadline)
    else if HasPassed(b, obs, ready) then Stopped(ObjectPassed)
    else
      Drafted(Draft(Approach, preshape, c.closureStep, c.liftStep, preshape, nominal, target, goal,
                    Some(height), live, c.fullOccluded, c.currentVolume, false, false,
                    PlainCheck, b.cfg.maxTargetStep, false, evidence))
  }

  /** The nominal arm target of a closure tick. */
  function ClosureNominal(b: Bundle, c: Committed, template: int): Joints
    requires b.Valid() && 0 <= template < b.cfg.steps
  {
    if c.currentVolume then c.nominal
    else if b.cfg.mpcCapture then SlewEach(c.nominal, b.recorded[template], b.ClosureSlew())
    else SlewEach(c.nominal, b.ReferenceGrasp(), b.cfg.approachStep)
  }

  function ClosureDraft(b: Bundle, c: Committed, obs: Observation, goal: Joints, height: real): Drafting
    requires b.Valid() && c.closureStep >= -1
  {
    var step := c.closureStep + 1;
    if step >= b.ClosureCount() then Stopped(ClosureOutOfBounds)
    else
      var template := b.cfg.catchIndex + step;
      var nominal := ClosureNominal(b, c, template);
      var last := template == b.cfg.closureEnd;
      Drafted(Draft(if last then Lift else Closure, c.preshape, step, c.liftStep, template, nominal,
                    ClosureTarget(b, c, ApproachTarget(b, c, nominal, goal)), goal,
                    Some(height), c.liveFitSeen || obs.fitUsable, c.fullOccluded, c.currentVolume, last, false,
                    MeasuredCheck(b, obs), ClosureStepLimit(b), false, None))
  }

  /** How far along the lift its step `step` is. */
  function LiftFraction(b: Bundle, step: int): real
    requires b.Valid()
  {
    (step + 1) as real / b.LiftCount() as real
  }

  /** A draft that carries everything but the motion over from the committed state. */
  function PostClosureDraft(b: Bundle, c: Committed, phase: Phase, liftStep: int, template: int, nominal: Joints, target: Joints): Draft {
    Draft(phase, c.preshape, c.closureStep, liftStep, template, nominal, target, c.goal, c.height, c.liveFitSeen,
          c.fullOccluded, c.currentVolume, false, false, PlainCheck, b.cfg.maxTargetStep, false, None)
  }

  function LiftDraft(b: Bundle, c: Committed): Drafting
    requires b.Valid() && c.liftStep >= -1
  {
    if c.capture.None? || c.lift.None? then Stopped(NoCaptureTarget)
    else
      var step := c.liftStep + 1;
      if step >= b.LiftCount() then Stopped(LiftOutOfBounds)
      else
        var template := b.cfg.closureEnd + 1 + step;
        var blend := Blend(LiftFraction(b, step));
        Drafted(PostClosureDraft(b, c, if template == b.cfg.liftEnd then Hold else Lift, step, template,
                                 Along(b.ReferenceGrasp(), b.ReferenceLift(), blend),
                                 Along(c.capture.value, c.lift.value, blend)))
  }

  function HoldDraft(b: Bundle, c: Committed): Drafting
    requires b.Valid()
  {
    if c.capture.None? || c.lift.None? then Stopped(NoCaptureTarget)
    else Drafted(PostClosureDraft(b, c, Hold, c.liftStep, b.cfg.steps - 1, b.ReferenceLift(), c.lift.value))
  }

  /** Perception and goal tracking of an approach or closure tick, then its draft. */
  function TrackingDraft(b: Bundle, c: Committed, index: int, obs: Observation): Drafting
    requires b.Valid() && c.closureStep >= -1
  {
    if !obs.centersFound then Stopped(NoObjectCenter)
    else if b.cfg.mpcCapture && RemainingIntervals(b, c).None? then Stopped(ClosureStepInvalid)
    else
      var height := LockedHeight(b, c, obs.observedHeight);
      match RawGoal(b, c, obs, height)
      case NoGoal(fault) => Stopped(fault)
      case Reached(raw) =>
        var goal := FilteredGoal(b, c, raw);
        if c.phase == Approach then ApproachDraft(b, c, index, obs, goal, height)
        else ClosureDraft(b, c, obs, goal, height)
  }

  function DraftFor(b: Bundle, c: Committed, index: int, obs: Observation): Drafting
    requires b.Valid() && Indexed(b, c)
  {
    match c.phase
    case Approach => TrackingDraft(b, c, index, obs)
    case Closure => TrackingDraft(b, c, index, obs)
    case Lift => LiftDraft(b, c)
    case Hold => HoldDraft(b, c)
  }

  ghost predicate DraftFits(b: Bundle, drafting: Drafting) {
    drafting.Drafted? ==> InTemplate(b, drafting.d.template) && !drafting.d.orientationHold
  }

  lemma ApproachDraftFits(b: Bundle, c: Committed, index: int, obs: Observation, goal: Joints, height: real)
    requires b.Valid() && Indexed(b, c)
    ensures DraftFits(b, ApproachDraft(b, c, index, obs, goal, height))
  {
    hide ApproachTarget;
    hide CaptureGate;
    hide ClosureTarget;
    hide SlewEach;
  }

  lemma ClosureDraftFits(b: Bundle, c: Committed, obs: Observation, goal: Joints, height: real)
    requires b.Valid() && Indexed(b, c)
    ensures DraftFits(b, ClosureDraft(b, c, obs, goal, height))
  {
  }

  lemma DraftsInTemplate(b: Bundle, c: Committed, index: int, obs: Observation)
    requires b.Valid() && Indexed(b, c)
    ensures DraftFor(b, c, index, obs).Drafted? ==>
      InTemplate(b, DraftFor(b, c, index, obs).d.template) && !DraftFor(b, c, index, obs).d.orientationHold
  {
    hide ApproachDraft;
    hide ClosureDraft;
    hide FilteredGoal;
    hide RawGoal;
    hide Along;
    var height := LockedHeight(b, c, obs.observedHeight);
    var raw := RawGoal(b, c, obs, height);
    if raw.Reached? {
      ApproachDraftFits(b, c, index, obs, FilteredGoal(b, c, raw.q), height);
      ClosureDraftFits(b, c, obs, FilteredGoal(b, c, raw.q), height);
    }
  }

  // ---- Staging a proposal -------------------------------------------------------------

  function GraspLift(b: Bundle, capture: Joints): Ik.Outcome {
    Ik.Solve(b.geometry.graspLift(capture), b.lower, b.upper, capture, Ik.REFINED_PASSES)
  }

  function HeightOr0(height: Option<real>): real { if height.Some? then height.value else 0.0 }

  /** A cleared draft becomes a proposal; the last closing sample also fixes capture and lift. */
  function Stage(b: Bundle, c: Committed, sequence: int, d: Draft): Plan {
    var staged := Proposal(sequence, sequence - 1, Minus(d.target, d.nominal), d.target, d.goal, c.capture, c.lift,
                           HeightOr0(d.height), d.liveFitSeen, d.fullOccluded, d.currentVolume, c.forceContact,
                           d.template, d.nominal, d.phase, d.preshape, d.closureStep, d.liftStep,
                           d.orientationHold, d.evidence);
    if !d.captureOnSuccess then Planned(staged, false)
    else match GraspLift(b, d.target)
      case Solved(q) => Planned(staged.(capture := Some(d.target), lift := Some(q)), false)
      case broken => Refused(NoSolution(broken))
  }

  /** The normal tick, with no proposal pending. */
  function NormalPlan(b: Bundle, c: Committed, sequence: int, obs: Observation): Plan
    requires b.Valid() && Indexed(b, c)
  {
    DraftsInTemplate(b, c, sequence - 1, obs);
    match DraftFor(b, c, sequence - 1, obs)
    case Stopped(fault) => Refused(fault)
    case Drafted(d) =>
      match Ladder(b, c, d)
      case Blocked(fault) => Refused(fault)
      case Cleared(e) => Stage(b, c, sequence, e)
  }

  // ---- The occluded closure tick ------------------------------------------------------

  const MAX_OCCLUDED_TICKS: int := 5

  predicate ContactFirstTick(b: Bundle, c: Committed) {
    c.forceContact && c.template == b.cfg.catchIndex - 1 && c.closureStep == -1
  }

  function OccludedAllowance(b: Bundle, c: Committed): int {
    (if c.fullOccluded then b.cfg.closureEnd - b.cfg.catchIndex else MAX_OCCLUDED_TICKS)
    + (if ContactFirstTick(b, c) then 1 else 0)
  }

  predicate OccludedAdmissible(b: Bundle, c: Committed, reasonAllowed: bool) {
    reasonAllowed && b.cfg.mpcCapture && c.phase == Closure
    && 1 <= b.cfg.closureEnd - c.template <= OccludedAllowance(b, c)
  }

  predicate ClosureConsistent(b: Bundle, c: Committed) {
    ContactFirstTick(b, c)
    || (b.cfg.catchIndex <= c.template < b.cfg.closureEnd && c.closureStep == c.template - b.cfg.catchIndex)
  }

  /** Only a temporally committed capture, not a current-volume one, advances the arm. */
  predicate ArmAdvances(c: Committed) { c.fullOccluded && !c.currentVolume }

  function OccludedNominal(b: Bundle, c: Committed): Joints
    requires b.Valid() && -1 <= c.template < b.cfg.steps - 1
  {
    if ArmAdvances(c) then SlewEach(c.nominal, b.recorded[c.template + 1], b.ClosureSlew()) else c.nominal
  }

  function OccludedTarget(b: Bundle, c: Committed): Joints
    requires b.Valid() && -1 <= c.template < b.cfg.steps - 1
  {
    if ArmAdvances(c) then
      SlewEach(c.target, ApproachTarget(b, c, OccludedNominal(b, c), c.goal), b.ClosureSlew())
    else c.target
  }

  function StageOccluded(b: Bundle, c: Committed, sequence: int, nominal: Joints, target: Joints, raised: bool): Plan
    requires b.Valid()
  {
    var template := c.template + 1;
    var step := if ContactFirstTick(b, c) then 0 else c.template - b.cfg.catchIndex + 1;
    var staged := Proposal(sequence, sequence - 1, Minus(target, nominal), target, c.goal, c.capture, c.lift,
                           HeightOr0(c.height), c.liveFitSeen, c.fullOccluded, c.currentVolume, c.forceContact,
                           template, nominal, Closure, c.preshape, step, c.liftStep, false, None);
    if template != b.cfg.closureEnd then Planned(staged, raised)
    else match GraspLift(b, target)
      case Solved(q) => Planned(staged.(phase := Lift, capture := Some(target), lift := Some(q)), raised)
      case broken => Refused(NoSolution(broken))
  }

  function OccludedVerdict(b: Bundle, c: Committed, nominal: Joints, target: Joints): Verdict
    requires b.Valid() && -1 <= c.template < b.cfg.steps - 1
  {
    SafeClosureTarget(b, c.target, nominal, target, HandAt(b, c.template + 1), OpenHand)
  }

  /** The clearance recovery of an occluded tick: raise the committed target and hold its nominal. */
  function RaisedOccluded(b: Bundle, c: Committed, sequence: int, why: Verdict): Plan
    requires b.Valid() && -1 <= c.template < b.cfg.steps - 1 && why.ClearanceConflict?
  {
    if !LiftBounded(b, why.clearance) then Refused(Rejected(why))
    else match RaisedTarget(b, c.target, why.clearance)
      case Solved(q) =>
        var v := OccludedVerdict(b, c, c.nominal, q);
        if v.Safe? then StageOccluded(b, c, sequence, c.nominal, q, true) else Refused(Rejected(v))
      case broken => Refused(NoSolution(broken))
  }

  function OccludedPlan(b: Bundle, c: Committed, sequence: int, reasonAllowed: bool): Plan
    requires b.Valid()
  {
    if !OccludedAdmissible(b, c, reasonAllowed) then Declined
    else if !ClosureConsistent(b, c) then Refused(ClosureInconsistent)
    else
      var v := OccludedVerdict(b, c, OccludedNominal(b, c), OccludedTarget(b, c));
      if v.Safe? then StageOccluded(b, c, sequence, OccludedNominal(b, c), OccludedTarget(b, c), false)
      else if v.ClearanceConflict? then RaisedOccluded(b, c, sequence, v)
      else Refused(Rejected(v))
  }

  // ---- The frozen post-closure tick ---------------------------------------------------

  predicate FrozenAdmissible(b: Bundle, c: Committed, reasonAllowed: bool) {
    reasonAllowed && b.cfg.mpcCapture && (c.phase == Lift || c.phase == Hold)
  }

  function StageFrozen(b: Bundle, c: Committed, sequence: int, phase: Phase, step: int, template: int, nominal: Joints, target: Joints): Plan
    requires InTemplate(b, template)
  {
    var v := SafeTarget(b, c.target, nominal, target, HandAt(b, template));
    if !v.Safe? then Refused(Rejected(v))
    else Planned(Proposal(sequence, sequence - 1, Minus(target, nominal), target, c.goal, c.capture, c.lift,
                          HeightOr0(c.height), c.liveFitSeen, c.fullOccluded, c.currentVolume, c.forceContact,
                          template, nominal, phase, c.preshape, c.closureStep, step, false, None), false)
  }

  function FrozenPlan(b: Bundle, c: Committed, sequence: int, reasonAllowed: bool): Plan
    requires b.Valid() && c.liftStep >= -1
  {
    if !FrozenAdmissible(b, c, reasonAllowed) then Declined
    else if c.capture.None? || c.lift.None? then Refused(NoCaptureTarget)
    else if c.phase == Hold then
      StageFrozen(b, c, sequence, Hold, c.liftStep, b.cfg.steps - 1, b.ReferenceLift(), c.lift.value)
    else if c.liftStep + 1 >= b.LiftCount() then Refused(LiftOutOfBounds)
    else
      var step := c.liftStep + 1;
      var template := b.cfg.closureEnd + 1 + step;
      var blend := Blend(LiftFraction(b, step));
      StageFrozen(b, c, sequence, if template == b.cfg.liftEnd then Hold else Lift, step, template,
                  Along(b.ReferenceGrasp(), b.ReferenceLift(), blend), Along(c.capture.value, c.lift.value, blend))
  }

  // ---- Commit and contact -------------------------------------------------------------

  function CommitOf(b: Bundle, c: Committed, p: Proposal): Committed {
    Committed(p.index, p.template, p.phase, p.preshape, p.closureStep, p.liftStep, p.nominal, p.correction, p.target,
              p.goal, p.capture, p.lift, Some(p.height), p.liveFitSeen, p.fullOccluded, p.currentVolume, p.forceContact,
              p.sequence, p.template == b.cfg.steps - 1, p.orientationHold, p.evidence,
              c.feedbackSequence, c.feedbackForces)
  }

  const CONTACT_FORCE: int := 200
  const CONTACT_DELTA: int := 150
  const CONTACT_AXES: int := 2
  const CONTACT_PLANAR_SHELL: real := 0.105
  const CONTACT_Z_SHELL: real := 0.035

  predicate AxisInContact(before: Hand, now: Hand, axis: int)
    requires 0 <= axis < 6
  {
    Distance(now[axis], 0) >= CONTACT_FORCE && Distance(now[axis], before[axis]) >= CONTACT_DELTA
  }

  /** Contact axes among the four fingers with an index below `n`. */
  function ContactAxes(before: Hand, now: Hand, n: nat): int
    requires n <= 4
  {
    if n == 0 then 0
    else ContactAxes(before, now, n - 1) + (if AxisInContact(before, now, n - 1) then 1 else 0)
  }

  predicate UsableFeedback(f: Feedback) {
    f.isFresh && |f.forces| == 6 && |f.errors| == 6 && forall i :: 0 <= i < 6 ==> f.errors[i] == 0
  }

  predicate ContactEligible(b: Bundle, c: Committed, e: ContactEvidence, before: Hand, now: Hand) {
    && b.cfg.mpcCapture && b.cfg.collisionReplan
    && c.phase == Approach && c.template == b.cfg.catchIndex - 1 && c.closureStep == -1 && c.liveFitSeen
    && e.preshapeReady && e.geometrySafe && e.tip >= b.cfg.minFingertip
    && e.along * e.along + e.cross * e.cross <= CONTACT_PLANAR_SHELL * CONTACT_PLANAR_SHELL
    && Abs(e.z) <= CONTACT_Z_SHELL
    && 0.0 <= e.speed <= b.cfg.adaptiveSpeedMax + 0.000001
    && ContactAxes(before, now, 4) >= CONTACT_AXES
  }

  /** The feedback sample is remembered before anything else is decided. */
  function Remembered(c: Committed, f: Feedback): Committed
    requires UsableFeedback(f)
  {
    c.(feedbackSequence := c.sequence, feedbackForces := Some(f.forces))
  }

  predicate ContactFires(b: Bundle, c: Committed, f: Feedback)
    requires UsableFeedback(f)
  {
    && c.feedbackForces.Some? && c.feedbackSequence == c.sequence - 1 && !c.forceContact
    && c.evidence.Some? && ContactEligible(b, c, c.evidence.value, c.feedbackForces.value, f.forces)
  }

  /** A contact freezes the arm at its committed target and opens the closure. */
  function ContactState(c: Committed, lift: Joints): Committed {
    c.(capture := Some(c.target), lift := Some(lift), phase := Closure,
       fullOccluded := true, currentVolume := true, forceContact := true)
  }

  /** The committed state after feedback on the latest committed sequence. A failed lift solution
      still leaves the sample remembered. */
  function AfterFeedback(b: Bundle, c: Committed, f: Feedback): Committed {
    if !UsableFeedback(f) then c
    else if !ContactFires(b, c, f) then Remembered(c, f)
    else match GraspLift(b, c.target)
      case Solved(q) => ContactState(Remembered(c, f), q)
      case _ => Remembered(c, f)
  }

  function FeedbackReply(b: Bundle, c: Committed, f: Feedback): Reply {
    if UsableFeedback(f) && ContactFires(b, c, f) && !GraspLift(b, c.target).Solved?
    then Raised(NoSolution(GraspLift(b, c.target))) else Done
  }

  // ---- The planner's calls on a whole state -------------------------------------------

  datatype Call =
    | NormalTick(sequence: int, obs: Observation)
    | OccludedTick(sequence: int, reasonAllowed: bool)
    | FrozenTick(sequence: int, reasonAllowed: bool)
    | Commit(sequence: int)
    | Discard(sequence: int)
    | HandFeedback(sequence: int, feedback: Feedback)

  datatype Result = Result(s: State, reply: Reply)

  predicate ProposalIndexed(b: Bundle, p: Proposal) { InTemplate(b, p.template) }

  /** A published command repeats what is pending. */
  function OutputOf(b: Bundle, p: Proposal, raised: bool): Output
    requires ProposalIndexed(b, p)
  {
    Output(p.template, p.target, HandAt(b, p.template), raised)
  }

  lemma NormalPlanIndexed(b: Bundle, c: Committed, sequence: int, obs: Observation)
    requires b.Valid() && Indexed(b, c)
    ensures NormalPlan(b, c, sequence, obs).Planned? ==> ProposalIndexed(b, NormalPlan(b, c, sequence, obs).p)
    ensures !NormalPlan(b, c, sequence, obs).Declined?
  {
    DraftsInTemplate(b, c, sequence - 1, obs);
    hide DraftFor;
    hide Validate;
    match DraftFor(b, c, sequence - 1, obs)
    case Stopped(_) =>
    case Drafted(d) =>
      if Ladder(b, c, d).Cleared? {
        LadderKeepsEnvelopes(b, c, d);
      }
  }

  lemma OccludedPlanIndexed(b: Bundle, c: Committed, sequence: int, reasonAllowed: bool)
    requires b.Valid()
    ensures OccludedPlan(b, c, sequence, reasonAllowed).Planned? ==>
      ProposalIndexed(b, OccludedPlan(b, c, sequence, reasonAllowed).p)
  {
    hide OccludedVerdict;
    hide OccludedTarget;
    hide OccludedNominal;
    hide RaisedTarget;
  }

  lemma FrozenPlanIndexed(b: Bundle, c: Committed, sequence: int, reasonAllowed: bool)
    requires b.Valid() && c.liftStep >= -1
    ensures FrozenPlan(b, c, sequence, reasonAllowed).Planned? ==>
      ProposalIndexed(b, FrozenPlan(b, c, sequence, reasonAllowed).p)
  {
    hide SafeTarget;
    hide Along;
    hide Blend;
  }

  function Staged(b: Bundle, s: State, plan: Plan): Result
    requires plan.Planned? ==> ProposalIndexed(b, plan.p)
  {
    match plan
    case Planned(p, raised) => Result(s.(pending := Some(p)), Published(OutputOf(b, p, raised)))
    case Declined => Result(s, NoReply)
    case Refused(fault) => Result(s, Raised(fault))
  }

  function AfterNormal(b: Bundle, s: State, sequence: int, obs: Observation): Result
    requires b.Valid() && Indexed(b, s.c) && (s.pending.Some? ==> ProposalIndexed(b, s.pending.value))
  {
    if !SequenceInTemplate(b, sequence) then Result(s, Raised(SequenceOutsideTemplate))
    else if !obs.wellFormed then Result(s, Raised(MalformedObservation))
    else match s.pending
      case Some(p) =>
        if p.sequence != sequence then Result(s, Raised(AnotherProposal))
        else Result(s, Published(OutputOf(b, p, false)))
      case None =>
        NormalPlanIndexed(b, s.c, sequence, obs);
        Staged(b, s, NormalPlan(b, s.c, sequence, obs))
  }

  function AfterOccluded(b: Bundle, s: State, sequence: int, reasonAllowed: bool): Result
    requires b.Valid()
  {
    if !SequenceInTemplate(b, sequence) then Result(s, Raised(SequenceOutsideTemplate))
    else if !reasonAllowed || !b.cfg.mpcCapture then Result(s, NoReply)
    else if s.pending.Some? then Result(s, Raised(AnotherProposal))
    else
      OccludedPlanIndexed(b, s.c, sequence, reasonAllowed);
      Staged(b, s, OccludedPlan(b, s.c, sequence, reasonAllowed))
  }

  function AfterFrozen(b: Bundle, s: State, sequence: int, reasonAllowed: bool): Result
    requires b.Valid() && Indexed(b, s.c)
  {
    if !SequenceInTemplate(b, sequence) then Result(s, Raised(SequenceOutsideTemplate))
    else if !reasonAllowed || !b.cfg.mpcCapture then Result(s, NoReply)
    else if s.pending.Some? then Result(s, Raised(AnotherProposal))
    else
      FrozenPlanIndexed(b, s.c, sequence, reasonAllowed);
      Staged(b, s, FrozenPlan(b, s.c, sequence, reasonAllowed))
  }

  function AfterCommit(b: Bundle, s: State, sequence: int): Result {
    if s.pending.None? || s.pending.value.sequence != sequence then Result(s, Raised(CommitMismatch))
    else Result(State(CommitOf(b, s.c, s.pending.value), None), Done)
  }

  function AfterDiscard(s: State, sequence: int): Result {
    if s.pending.None? || s.pending.value.sequence != sequence then Result(s, Raised(DiscardMismatch))
    else Result(s.(pending := None), Done)
  }

  function AfterHandFeedback(b: Bundle, s: State, sequence: int, f: Feedback): Result {
    if sequence != s.c.sequence then Result(s, Raised(FeedbackUnbound))
    else if s.pending.Some? then Result(s, Raised(AnotherProposal))
    else Result(s.(c := AfterFeedback(b, s.c, f)), FeedbackReply(b, s.c, f))
  }

  function Apply(b: Bundle, s: State, call: Call): Result
    requires b.Valid() && Indexed(b, s.c) && (s.pending.Some? ==> ProposalIndexed(b, s.pending.value))
  {
    match call
    case NormalTick(sequence, obs) => AfterNormal(b, s, sequence, obs)
    case OccludedTick(sequence, reasonAllowed) => AfterOccluded(b, s, sequence, reasonAllowed)
    case FrozenTick(sequence, reasonAllowed) => AfterFrozen(b, s, sequence, reasonAllowed)
    case Commit(sequence) => AfterCommit(b, s, sequence)
    case Discard(sequence) => AfterDiscard(s, sequence)
    case HandFeedback(sequence, f) => AfterHandFeedback(b, s, sequence, f)
  }
}
