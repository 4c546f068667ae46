/** What a visual approach tick decides, in terms of what it observes: when the hand closes, which
    capture is committed, how the open hand advances, which goal is tracked. */
module TabletopDecisions {
  import opened Wrappers
  import opened JointMath
  import opened Scalars
  import opened TabletopModel
  import opened TabletopSafety
  import opened TabletopTicks
  import opened TabletopInvariant
  import opened TabletopRuns
  import opened TabletopOrigins
  import Ik = PoseIk

  // ---- Closing the hand ---------------------------------------------------------------

  /** The next open-hand sample is the last one before the catch. */
  predicate PreshapeDone(b: Bundle, c: Committed) {
    c.preshape >= 0 && c.preshape + b.cfg.preshapeStep >= b.cfg.catchIndex - 1
  }

  /** A live fit sees the object inside the measured open hand (version 5 with collision replanning). */
  predicate InOpenHand(b: Bundle, obs: Observation) {
    && b.cfg.mpcCapture && b.cfg.collisionReplan
    && obs.fitUsable && obs.gate.speedAlong && obs.gate.inVolume
  }

  /** The object moves along the track, seen live or by a fit good enough to go on with, and meets the
      hand in time: at the projected instant in version 5, inside the time-to-contact window before. */
  predicate Meets(b: Bundle, c: Committed, obs: Observation) {
    && obs.gate.speedAlong
    && (obs.fitUsable || (b.cfg.mpcCapture && b.cfg.collisionReplan && c.liveFitSeen && obs.gate.degradedFit))
    && (if b.cfg.mpcCapture then obs.gate.alongTight else obs.gate.alongWindow)
  }

  /** The object rests in reach of an arm that has arrived. */
  predicate Rests(c: Committed, obs: Observation) { c.liveFitSeen && obs.gate.stationary && obs.gate.armReady }

  predicate MayClose(b: Bundle, c: Committed, obs: Observation) {
    && PreshapeDone(b, c) && obs.gate.geometrySafe
    && (InOpenHand(b, obs)
        || (obs.gate.inCorridor && (Rests(c, obs) || (Meets(b, c, obs) && (b.cfg.movingCapture || obs.gate.armReady)))))
  }

  lemma GateIsMayClose(b: Bundle, c: Committed, obs: Observation)
    requires b.Valid() && c.phase == Approach && c.preshape <= b.cfg.catchIndex - 1
    ensures var ready := NextPreshape(b, c) >= b.cfg.catchIndex - 1; var gate := CaptureGate(b, c, obs, ready);
      && (ready <==> PreshapeDone(b, c))
      && (gate.accepted <==> MayClose(b, c, obs))
      && (gate.volume <==> MayClose(b, c, obs) && InOpenHand(b, obs))
      && (gate.temporal <==> MayClose(b, c, obs) && b.cfg.mpcCapture && Meets(b, c, obs))
  {
  }

  /** The open-hand sample after the committed one. */
  function NextOpenSample(b: Bundle, c: Committed): int {
    if c.preshape < 0 then 0
    else if c.preshape + b.cfg.preshapeStep < b.cfg.catchIndex - 1 then c.preshape + b.cfg.preshapeStep
    else b.cfg.catchIndex - 1
  }

  /** What a tracked approach drafts: a capture, a refusal at the deadline or for an object that has
      passed, or the next open-hand sample. */
  ghost predicate ApproachDrafts(b: Bundle, c: Committed, index: int, obs: Observation, drafting: Drafting)
    requires b.Valid()
  {
    if MayClose(b, c, obs) then
      && drafting.Drafted? && drafting.d.phase == Closure && drafting.d.gateAccepted
      && drafting.d.template == b.cfg.catchIndex && drafting.d.closureStep == 0 && drafting.d.preshape == b.cfg.catchIndex - 1
      && (drafting.d.fullOccluded <==> InOpenHand(b, obs) || (b.cfg.mpcCapture && Meets(b, c, obs)))
      && (drafting.d.currentVolume <==> InOpenHand(b, obs))
    else if index >= b.cfg.steps - (b.cfg.closureEnd - b.cfg.catchIndex + 1) - (b.cfg.liftEnd - b.cfg.closureEnd) then
      drafting == Stopped(CaptureDeadline)
    else if !b.cfg.movingCapture && !b.cfg.collisionReplan && obs.fitUsable && PreshapeDone(b, c) && obs.gate.passed then
      drafting == Stopped(ObjectPassed)
    else
      && drafting.Drafted? && drafting.d.phase == Approach && !drafting.d.gateAccepted
      && drafting.d.template == drafting.d.preshape == NextOpenSample(b, c)
      && !drafting.d.fullOccluded && !drafting.d.currentVolume
  }

  lemma ApproachDraftsAsObserved(b: Bundle, c: Committed, index: int, obs: Observation, goal: Joints, height: real)
    requires b.Valid() && CommittedOk(b, c) && c.phase == Approach
    ensures ApproachDrafts(b, c, index, obs, ApproachDraft(b, c, index, obs, goal, height))
    ensures var drafting := ApproachDraft(b, c, index, obs, goal, height);
      drafting.Drafted? ==> (drafting.d.liveFitSeen <==> c.liveFitSeen || obs.fitUsable) && drafting.d.height == Some(height) && drafting.d.goal == goal
  {
    hide CaptureGate;
    hide InOpenHand;
    hide Rests;
    hide Meets;
    hide ApproachTarget;
    hide ClosureTarget;
    hide SlewEach;
    hide CommandEnveloped;
    hide GoalReserved;
    hide LiftInMargin;
    GateIsMayClose(b, c, obs);
  }

  lemma DraftedAsObserved(b: Bundle, c: Committed, index: int, obs: Observation)
    requires b.Valid() && CommittedOk(b, c) && Indexed(b, c) && c.phase == Approach && obs.centersFound
    requires RawGoal(b, c, obs, LockedHeight(b, c, obs.observedHeight)).Reached?
    ensures ApproachDrafts(b, c, index, obs, DraftFor(b, c, index, obs))
    ensures DraftFor(b, c, index, obs).Drafted? ==>
      var d := DraftFor(b, c, index, obs).d;
      (d.liveFitSeen <==> c.liveFitSeen || obs.fitUsable) && d.height == Some(LockedHeight(b, c, obs.observedHeight))
  {
    hide CommittedOk;
    hide ApproachDraft;
    hide ApproachDrafts;
    hide RawGoal;
    hide FilteredGoal;
    hide LockedHeight;
    var height := LockedHeight(b, c, obs.observedHeight);
    ApproachDraftsAsObserved(b, c, index, obs, FilteredGoal(b, c, RawGoal(b, c, obs, height).q), height);
  }

  /** A visual tick at the deadline that may not close is refused, and only then. */
  lemma DeadlineRefusedIff(b: Bundle, c: Committed, sequence: int, obs: Observation)
    requires b.Valid() && CommittedOk(b, c) && Indexed(b, c) && c.phase == Approach && obs.centersFound
    requires RawGoal(b, c, obs, LockedHeight(b, c, obs.observedHeight)).Reached?
    ensures NormalPlan(b, c, sequence, obs) == Refused(CaptureDeadline) <==>
      !MayClose(b, c, obs) && sequence - 1 >= b.cfg.steps - (b.cfg.closureEnd - b.cfg.catchIndex + 1) - (b.cfg.liftEnd - b.cfg.closureEnd)
  {
    hide CommittedOk;
    hide DraftFor;
    hide MayClose;
    hide InOpenHand;
    hide Meets;
    hide PreshapeDone;
    hide Ladder;
    DraftedAsObserved(b, c, sequence - 1, obs);
    DraftsInTemplate(b, c, sequence - 1, obs);
    if DraftFor(b, c, sequence - 1, obs).Drafted? {
      var d := DraftFor(b, c, sequence - 1, obs).d;
      LadderFaultKinds(b, c, d);
      hide GraspLift;
    }
  }

  lemma LadderFaultKinds(b: Bundle, c: Committed, d: Draft)
    requires b.Valid() && InTemplate(b, d.template) && c.template < |b.hands|
    ensures Ladder(b, c, d).Blocked? ==> Ladder(b, c, d).fault.Rejected? || Ladder(b, c, d).fault.NoSolution?
  {
    hide Validate;
    hide SafeTarget;
    hide RaisedTarget;
    hide BackoffTarget;
    FirstBackoffIsFirst(b, c, d, 0);
  }

  /** What a staged tick makes of an approach. */
  ghost predicate ClosesAsObserved(b: Bundle, c: Committed, obs: Observation, after: Committed)
    requires b.Valid()
  {
    && (after.phase == Closure <==> MayClose(b, c, obs))
    && (after.liveFitSeen <==> c.liveFitSeen || obs.fitUsable)
    && (if MayClose(b, c, obs) then
          && after.template == b.cfg.catchIndex && after.closureStep == 0 && after.preshape == b.cfg.catchIndex - 1
          && (after.fullOccluded <==> InOpenHand(b, obs) || (b.cfg.mpcCapture && Meets(b, c, obs)))
          && (after.currentVolume <==> InOpenHand(b, obs))
        else
          && after.phase == Approach && !after.fullOccluded && !after.currentVolume
          && after.template == after.preshape
          && (after.template == NextOpenSample(b, c) || (after.template == c.template && after.target == c.target)))
  }

  /** A staged visual tick leaves the approach for the closure if and only if the preshape is done, the
      hand clears the table, and the object is inside the open hand, or in the corridor and meeting the
      hand or at rest in reach of it; and it commits full occlusion and a current-volume capture on
      exactly the evidence for each. Otherwise the open hand advances by its preshape step, or the
      whole command is kept. */
  lemma VisualTickClosesIff(b: Bundle, c: Committed, sequence: int, obs: Observation)
    requires b.Valid() && CommittedOk(b, c) && Indexed(b, c) && c.phase == Approach
    requires NormalPlan(b, c, sequence, obs).Planned?
    ensures ClosesAsObserved(b, c, obs, CommitOf(b, c, NormalPlan(b, c, sequence, obs).p))
  {
    hide CommittedOk;
    hide DraftFor;
    hide MayClose;
    hide InOpenHand;
    hide Meets;
    hide Ladder;
    hide NextOpenSample;
    hide Validate;
    hide Enveloped;
    PlannedIsTracked(b, c, sequence, obs);
    DraftedAsObserved(b, c, sequence - 1, obs);
    DraftsInTemplate(b, c, sequence - 1, obs);
    var d := DraftFor(b, c, sequence - 1, obs).d;
    LadderKeepsEnvelopes(b, c, d);
    StagedKeepsDraft(b, c, sequence, Ladder(b, c, d).d);
    ApproachSample(b, c);
    hide Stage;
  }

  lemma ApproachSample(b: Bundle, c: Committed)
    requires b.Valid() && CommittedOk(b, c) && c.phase == Approach
    ensures c.template == c.preshape
  {
    hide CommandEnveloped;
    hide GoalReserved;
    hide LiftInMargin;
    hide PhaseEvidence;
  }

  lemma PlannedIsTracked(b: Bundle, c: Committed, sequence: int, obs: Observation)
    requires b.Valid() && Indexed(b, c) && c.phase == Approach && NormalPlan(b, c, sequence, obs).Planned?
    ensures obs.centersFound && RawGoal(b, c, obs, LockedHeight(b, c, obs.observedHeight)).Reached?
    ensures DraftFor(b, c, sequence - 1, obs).Drafted?
  {
    hide RawGoal;
    hide LockedHeight;
    hide ApproachDraft;
    hide ClosureDraft;
    hide Ladder;
    hide GraspLift;
  }

  lemma StagedKeepsDraft(b: Bundle, c: Committed, sequence: int, e: Draft)
    requires Stage(b, c, sequence, e).Planned?
    ensures var p := Stage(b, c, sequence, e).p;
      && p.phase == e.phase && p.template == e.template && p.preshape == e.preshape && p.closureStep == e.closureStep
      && p.liveFitSeen == e.liveFitSeen && p.fullOccluded == e.fullOccluded && p.currentVolume == e.currentVolume
      && p.target == e.target && p.nominal == e.nominal && p.height == HeightOr0(e.height)
  {
    hide GraspLift;
    hide Minus;
  }

  /** A call and then its commit, made after `calls`. */
  function ThenCommitted(calls: seq<Call>, call: Call, sequence: int): seq<Call> { calls + [call, Commit(sequence)] }

  /** A published tick with nothing pending before it is its plan, and its commit logs that plan. */
  lemma CommittedPlan(b: Bundle, calls: seq<Call>, call: Call, sequence: int, plan: Plan)
    requires b.Valid() && !call.Commit? && Run(b, calls).s.pending.None?
    requires plan.Planned? ==> ProposalIndexed(b, plan.p) && plan.p.sequence == sequence
    requires StateAfter(b, Run(b, calls).s, call) == Staged(b, Run(b, calls).s, plan).s && plan.Planned?
    ensures var z' := Run(b, ThenCommitted(calls, call, sequence));
      z'.s.c == CommitOf(b, Run(b, calls).s.c, plan.p) && z'.log == Run(b, calls).log + [z'.s.c]
  {
    hide CommitOf;
    hide StateOk;
    var whole := ThenCommitted(calls, call, sequence);
    assert whole[..|whole| - 1] == calls + [call] && (calls + [call])[..|calls|] == calls;
    RunExtends(b, whole);
    RunExtends(b, calls + [call]);
    NextLogs(b, Run(b, calls), call);
    hide Run;
    StateIsIndexed(b, Run(b, calls + [call]).s);
  }

  /** On every run: a visual tick that is published in the approach with nothing pending, and committed,
      closes the hand if and only if what it observed allows it. */
  lemma RunClosesIff(b: Bundle, calls: seq<Call>, sequence: int, obs: Observation)
    requires b.Valid()
    requires var s := Run(b, calls).s; s.pending.None? && s.c.phase == Approach
    requires ReplyTo(b, Run(b, calls).s, NormalTick(sequence, obs)).Published?
    ensures var z, z' := Run(b, calls), Run(b, ThenCommitted(calls, NormalTick(sequence, obs), sequence));
      z'.log == z.log + [z'.s.c] && ClosesAsObserved(b, z.s.c, obs, z'.s.c)
  {
    hide Run;
    hide ClosesAsObserved;
    hide NormalPlan;
    hide StateOk;
    hide CommitOf;
    hide ThenCommitted;
    var s := Run(b, calls).s;
    StateIsIndexed(b, s);
    CommittedFromState(b, s);
    NormalPlanIndexed(b, s.c, sequence, obs);
    PlansCarryTheirSequence(b, s.c, sequence, obs);
    VisualTickClosesIff(b, s.c, sequence, obs);
    CommittedPlan(b, calls, NormalTick(sequence, obs), sequence, NormalPlan(b, s.c, sequence, obs));
    hide CommittedOk;
  }

  lemma CommittedFromState(b: Bundle, s: State)
    requires b.Valid() && StateOk(b, s)
    ensures CommittedOk(b, s.c)
  {
  }

  // ---- The goal -----------------------------------------------------------------------

  /** Inverse kinematics solves the problem inside the reserve around the grasp. */
  ghost predicate SolvesTo(b: Bundle, c: Committed, p: Ik.Problem, q: Joints)
    requires b.Valid()
  {
    && Ik.Solve(p, b.lower, b.upper, c.goal, Ik.REFINED_PASSES) == Ik.Solved(q)
    && Within(q, b.ReferenceGrasp(), b.cfg.maxJointCorrection - b.cfg.correctionReserve + ROUNDOFF)
  }

  /** It does not converge, or lands outside the reserve. */
  ghost predicate Misses(b: Bundle, c: Committed, p: Ik.Problem)
    requires b.Valid()
  {
    var r := Ik.Solve(p, b.lower, b.upper, c.goal, Ik.REFINED_PASSES);
    r.NotConverged? || (r.Solved? && !Within(r.q, b.ReferenceGrasp(), b.cfg.maxJointCorrection - b.cfg.correctionReserve + ROUNDOFF))
  }

  lemma FirstScale(b: Bundle, c: Committed, solver: real -> Ik.Problem, scales: seq<real>, q: Joints)
    requires b.Valid() && scales != []
    ensures SolvesTo(b, c, solver(scales[0]), q) ==> FirstReachable(b, c, solver, scales) == Reached(q)
    ensures Misses(b, c, solver(scales[0])) ==> FirstReachable(b, c, solver, scales) == FirstReachable(b, c, solver, scales[1..])
  {
    hide Ik.Solve;
    hide Within;
  }

  /** The full workspace scale is tried first, or three quarters of it for a far intercept when
      collisions are replanned; then half of it; then, for a near intercept only, none. A problem that
      is missed moves on to the next scale, and missing them all refuses the intercept. */
  lemma ScalesAreTriedInOrder(b: Bundle, c: Committed, solver: real -> Ik.Problem, xy: real, height: real, q: Joints)
    requires b.Valid() && Abs(height) <= b.cfg.maxPositionZ + ROUNDOFF
    requires b.cfg.maxJointCorrection > b.cfg.correctionReserve
    ensures var far := b.cfg.movingCapture && xy > 0.45 * b.cfg.maxPositionXY;
      var first := solver(if far && b.cfg.collisionReplan then 0.75 else 1.0);
      var goal := AdaptiveGoal(b, c, solver, xy, height);
      && (SolvesTo(b, c, first, q) ==> goal == Reached(q))
      && (Misses(b, c, first) && SolvesTo(b, c, solver(0.5), q) ==> goal == Reached(q))
      && (Misses(b, c, first) && Misses(b, c, solver(0.5)) && far ==> goal == NoGoal(InterceptUnreachable))
      && (Misses(b, c, first) && Misses(b, c, solver(0.5)) && !far && SolvesTo(b, c, solver(0.0), q) ==> goal == Reached(q))
      && (Misses(b, c, first) && Misses(b, c, solver(0.5)) && !far && Misses(b, c, solver(0.0)) ==> goal == NoGoal(InterceptUnreachable))
  {
    hide SolvesTo;
    hide Misses;
    hide FirstReachable;
    var scales := CandidateScales(b, xy);
    FirstScale(b, c, solver, scales, q);
    FirstScale(b, c, solver, scales[1..], q);
    if |scales| == 3 {
      FirstScale(b, c, solver, scales[2..], q);
      assert scales[1..][1..] == scales[2..] && scales[2..][1..] == [];
    } else {
      assert scales[1..][1..] == [];
    }
    NoScaleLeft(b, c, solver);
  }

  lemma NoScaleLeft(b: Bundle, c: Committed, solver: real -> Ik.Problem)
    requires b.Valid()
    ensures FirstReachable(b, c, solver, []) == NoGoal(InterceptUnreachable)
  {
  }

  /** A height outside the limit, or a reserve that leaves nothing, refuses every intercept. */
  lemma NoGoalOutsideLimits(b: Bundle, c: Committed, solver: real -> Ik.Problem, xy: real, height: real)
    requires b.Valid()
    ensures Abs(height) > b.cfg.maxPositionZ + ROUNDOFF ==> AdaptiveGoal(b, c, solver, xy, height) == NoGoal(InterceptOutsideHeight)
    ensures Abs(height) <= b.cfg.maxPositionZ + ROUNDOFF && b.cfg.maxJointCorrection <= b.cfg.correctionReserve ==>
      AdaptiveGoal(b, c, solver, xy, height) == NoGoal(ReserveInvalid)
  {
    hide FirstReachable;
  }

  /** A usable fit is always tracked. Without one the nominal intercept is tracked until live motion has
      been seen; after that the last goal is kept, except that a moving-capture closure still solves
      the intercept it is given. */
  lemma GoalIsTracked(b: Bundle, c: Committed, obs: Observation, height: real)
    requires b.Valid() && CommittedOk(b, c) && (c.phase == Approach || c.phase == Closure)
    ensures RawGoal(b, c, obs, height) ==
      if obs.fitUsable || (c.phase == Closure && b.cfg.movingCapture) then AdaptiveGoal(b, c, obs.interceptSolver, obs.interceptXY, height)
      else if c.liveFitSeen then Reached(c.goal)
      else AdaptiveGoal(b, c, obs.nominalSolver, 0.0, height)
  {
    hide AdaptiveGoal;
    hide CommandEnveloped;
    hide GoalReserved;
    hide LiftInMargin;
  }

  /** Outside the height limit on either side. */
  predicate OutOfBand(b: Bundle, height: real) {
    height > b.cfg.maxPositionZ + ROUNDOFF || height < -(b.cfg.maxPositionZ + ROUNDOFF)
  }

  /** The table height is that of the first committed observation, taken as zero by the moving-capture
      versions when it is outside the limit, and never changes again. */
  lemma HeightIsFirstSeen(b: Bundle, c: Committed, observed: real)
    requires b.Valid() && CommittedOk(b, c)
    ensures c.template >= 0 ==> Some(LockedHeight(b, c, observed)) == c.height
    ensures c.template == -1 ==>
      LockedHeight(b, c, observed) == if b.cfg.movingCapture && OutOfBand(b, observed) then 0.0 else observed
  {
    hide CommandEnveloped;
    hide GoalReserved;
    hide LiftInMargin;
    hide PhaseIndices;
  }
}
