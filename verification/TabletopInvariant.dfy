/** What every reachable planner state satisfies, and why each call keeps it. */
module TabletopInvariant {
  import opened Wrappers
  import opened JointMath
  import opened TabletopModel
  import opened TabletopSafety
  import opened TabletopTicks
  import MinimumJerk
  import Ik = PoseIk

  // ---- The committed state ------------------------------------------------------------

  /** Phase, template index and step counters agree. The one closure state outside the closure's
      templates is the contact sentinel: contact has been committed, the next tick closes. */
  ghost predicate PhaseIndices(b: Bundle, phase: Phase, template: int, preshape: int, closureStep: int, liftStep: int, contact: bool) {
    var C, E, L, N := b.cfg.catchIndex, b.cfg.closureEnd, b.cfg.liftEnd, b.cfg.steps;
    match phase
    case Approach =>
      -1 <= template == preshape <= C - 1 && closureStep == liftStep == -1
    case Closure =>
      preshape == C - 1 && liftStep == -1
      && if closureStep == -1 then template == C - 1 && contact
         else C <= template == C + closureStep < E
    case Lift =>
      preshape == C - 1 && closureStep == E - C && -1 <= liftStep
      && template == E + 1 + liftStep < L
    case Hold =>
      preshape == C - 1 && closureStep == E - C && liftStep == L - E - 1
      && (template == L || template == N - 1)
  }

  /** Which evidence and which targets each phase has already committed. */
  ghost predicate PhaseEvidence(b: Bundle, c: Committed) {
    && (c.phase == Approach ==> c.capture.None? && c.lift.None? && !c.fullOccluded && !c.currentVolume && !c.forceContact)
    && (c.phase != Approach ==> c.liveFitSeen)
    && (c.phase == Lift || c.phase == Hold ==> c.capture.Some? && c.lift.Some?)
    && (c.phase == Lift && c.liftStep == -1 ==> c.capture == Some(c.target))
    && (c.forceContact ==> b.cfg.mpcCapture && c.fullOccluded && c.currentVolume && c.capture.Some? && c.lift.Some?)
    && (c.currentVolume ==> b.cfg.mpcCapture && c.fullOccluded)
    && (c.template == -1 ==> !c.liveFitSeen && c.height.None? && !c.orientationHold && c.evidence.None?)
    && (c.template >= 0 ==> c.height.Some?)
  }

  /** Capture and lift targets, once fixed, lie inside the joint margin, and the lift target solves the
      lift of the palm from that very capture. */
  ghost predicate LiftInMargin(b: Bundle, c: Committed) {
    && (c.capture.Some? ==> InBox(c.capture.value, b.lower, b.upper))
    && (c.lift.Some? ==> InBox(c.lift.value, b.lower, b.upper))
    && (c.lift.Some? ==> c.capture.Some? && b.geometry.graspLift(c.capture.value).probe(c.lift.value).Converged?)
  }

  /** Every tracked goal is an accepted inverse-kinematics seed, that is inside proper margins, and
      inside the reserved correction envelope. */
  ghost predicate GoalReserved(b: Bundle, goal: Joints)
    requires b.Valid()
  {
    && Ik.SeedAccepted(goal, b.lower, b.upper)
    && Within(goal, b.ReferenceGrasp(), b.CorrectionLimit() + ROUNDOFF)
  }

  /** The last committed command is enveloped against some earlier target. */
  ghost predicate CommandEnveloped(b: Bundle, c: Committed)
    requires InTemplate(b, c.template)
  {
    && InBox(c.target, b.lower, b.upper)
    && exists before :: Enveloped(b, before, c.nominal, c.target, HandAt(b, c.template))
  }

  ghost predicate CommittedOk(b: Bundle, c: Committed)
    requires b.Valid()
  {
    && PhaseIndices(b, c.phase, c.template, c.preshape, c.closureStep, c.liftStep, c.forceContact)
    && PhaseEvidence(b, c)
    && LiftInMargin(b, c)
    && c.correction == Minus(c.target, c.nominal)
    && (c.complete <==> c.template == b.cfg.steps - 1)
    && (c.template == -1 ==> c.goal == b.ReferenceGrasp())
    && (c.template >= 0 ==> CommandEnveloped(b, c) && GoalReserved(b, c.goal))
    && c.index == c.sequence - 1
  }

  /** How template indices follow one another across a commit. */
  predicate Follows(b: Bundle, before: int, after: int) {
    var C, L, N := b.cfg.catchIndex, b.cfg.liftEnd, b.cfg.steps;
    if before == -1 then after == 0
    else if before < C then
      after == before || after == (if C - 1 < before + b.cfg.preshapeStep then C - 1 else before + b.cfg.preshapeStep)
      || (after == C && C - 1 <= before + b.cfg.preshapeStep)
    else if before < L then after == before + 1
    else after == N - 1
  }

  /** What a staged proposal promises about the commit it would make. */
  ghost predicate ProposalOk(b: Bundle, c: Committed, p: Proposal)
    requires b.Valid()
  {
    && CommittedOk(b, CommitOf(b, c, p))
    && InTemplate(b, p.template)
    && Enveloped(b, c.target, p.nominal, p.target, HandAt(b, p.template))
    && (p.orientationHold ==> !c.orientationHold)
    && Follows(b, c.template, p.template)
    && (p.template < b.cfg.catchIndex ==> p.index < b.LastStart())
    && (c.forceContact <==> p.forceContact)
    && (c.height.Some? ==> p.height == c.height.value)
    && (c.liveFitSeen ==> p.liveFitSeen)
    && (c.phase == Closure ==> p.template == c.template + 1)
    && (c.phase != Approach ==> p.phase != Approach)
  }

  ghost predicate StateOk(b: Bundle, s: State)
    requires b.Valid()
  {
    CommittedOk(b, s.c) && (s.pending.Some? ==> ProposalOk(b, s.c, s.pending.value))
  }

  lemma CommittedIsIndexed(b: Bundle, c: Committed)
    requires b.Valid() && CommittedOk(b, c)
    ensures Indexed(b, c) && -1 <= c.template < b.cfg.steps && c.liftStep < b.LiftCount()
  {
  }

  lemma StateIsIndexed(b: Bundle, s: State)
    requires b.Valid() && StateOk(b, s)
    ensures Indexed(b, s.c) && (s.pending.Some? ==> ProposalIndexed(b, s.pending.value))
  {
  }

  lemma MemoryIsNotEligibility(b: Bundle, c: Committed, f: Feedback, e: ContactEvidence, before: Hand, now: Hand)
    requires UsableFeedback(f)
    ensures ContactEligible(b, Remembered(c, f), e, before, now) == ContactEligible(b, c, e, before, now)
  {
  }

  // ---- Goals --------------------------------------------------------------------------

  lemma {:induction false} ReachedIsReserved(b: Bundle, c: Committed, solver: real -> Ik.Problem, scales: seq<real>)
    requires b.Valid()
    ensures FirstReachable(b, c, solver, scales).Reached? ==>
      var q := FirstReachable(b, c, solver, scales).q;
      && Ik.SeedAccepted(c.goal, b.lower, b.upper)
      && InBox(q, b.lower, b.upper) && Within(q, b.ReferenceGrasp(), b.CorrectionLimit() + ROUNDOFF)
  {
    hide InBox;
    hide Within;
    if scales != [] {
      var r := Ik.Solve(solver(scales[0]), b.lower, b.upper, c.goal, Ik.REFINED_PASSES);
      if r.Solved? {
        Ik.SolvedTarget(solver(scales[0]), b.lower, b.upper, c.goal, Ik.REFINED_PASSES);
      }
      hide Ik.SolveFrom;
      ReachedIsReserved(b, c, solver, scales[1..]);
    }
  }

  /** A goal that is tracked stays reserved: the filter moves it between itself and a raw goal
      that is reserved, starting from the reference grasp. */
  lemma TrackedGoalReserved(b: Bundle, c: Committed, obs: Observation, height: real)
    requires b.Valid() && CommittedOk(b, c) && RawGoal(b, c, obs, height).Reached?
    ensures GoalReserved(b, FilteredGoal(b, c, RawGoal(b, c, obs, height).q))
  {
    hide FirstReachable;
    hide CommandEnveloped;
    var raw := RawGoal(b, c, obs, height).q;
    ReachedIsReserved(b, c, obs.nominalSolver, CandidateScales(b, 0.0));
    ReachedIsReserved(b, c, obs.interceptSolver, CandidateScales(b, obs.interceptXY));
    hide CandidateScales;
    if c.template == -1 {
      WithinSelf(c.goal, b.CorrectionLimit() + ROUNDOFF);
    }
    FilterStaysReserved(b, c, raw);
  }

  lemma FilterStaysReserved(b: Bundle, c: Committed, raw: Joints)
    requires b.Valid() && GoalReserved(b, c.goal) && GoalReserved(b, raw)
    ensures GoalReserved(b, FilteredGoal(b, c, raw))
  {
    var step := Along(c.goal, raw, b.cfg.filterAlpha);
    AlongIsBetween(c.goal, raw, b.cfg.filterAlpha);
    SlewLandsBetween(c.goal, step, b.cfg.maxCorrectionStep);
    var goal := FilteredGoal(b, c, raw);
    BetweenStaysInBox(step, c.goal, raw, b.lower, b.upper);
    BetweenStaysWithin(step, c.goal, raw, b.ReferenceGrasp(), b.CorrectionLimit() + ROUNDOFF);
    BetweenStaysInBox(goal, c.goal, step, b.lower, b.upper);
    BetweenStaysWithin(goal, c.goal, step, b.ReferenceGrasp(), b.CorrectionLimit() + ROUNDOFF);
  }

  // ---- Normal ticks -------------------------------------------------------------------

  /** What a draft of a normal tick promises before and after the ladder. */
  ghost predicate DraftOk(b: Bundle, c: Committed, index: int, d: Draft)
    requires b.Valid()
  {
    && PhaseIndices(b, d.phase, d.template, d.preshape, d.closureStep, d.liftStep, c.forceContact)
    && 0 <= d.template && Follows(b, c.template, d.template)
    && (d.template < b.cfg.catchIndex ==> index < b.LastStart())
    && GoalReserved(b, d.goal)
    && d.height.Some? && (c.height.Some? ==> d.height == c.height)
    && (c.liveFitSeen || d.phase != Approach ==> d.liveFitSeen)
    && (d.phase == Approach ==> !d.fullOccluded && !d.currentVolume && !c.forceContact)
    && (d.currentVolume ==> b.cfg.mpcCapture && d.fullOccluded)
    && (c.forceContact ==> d.fullOccluded && d.currentVolume)
    && (d.phase == Approach ==> c.phase == Approach)
    && (d.captureOnSuccess ==> d.phase == Lift)
    && (d.phase == Lift && d.liftStep == -1 ==> d.captureOnSuccess)
    && (c.phase == Closure ==> d.template == c.template + 1)
    && (d.phase == Lift || d.phase == Hold ==> d.captureOnSuccess || c.phase == Lift || c.phase == Hold)
  }

  lemma AcceptedNeedsLiveMotion(b: Bundle, c: Committed, obs: Observation, ready: bool)
    requires CaptureGate(b, c, obs, ready).accepted
    ensures ready && (c.liveFitSeen || obs.fitUsable)
  {
  }

  lemma ApproachDraftOk(b: Bundle, c: Committed, index: int, obs: Observation, goal: Joints, height: real)
    requires b.Valid() && CommittedOk(b, c) && c.phase == Approach
    requires GoalReserved(b, goal) && (c.height.Some? ==> c.height == Some(height))
    requires ApproachDraft(b, c, index, obs, goal, height).Drafted?
    ensures DraftOk(b, c, index, ApproachDraft(b, c, index, obs, goal, height).d)
  {
    hide GoalReserved;
    hide CommandEnveloped;
    hide SlewEach;
    hide ApproachTarget;
    hide ClosureTarget;
    var ready := NextPreshape(b, c) >= b.cfg.catchIndex - 1;
    if CaptureGate(b, c, obs, ready).accepted {
      AcceptedNeedsLiveMotion(b, c, obs, ready);
      VolumeNeedsMpc(b, c, obs, ready);
    }
    hide CaptureGate;
  }

  lemma VolumeNeedsMpc(b: Bundle, c: Committed, obs: Observation, ready: bool)
    ensures CaptureGate(b, c, obs, ready).volume ==> b.cfg.mpcCapture
  {
  }

  lemma ClosureDraftOk(b: Bundle, c: Committed, index: int, obs: Observation, goal: Joints, height: real)
    requires b.Valid() && CommittedOk(b, c) && c.phase == Closure
    requires GoalReserved(b, goal) && (c.height.Some? ==> c.height == Some(height))
    ensures ClosureDraft(b, c, obs, goal, height).Drafted?
    ensures DraftOk(b, c, index, ClosureDraft(b, c, obs, goal, height).d)
  {
  }

  lemma PostClosureDraftOk(b: Bundle, c: Committed, index: int, obs: Observation)
    requires b.Valid() && CommittedOk(b, c) && (c.phase == Lift || c.phase == Hold)
    ensures DraftFor(b, c, index, obs).Drafted? && DraftOk(b, c, index, DraftFor(b, c, index, obs).d)
  {
    hide GoalReserved;
    hide CommandEnveloped;
    hide MinimumJerk.Blend;
    hide Along;
  }

  lemma DraftForOk(b: Bundle, c: Committed, index: int, obs: Observation)
    requires b.Valid() && CommittedOk(b, c) && Indexed(b, c) && DraftFor(b, c, index, obs).Drafted?
    ensures DraftOk(b, c, index, DraftFor(b, c, index, obs).d)
  {
    if c.phase == Lift || c.phase == Hold {
      PostClosureDraftOk(b, c, index, obs);
    } else {
      hide CommittedOk;
      hide FilteredGoal;
      hide RawGoal;
      hide DraftOk;
      hide ApproachDraft;
      hide ClosureDraft;
      hide GoalReserved;
      var height := LockedHeight(b, c, obs.observedHeight);
      TrackedGoalReserved(b, c, obs, height);
      var goal := FilteredGoal(b, c, RawGoal(b, c, obs, height).q);
      if c.phase == Approach {
        ApproachDraftOk(b, c, index, obs, goal, height);
      } else {
        ClosureDraftOk(b, c, index, obs, goal, height);
      }
    }
  }

  /** Freezing the approach is a draft as good as the one it replaces. */
  lemma FrozenDraftOk(b: Bundle, c: Committed, index: int, d: Draft)
    requires b.Valid() && CommittedOk(b, c) && DraftOk(b, c, index, d) && MayFreezeSome(c, d)
    ensures DraftOk(b, c, index, FrozenApproach(c, d))
  {
  }

  lemma LadderDraftOk(b: Bundle, c: Committed, index: int, d: Draft)
    requires b.Valid() && CommittedOk(b, c) && Indexed(b, c) && InTemplate(b, d.template)
    requires DraftOk(b, c, index, d) && !d.orientationHold && Ladder(b, c, d).Cleared?
    ensures var e := Ladder(b, c, d).d;
      && DraftOk(b, c, index, e) && InTemplate(b, e.template)
      && Enveloped(b, c.target, e.nominal, e.target, HandAt(b, e.template))
      && (e.orientationHold ==> !c.orientationHold)
  {
    hide Enveloped;
    hide CommittedOk;
    LadderKeepsEnvelopes(b, c, d);
    hide Ladder;
    if MayFreezeSome(c, d) {
      FrozenDraftOk(b, c, index, d);
    }
    hide Follows;
    hide PhaseIndices;
    hide GoalReserved;
  }

  lemma StageOk(b: Bundle, c: Committed, sequence: int, d: Draft)
    requires b.Valid() && CommittedOk(b, c) && Indexed(b, c)
    requires DraftOk(b, c, sequence - 1, d) && InTemplate(b, d.template)
    requires Enveloped(b, c.target, d.nominal, d.target, HandAt(b, d.template))
    requires d.orientationHold ==> !c.orientationHold
    requires Stage(b, c, sequence, d).Planned?
    ensures ProposalOk(b, c, Stage(b, c, sequence, d).p)
  {
    hide Follows;
    hide PhaseIndices;
    hide GoalReserved;
    hide Minus;
    GraspLiftInMargin(b, d.target);
    hide GraspLift;
    var p := Stage(b, c, sequence, d).p;
    assert InBox(d.target, b.lower, b.upper);
    EnvelopedCommand(b, c.target, CommitOf(b, c, p));
    hide InBox;
    hide Enveloped;
    hide CommandEnveloped;
  }

  /** The lift target solved from a capture is inside the joint margin and meets the lift. */
  lemma GraspLiftInMargin(b: Bundle, capture: Joints)
    ensures GraspLift(b, capture).Solved? ==>
      && InBox(capture, b.lower, b.upper) && InBox(GraspLift(b, capture).q, b.lower, b.upper)
      && b.geometry.graspLift(capture).probe(GraspLift(b, capture).q).Converged?
  {
    hide Ik.SolveFrom;
    if GraspLift(b, capture).Solved? {
      Ik.SolvedTarget(b.geometry.graspLift(capture), b.lower, b.upper, capture, Ik.REFINED_PASSES);
    }
  }

  lemma EnvelopedCommand(b: Bundle, before: Joints, c: Committed)
    requires InTemplate(b, c.template) && Enveloped(b, before, c.nominal, c.target, HandAt(b, c.template))
    ensures CommandEnveloped(b, c)
  {
  }

  lemma NormalPlanOk(b: Bundle, c: Committed, sequence: int, obs: Observation)
    requires b.Valid() && CommittedOk(b, c) && Indexed(b, c) && NormalPlan(b, c, sequence, obs).Planned?
    ensures ProposalOk(b, c, NormalPlan(b, c, sequence, obs).p)
  {
    DraftsInTemplate(b, c, sequence - 1, obs);
    DraftForOk(b, c, sequence - 1, obs);
    hide DraftFor;
    hide DraftOk;
    hide ProposalOk;
    hide CommittedOk;
    var d := DraftFor(b, c, sequence - 1, obs).d;
    LadderDraftOk(b, c, sequence - 1, d);
    hide Ladder;
    hide Enveloped;
    StageOk(b, c, sequence, Ladder(b, c, d).d);
    hide Stage;
  }

  // ---- Occluded and frozen ticks ------------------------------------------------------

  lemma StagedOccludedOk(b: Bundle, c: Committed, sequence: int, nominal: Joints, target: Joints, raised: bool)
    requires b.Valid() && CommittedOk(b, c) && c.phase == Closure
    requires Enveloped(b, c.target, nominal, target, HandAt(b, c.template + 1))
    requires StageOccluded(b, c, sequence, nominal, target, raised).Planned?
    ensures ProposalOk(b, c, StageOccluded(b, c, sequence, nominal, target, raised).p)
    ensures StageOccluded(b, c, sequence, nominal, target, raised).p.target == target
  {
    var p := StageOccluded(b, c, sequence, nominal, target, raised).p;
    GraspLiftInMargin(b, target);
    hide GraspLift;
    hide Minus;
    assert InBox(target, b.lower, b.upper);
    EnvelopedCommand(b, c.target, CommitOf(b, c, p));
    hide GoalReserved;
    hide InBox;
    hide Enveloped;
    hide CommandEnveloped;
  }

  lemma OccludedPlanOk(b: Bundle, c: Committed, sequence: int, reasonAllowed: bool)
    requires b.Valid() && CommittedOk(b, c) && OccludedPlan(b, c, sequence, reasonAllowed).Planned?
    ensures ProposalOk(b, c, OccludedPlan(b, c, sequence, reasonAllowed).p)
    ensures b.geometry.fingertip(OccludedPlan(b, c, sequence, reasonAllowed).p.target, b.hands[b.cfg.catchIndex - 1]) >= b.cfg.minFingertip
  {
    hide ProposalOk;
    hide StageOccluded;
    hide RaisedTarget;
    hide OccludedNominal;
    hide OccludedTarget;
    hide CommandEnveloped;
    hide GoalReserved;
    var hand := HandAt(b, c.template + 1);
    var v := OccludedVerdict(b, c, OccludedNominal(b, c), OccludedTarget(b, c));
    if v.Safe? {
      SafeMeansEnveloped(b, ClosureCheck(OpenHand), c.target, OccludedNominal(b, c), OccludedTarget(b, c), hand);
      StagedOccludedOk(b, c, sequence, OccludedNominal(b, c), OccludedTarget(b, c), false);
    } else {
      var q := RaisedTarget(b, c.target, v.clearance).q;
      SafeMeansEnveloped(b, ClosureCheck(OpenHand), c.target, c.nominal, q, hand);
      StagedOccludedOk(b, c, sequence, c.nominal, q, true);
    }
  }

  lemma StagedFrozenOk(b: Bundle, c: Committed, sequence: int, phase: Phase, step: int, template: int, nominal: Joints, target: Joints)
    requires b.Valid() && CommittedOk(b, c) && (c.phase == Lift || c.phase == Hold)
    requires PhaseIndices(b, phase, template, c.preshape, c.closureStep, step, c.forceContact)
    requires (phase == Lift || phase == Hold) && InTemplate(b, template) && Follows(b, c.template, template)
    requires b.cfg.catchIndex <= template && (phase == Lift ==> step >= 0)
    requires StageFrozen(b, c, sequence, phase, step, template, nominal, target).Planned?
    ensures ProposalOk(b, c, StageFrozen(b, c, sequence, phase, step, template, nominal, target).p)
  {
    hide Minus;
    hide Follows;
    var p := StageFrozen(b, c, sequence, phase, step, template, nominal, target).p;
    PlainSafeMeansEnveloped(b, c.target, nominal, target, HandAt(b, template));
    EnvelopedCommand(b, c.target, CommitOf(b, c, p));
    hide GoalReserved;
    hide Enveloped;
    hide SafeTarget;
    hide CommandEnveloped;
    hide PhaseIndices;
  }

  lemma FrozenPlanOk(b: Bundle, c: Committed, sequence: int, reasonAllowed: bool)
    requires b.Valid() && CommittedOk(b, c) && Indexed(b, c) && FrozenPlan(b, c, sequence, reasonAllowed).Planned?
    ensures ProposalOk(b, c, FrozenPlan(b, c, sequence, reasonAllowed).p)
  {
    hide ProposalOk;
    hide StageFrozen;
    hide CommandEnveloped;
    hide GoalReserved;
    hide Along;
    hide MinimumJerk.Blend;
    if c.phase == Hold {
      StagedFrozenOk(b, c, sequence, Hold, c.liftStep, b.cfg.steps - 1, b.ReferenceLift(), c.lift.value);
    } else {
      var step := c.liftStep + 1;
      var template := b.cfg.closureEnd + 1 + step;
      var blend := MinimumJerk.Blend(LiftFraction(b, step));
      StagedFrozenOk(b, c, sequence, if template == b.cfg.liftEnd then Hold else Lift, step, template,
                     Along(b.ReferenceGrasp(), b.ReferenceLift(), blend), Along(c.capture.value, c.lift.value, blend));
    }
  }

  // ---- Contact, and every call --------------------------------------------------------

  lemma FeedbackKeepsCommitted(b: Bundle, c: Committed, f: Feedback)
    requires b.Valid() && CommittedOk(b, c)
    ensures CommittedOk(b, AfterFeedback(b, c, f))
  {
    GraspLiftInMargin(b, c.target);
    hide GraspLift;
    hide GoalReserved;
    hide InBox;
    hide Enveloped;
    hide ContactAxes;
  }

  lemma InitialOk(b: Bundle)
    requires b.Valid()
    ensures StateOk(b, State(Initial(b), None))
  {
  }

  /** Every call, whether it succeeds, declines or raises, keeps the invariant. */
  lemma ApplyKeepsState(b: Bundle, s: State, call: Call)
    requires b.Valid() && StateOk(b, s)
    requires Indexed(b, s.c) && (s.pending.Some? ==> ProposalIndexed(b, s.pending.value))
    ensures StateOk(b, Apply(b, s, call).s)
  {
    hide CommittedOk;
    match call
    case NormalTick(sequence, obs) =>
      NormalPlanIndexed(b, s.c, sequence, obs);
      if NormalPlan(b, s.c, sequence, obs).Planned? { NormalPlanOk(b, s.c, sequence, obs); }
      hide NormalPlan;
      hide ProposalOk;
    case OccludedTick(sequence, reasonAllowed) =>
      OccludedPlanIndexed(b, s.c, sequence, reasonAllowed);
      if OccludedPlan(b, s.c, sequence, reasonAllowed).Planned? { OccludedPlanOk(b, s.c, sequence, reasonAllowed); }
      hide OccludedPlan;
      hide ProposalOk;
    case FrozenTick(sequence, reasonAllowed) =>
      FrozenPlanIndexed(b, s.c, sequence, reasonAllowed);
      if FrozenPlan(b, s.c, sequence, reasonAllowed).Planned? { FrozenPlanOk(b, s.c, sequence, reasonAllowed); }
      hide FrozenPlan;
      hide ProposalOk;
    case Commit(sequence) =>
    case Discard(sequence) =>
    case HandFeedback(sequence, f) =>
      FeedbackKeepsCommitted(b, s.c, f);
      hide AfterFeedback;
      hide ProposalOk;
  }
}
