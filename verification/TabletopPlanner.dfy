/** The planner object: committed fields, one pending slot, and the calls that stage, commit,
    discard or convert to contact. Each call is proved to be its function in TabletopTicks. */
module TabletopPlanner {
  import opened Wrappers
  import opened JointMath
  import opened Scalars
  import opened TabletopModel
  import opened TabletopSafety
  import opened TabletopTicks
  import opened TabletopInvariant
  import MinimumJerk
  import Ik = PoseIk

  class Planner {
    const b: Bundle
    var c: Committed               // the fields written by commits and by contact feedback
    var pending: Option<Proposal>

    function Now(): State
      reads this
    {
      State(c, pending)
    }

    ghost predicate Valid()
      reads this
    {
      b.Valid() && StateOk(b, Now()) && Indexed(b, c) && (pending.Some? ==> ProposalIndexed(b, pending.value))
    }

    constructor (bundle: Bundle)
      requires bundle.Valid()
      ensures Valid() && b == bundle && Now() == State(Initial(bundle), None)
    {
      b := bundle;
      c := Initial(bundle);
      pending := None;
      new;
      InitialOk(b);
    }

    /** Try the candidate workspace scales in order. */
    method AdaptiveGoalForIntercept(solver: real -> Ik.Problem, interceptXY: real, heightCorrection: real) returns (r: Goal)
      requires b.Valid()
      ensures r == AdaptiveGoal(b, c, solver, interceptXY, heightCorrection)
    {
      hide Ik.Solve;
      hide Within;
      if Abs(heightCorrection) > b.cfg.maxPositionZ + ROUNDOFF {
        return NoGoal(InterceptOutsideHeight);
      }
      var limit := b.cfg.maxJointCorrection - b.cfg.correctionReserve;
      if limit <= 0.0 {
        return NoGoal(ReserveInvalid);
      }
      var scales := CandidateScales(b, interceptXY);
      hide CandidateScales;
      var k := 0;
      while k < |scales|
        invariant 0 <= k <= |scales|
        invariant FirstReachable(b, c, solver, scales) == FirstReachable(b, c, solver, scales[k..])
      {
        assert scales[k..][0] == scales[k] && scales[k..][1..] == scales[k + 1..];
        var solved := Ik.PosePreservingJointTarget(solver(scales[k]), b.lower, b.upper, c.goal, true);
        if solved.Solved? && Within(solved.q, b.ReferenceGrasp(), limit + ROUNDOFF) {
          return Reached(solved.q);
        }
        if solved.BadSeed? || solved.Singular? {
          return NoGoal(NoSolution(solved));
        }
        k := k + 1;
      }
      r := NoGoal(InterceptUnreachable);
    }

    /** Height lock, goal choice and goal filter of a tracking tick. */
    method TrackGoal(obs: Observation) returns (heightCorrection: real, tracked: Goal)
      requires b.Valid()
      ensures heightCorrection == LockedHeight(b, c, obs.observedHeight)
      ensures var raw := RawGoal(b, c, obs, heightCorrection);
        tracked == if raw.Reached? then Reached(FilteredGoal(b, c, raw.q)) else raw
    {
      hide AdaptiveGoal;
      if c.height.Some? {
        heightCorrection := c.height.value;
      } else if b.cfg.movingCapture && Abs(obs.observedHeight) > b.cfg.maxPositionZ + ROUNDOFF {
        heightCorrection := 0.0;
      } else {
        heightCorrection := obs.observedHeight;
      }
      if !obs.fitUsable && !c.liveFitSeen {
        tracked := AdaptiveGoalForIntercept(obs.nominalSolver, 0.0, heightCorrection);
      } else if HoldsGoal(b, c, obs) {
        tracked := Reached(c.goal);
      } else {
        tracked := AdaptiveGoalForIntercept(obs.interceptSolver, obs.interceptXY, heightCorrection);
      }
      if tracked.Reached? {
        var step := Along(c.goal, tracked.q, b.cfg.filterAlpha);
        tracked := Reached(SlewEach(c.goal, step, b.cfg.maxCorrectionStep));
      }
    }

    /** Choose the tick's template sample, nominal and target, advancing local copies of the
        phase and counters. */
    method DraftTick(runtimeIndex: int, obs: Observation) returns (r: Drafting)
      requires b.Valid() && Indexed(b, c)
      ensures r == DraftFor(b, c, runtimeIndex, obs)
    {
      hide SlewEach;
      hide Along;
      hide MinimumJerk.Blend;
      hide RawGoal;
      hide FilteredGoal;
      hide CaptureGate;
      if c.phase == Lift || c.phase == Hold {
        r := DraftPostClosure();
        return;
      }
      if !obs.centersFound {
        return Stopped(NoObjectCenter);
      }
      if b.cfg.mpcCapture && RemainingIntervals(b, c).None? {
        return Stopped(ClosureStepInvalid);
      }
      hide RemainingIntervals;
      var heightCorrection, tracked := TrackGoal(obs);
      if tracked.NoGoal? {
        return Stopped(tracked.fault);
      }
      var live := c.liveFitSeen || obs.fitUsable;
      if c.phase == Approach {
        r := DraftApproach(runtimeIndex, obs, tracked.q, heightCorrection, live);
      } else {
        r := DraftClosure(obs, tracked.q, heightCorrection, live);
      }
    }

    method DraftApproach(runtimeIndex: int, obs: Observation, goalQ: Joints, heightCorrection: real, live: bool) returns (r: Drafting)
      requires b.Valid() && live == (c.liveFitSeen || obs.fitUsable)
      ensures r == ApproachDraft(b, c, runtimeIndex, obs, goalQ, heightCorrection)
    {
      hide SlewEach;
      hide ApproachTarget;
      hide CaptureGate;
      hide ClosureTarget;
      hide MeasuredCheck;
      hide ClosureStepLimit;
      var nextPreshape := 0;
      if c.preshape >= 0 {
        nextPreshape := c.preshape + b.cfg.preshapeStep;
        if b.cfg.catchIndex - 1 < nextPreshape {
          nextPreshape := b.cfg.catchIndex - 1;
        }
      }
      var nominalTarget := SlewEach(c.nominal, b.ReferenceApproach(), b.cfg.approachStep);
      var targetQ := ApproachTarget(b, c, nominalTarget, goalQ);
      var ready := nextPreshape >= b.cfg.catchIndex - 1;
      var gate := CaptureGate(b, c, obs, ready);
      var read := Some(obs.contact.(preshapeReady := ready, geometrySafe := obs.gate.geometrySafe));
      if gate.accepted {
        var check, limit;
        targetQ, check, limit := SlewedForClosure(obs, targetQ);
        return Drafted(Draft(Closure, nextPreshape, 0, c.liftStep, b.cfg.catchIndex, nominalTarget, targetQ, goalQ,
                             Some(heightCorrection), live, gate.temporal || gate.volume, gate.volume, false, true,
                             check, limit, false, read));
      }
      if runtimeIndex >= b.LastStart() {
        return Stopped(CaptureDeadline);
      }
      if !b.cfg.movingCapture && !b.cfg.collisionReplan && obs.fitUsable && ready && obs.gate.passed {
        return Stopped(ObjectPassed);
      }
      r := Drafted(Draft(Approach, nextPreshape, c.closureStep, c.liftStep, nextPreshape, nominalTarget, targetQ, goalQ,
                         Some(heightCorrection), live, c.fullOccluded, c.currentVolume, false, false,
                         PlainCheck, b.cfg.maxTargetStep, false, read));
    }

    /** The slew limit and the check of a closing target. */
    method SlewedForClosure(obs: Observation, targetQ: Joints) returns (slewed: Joints, check: Check, limit: real)
      requires b.Valid()
      ensures slewed == ClosureTarget(b, c, targetQ) && check == MeasuredCheck(b, obs) && limit == ClosureStepLimit(b)
    {
      hide SlewEach;
      slewed, check, limit := targetQ, PlainCheck, b.cfg.maxTargetStep;
      if b.cfg.mpcCapture {
        limit := b.ClosureSlew();
        slewed := SlewEach(c.target, targetQ, limit);
        check := ClosureCheck(MeasuredTips(obs.measuredTips));
      }
    }

    method DraftClosure(obs: Observation, goalQ: Joints, heightCorrection: real, live: bool) returns (r: Drafting)
      requires b.Valid() && c.closureStep >= -1 && live == (c.liveFitSeen || obs.fitUsable)
      ensures r == ClosureDraft(b, c, obs, goalQ, heightCorrection)
    {
      hide SlewEach;
      var nextStep := c.closureStep + 1;
      if nextStep >= b.cfg.closureEnd - b.cfg.catchIndex + 1 {
        return Stopped(ClosureOutOfBounds);
      }
      var sample := b.cfg.catchIndex + nextStep;
      var nominalTarget, targetQ := c.nominal, c.target;
      if !c.currentVolume {
        if b.cfg.mpcCapture {
          nominalTarget := SlewEach(c.nominal, b.recorded[sample], b.ClosureSlew());
        } else {
          nominalTarget := SlewEach(c.nominal, b.ReferenceGrasp(), b.cfg.approachStep);
        }
      }
      // The live target replaces the held one even after a current-volume capture.
      targetQ := ApproachTarget(b, c, nominalTarget, goalQ);
      var nextPhase, last := c.phase, false;
      if sample == b.cfg.closureEnd {
        nextPhase, last := Lift, true;
      } else {
        nextPhase := Closure;
      }
      var check, limit;
      targetQ, check, limit := SlewedForClosure(obs, targetQ);
      r := Drafted(Draft(nextPhase, c.preshape, nextStep, c.liftStep, sample, nominalTarget, targetQ, goalQ,
                         Some(heightCorrection), live, c.fullOccluded, c.currentVolume, last, false, check, limit, false, None));
    }

    method DraftPostClosure() returns (r: Drafting)
      requires b.Valid() && c.liftStep >= -1 && (c.phase == Lift || c.phase == Hold)
      ensures r == if c.phase == Lift then LiftDraft(b, c) else HoldDraft(b, c)
    {
      hide Along;
      hide MinimumJerk.Blend;
      if c.capture.None? || c.lift.None? {
        return Stopped(NoCaptureTarget);
      }
      var nextPhase, nextStep, sample := Hold, c.liftStep, b.cfg.steps - 1;
      var nominalTarget, targetQ := b.ReferenceLift(), c.lift.value;
      if c.phase == Lift {
        nextStep := c.liftStep + 1;
        var liftCount := b.cfg.liftEnd - b.cfg.closureEnd;
        if nextStep >= liftCount {
          return Stopped(LiftOutOfBounds);
        }
        sample := b.cfg.closureEnd + 1 + nextStep;
        var blend := MinimumJerk.Blend((nextStep + 1) as real / liftCount as real);
        nominalTarget := Along(b.ReferenceGrasp(), b.ReferenceLift(), blend);
        targetQ := Along(c.capture.value, c.lift.value, blend);
        if sample != b.cfg.liftEnd {
          nextPhase := Lift;
        }
      }
      r := Drafted(PostClosureDraft(b, c, nextPhase, nextStep, sample, nominalTarget, targetQ));
    }

    /** The normal tick. A pending proposal is published again whatever is observed now. */
    method ActionForSequence(seqNo: int, obs: Observation) returns (reply: Reply)
      requires Valid()
      modifies this`pending
      ensures Valid()
      ensures Result(Now(), reply) == AfterNormal(b, old(Now()), seqNo, obs)
    {
      hide StateOk;
      ApplyKeepsState(b, Now(), NormalTick(seqNo, obs));
      if seqNo < 1 || b.cfg.steps < seqNo {
        return Raised(SequenceOutsideTemplate);
      }
      if !obs.wellFormed {
        return Raised(MalformedObservation);
      }
      if pending.Some? {
        if pending.value.sequence != seqNo {
          return Raised(AnotherProposal);
        }
        return Published(OutputOf(b, pending.value, false));
      }
      NormalPlanIndexed(b, c, seqNo, obs);
      var staged := PlanTick(seqNo, obs);
      hide NormalPlan;
      if staged.Refused? {
        return Raised(staged.fault);
      }
      pending := Some(staged.p);
      reply := Published(OutputOf(b, staged.p, staged.raised));
    }

    /** Draft, validate with fallbacks, and fix capture and lift after the last closing sample. */
    method PlanTick(seqNo: int, obs: Observation) returns (r: Plan)
      requires b.Valid() && Indexed(b, c)
      ensures r == NormalPlan(b, c, seqNo, obs)
    {
      hide Ladder;
      hide Stage;
      hide DraftFor;
      DraftsInTemplate(b, c, seqNo - 1, obs);
      var drafted := DraftTick(seqNo - 1, obs);
      if drafted.Stopped? {
        return Refused(drafted.fault);
      }
      var cleared := RunLadder(b, c, drafted.d);
      if cleared.Blocked? {
        return Refused(cleared.fault);
      }
      r := StageTick(seqNo, cleared.d);
    }

    method StageTick(seqNo: int, d: Draft) returns (r: Plan)
      ensures r == Stage(b, c, seqNo, d)
    {
      hide GraspLift;
      hide Minus;
      var captureQ, liftQ := c.capture, c.lift;
      if d.captureOnSuccess {
        var solved := SolveGraspLift(d.target);
        if !solved.Solved? {
          return Refused(NoSolution(solved));
        }
        captureQ, liftQ := Some(d.target), Some(solved.q);
      }
      r := Planned(
        Proposal(seqNo, seqNo - 1, Minus(d.target, d.nominal), d.target, d.goal, captureQ, liftQ,
                 if d.height.Some? then d.height.value else 0.0, d.liveFitSeen, d.fullOccluded, d.currentVolume,
                 c.forceContact, d.template, d.nominal, d.phase, d.preshape, d.closureStep, d.liftStep,
                 d.orientationHold, d.evidence),
        false);
    }

    method SolveGraspLift(from: Joints) returns (r: Ik.Outcome)
      ensures r == GraspLift(b, from)
    {
      hide Ik.Solve;
      r := Ik.PosePreservingJointTarget(b.geometry.graspLift(from), b.lower, b.upper, from, true);
    }

    /** Continue a committed closure without vision. */
    method ActionForOccludedClosure(seqNo: int, reasonAllowed: bool) returns (reply: Reply)
      requires Valid()
      modifies this`pending
      ensures Valid()
      ensures Result(Now(), reply) == AfterOccluded(b, old(Now()), seqNo, reasonAllowed)
    {
      hide StateOk;
      ApplyKeepsState(b, Now(), OccludedTick(seqNo, reasonAllowed));
      OccludedPlanIndexed(b, c, seqNo, reasonAllowed);
      if seqNo < 1 || b.cfg.steps < seqNo {
        return Raised(SequenceOutsideTemplate);
      }
      if !reasonAllowed || !b.cfg.mpcCapture {
        return NoReply;
      }
      if pending.Some? {
        return Raised(AnotherProposal);
      }
      var staged := PlanOccluded(seqNo);
      hide OccludedPlan;
      match staged {
        case Declined => return NoReply;
        case Refused(fault) => return Raised(fault);
        case Planned(p, raised) =>
          pending := Some(p);
          return Published(OutputOf(b, p, raised));
      }
    }

    method PlanOccluded(seqNo: int) returns (r: Plan)
      requires Valid() && b.cfg.mpcCapture
      ensures r == OccludedPlan(b, c, seqNo, true)
    {
      hide StateOk;
      hide SafeClosureTarget;
      hide RaisedTarget;
      hide SlewEach;
      hide StageOccluded;
      hide ApproachTarget;
      if c.phase != Closure {
        return Declined;
      }
      var remaining := b.cfg.closureEnd - c.template;
      var maximum := MAX_OCCLUDED_TICKS;
      if c.fullOccluded {
        maximum := b.cfg.closureEnd - b.cfg.catchIndex;
      }
      var contactFirst := c.forceContact && c.template == b.cfg.catchIndex - 1 && c.closureStep == -1;
      if contactFirst {
        maximum := maximum + 1;
      }
      if remaining < 1 || maximum < remaining {
        return Declined;
      }
      if !contactFirst && (c.template < b.cfg.catchIndex || b.cfg.closureEnd <= c.template
                           || c.closureStep != c.template - b.cfg.catchIndex) {
        return Refused(ClosureInconsistent);
      }
      var nominalTarget, targetQ := c.nominal, c.target;
      if c.fullOccluded && !c.currentVolume {
        nominalTarget := SlewEach(c.nominal, b.recorded[c.template + 1], b.ClosureSlew());
        targetQ := ApproachTarget(b, c, nominalTarget, c.goal);
        targetQ := SlewEach(c.target, targetQ, b.ClosureSlew());
      }
      var hand := HandAt(b, c.template + 1);
      var verdict := SafeClosureTarget(b, c.target, nominalTarget, targetQ, hand, OpenHand);
      if verdict.Safe? {
        r := StageOccludedTick(seqNo, nominalTarget, targetQ, false);
        return;
      }
      if !verdict.ClearanceConflict? || !LiftBounded(b, verdict.clearance) {
        return Refused(Rejected(verdict));
      }
      var raised := SolveRaise(verdict.clearance);
      if !raised.Solved? {
        return Refused(NoSolution(raised));
      }
      var recheck := SafeClosureTarget(b, c.target, c.nominal, raised.q, hand, OpenHand);
      if !recheck.Safe? {
        return Refused(Rejected(recheck));
      }
      r := StageOccludedTick(seqNo, c.nominal, raised.q, true);
    }

    method SolveRaise(clearance: real) returns (r: Ik.Outcome)
      ensures r == RaisedTarget(b, c.target, clearance)
    {
      hide Ik.Solve;
      r := Ik.PosePreservingJointTarget(
        b.geometry.raisePalm(c.target, RequiredLift(b, clearance)), b.lower, b.upper, c.target, true);
    }

    method StageOccludedTick(seqNo: int, nominalTarget: Joints, targetQ: Joints, raised: bool) returns (r: Plan)
      requires b.Valid()
      ensures r == StageOccluded(b, c, seqNo, nominalTarget, targetQ, raised)
    {
      hide GraspLift;
      var sample := c.template + 1;
      var step := if ContactFirstTick(b, c) then 0 else c.template - b.cfg.catchIndex + 1;
      var nextPhase, captureQ, liftQ := Closure, c.capture, c.lift;
      if sample == b.cfg.closureEnd {
        nextPhase := Lift;
        var solved := SolveGraspLift(targetQ);
        if !solved.Solved? {
          return Refused(NoSolution(solved));
        }
        captureQ, liftQ := Some(targetQ), Some(solved.q);
      }
      r := Planned(
        Proposal(seqNo, seqNo - 1, Minus(targetQ, nominalTarget), targetQ, c.goal, captureQ, liftQ,
                 if c.height.Some? then c.height.value else 0.0, c.liveFitSeen, c.fullOccluded, c.currentVolume, c.forceContact,
                 sample, nominalTarget, nextPhase, c.preshape, step, c.liftStep, false, None),
        raised);
    }

    /** Continue the frozen lift or hold without an object cloud. */
    method ActionForFrozenPostClosure(seqNo: int, reasonAllowed: bool) returns (reply: Reply)
      requires Valid()
      modifies this`pending
      ensures Valid()
      ensures Result(Now(), reply) == AfterFrozen(b, old(Now()), seqNo, reasonAllowed)
    {
      hide StateOk;
      hide SafeTarget;
      hide Along;
      hide MinimumJerk.Blend;
      ApplyKeepsState(b, Now(), FrozenTick(seqNo, reasonAllowed));
      FrozenPlanIndexed(b, c, seqNo, reasonAllowed);
      if seqNo < 1 || b.cfg.steps < seqNo {
        return Raised(SequenceOutsideTemplate);
      }
      if !reasonAllowed || !b.cfg.mpcCapture {
        return NoReply;
      }
      if pending.Some? {
        return Raised(AnotherProposal);
      }
      if c.phase != Lift && c.phase != Hold {
        return NoReply;
      }
      if c.capture.None? || c.lift.None? {
        return Raised(NoCaptureTarget);
      }
      var step, sample, nextPhase := c.liftStep, b.cfg.steps - 1, Hold;
      var nominalTarget, targetQ := b.ReferenceLift(), c.lift.value;
      if c.phase == Lift {
        step := step + 1;
        if step >= b.LiftCount() {
          return Raised(LiftOutOfBounds);
        }
        sample := b.cfg.closureEnd + 1 + step;
        var blend := MinimumJerk.Blend((step + 1) as real / b.LiftCount() as real);
        nominalTarget := Along(b.ReferenceGrasp(), b.ReferenceLift(), blend);
        targetQ := Along(c.capture.value, c.lift.value, blend);
        nextPhase := if sample == b.cfg.liftEnd then Hold else Lift;
      }
      var verdict := SafeTarget(b, c.target, nominalTarget, targetQ, HandAt(b, sample));
      if !verdict.Safe? {
        return Raised(Rejected(verdict));
      }
      var p := Proposal(seqNo, seqNo - 1, Minus(targetQ, nominalTarget), targetQ, c.goal, c.capture, c.lift,
                        if c.height.Some? then c.height.value else 0.0, c.liveFitSeen, c.fullOccluded, c.currentVolume,
                        c.forceContact, sample, nominalTarget, nextPhase, c.preshape, c.closureStep, step, false, None);
      assert FrozenPlan(b, c, seqNo, reasonAllowed) == Planned(p, false);
      pending := Some(p);
      reply := Published(OutputOf(b, p, false));
    }

    /** Install exactly the pending proposal. */
    method CommitReplayProposal(seqNo: int) returns (reply: Reply)
      requires Valid()
      modifies this
      ensures Valid()
      ensures Result(Now(), reply) == AfterCommit(b, old(Now()), seqNo)
    {
      hide StateOk;
      ApplyKeepsState(b, Now(), Commit(seqNo));
      StateIsIndexed(b, Apply(b, Now(), Commit(seqNo)).s);
      if pending.None? || pending.value.sequence != seqNo {
        return Raised(CommitMismatch);
      }
      var p := pending.value;
      var next := c.(index := p.index, template := p.template, nominal := p.nominal, phase := p.phase);
      next := next.(preshape := p.preshape, closureStep := p.closureStep, liftStep := p.liftStep);
      next := next.(correction := p.correction, target := p.target, goal := p.goal, capture := p.capture, lift := p.lift);
      next := next.(height := Some(p.height), liveFitSeen := p.liveFitSeen, fullOccluded := p.fullOccluded);
      next := next.(currentVolume := p.currentVolume, forceContact := p.forceContact, sequence := seqNo);
      next := next.(orientationHold := p.orientationHold, evidence := p.evidence);
      c := next.(complete := p.template == b.cfg.steps - 1);
      pending := None;
      reply := Done;
    }

    method DiscardReplayProposal(seqNo: int) returns (reply: Reply)
      requires Valid()
      modifies this`pending
      ensures Valid()
      ensures Result(Now(), reply) == AfterDiscard(old(Now()), seqNo)
    {
      if pending.None? || pending.value.sequence != seqNo {
        return Raised(DiscardMismatch);
      }
      pending := None;
      reply := Done;
    }

    /** Turn multi-finger contact near the object into closure authority at the frozen arm. */
    method CommitFeedbackAfterDualAck(seqNo: int, feedback: Feedback) returns (reply: Reply)
      requires Valid()
      modifies this
      ensures Valid()
      ensures Result(Now(), reply) == AfterHandFeedback(b, old(Now()), seqNo, feedback)
    {
      hide StateOk;
      hide GraspLift;
      hide ContactEligible;
      ApplyKeepsState(b, Now(), HandFeedback(seqNo, feedback));
      if seqNo != c.sequence {
        return Raised(FeedbackUnbound);
      }
      if pending.Some? {
        return Raised(AnotherProposal);
      }
      if !UsableFeedback(feedback) {
        return Done;
      }
      var previousSequence, previousForces := c.feedbackSequence, c.feedbackForces;
      ghost var before := c;
      c := c.(feedbackSequence := seqNo, feedbackForces := Some(feedback.forces));
      if previousForces.None? || previousSequence != seqNo - 1 || c.forceContact || c.evidence.None? {
        return Done;
      }
      var eligible := EligibleContact(c.evidence.value, previousForces.value, feedback.forces);
      assert c == Remembered(before, feedback);
      MemoryIsNotEligibility(b, before, feedback, c.evidence.value, previousForces.value, feedback.forces);
      if !eligible {
        return Done;
      }
      var solved := SolveGraspLift(c.target);
      if !solved.Solved? {
        return Raised(NoSolution(solved));
      }
      c := c.(capture := Some(c.target), lift := Some(solved.q), phase := Closure);
      c := c.(fullOccluded := true, currentVolume := true, forceContact := true);
      reply := Done;
    }

    method EligibleContact(e: ContactEvidence, before: Hand, now: Hand) returns (eligible: bool)
      ensures eligible == ContactEligible(b, c, e, before, now)
    {
      var axes, n := 0, 0;
      while n < 4
        invariant 0 <= n <= 4 && axes == ContactAxes(before, now, n)
      {
        if AxisInContact(before, now, n) {
          axes := axes + 1;
        }
        n := n + 1;
      }
      eligible := b.cfg.mpcCapture && b.cfg.collisionReplan && c.phase == Approach
        && c.template == b.cfg.catchIndex - 1 && c.closureStep == -1 && c.liveFitSeen
        && e.preshapeReady && e.geometrySafe && e.tip >= b.cfg.minFingertip
        && e.along * e.along + e.cross * e.cross <= CONTACT_PLANAR_SHELL * CONTACT_PLANAR_SHELL
        && Abs(e.z) <= CONTACT_Z_SHELL && 0.0 <= e.speed <= b.cfg.adaptiveSpeedMax + 0.000001
        && axes >= CONTACT_AXES;
    }
  }
}
