/** The planner's internal-consistency errors cannot be raised on any run. */
module TabletopErrors {
  import opened Wrappers
  import opened JointMath
  import opened TabletopModel
  import opened TabletopSafety
  import opened TabletopTicks
  import opened TabletopInvariant
  import opened TabletopRuns
  import Ik = PoseIk

  /** Faults that blame the planner's own state rather than its inputs. From the first commit on
      this includes an inverse-kinematics seed outside the joint margin. */
  predicate Internal(c: Committed, fault: Fault) {
    || fault == ClosureStepInvalid || fault == ClosureOutOfBounds || fault == LiftOutOfBounds
    || fault == NoCaptureTarget || fault == ClosureInconsistent
    || (fault == NoSolution(Ik.BadSeed) && c.template >= 0)
  }

  /** The completion horizon always counts the closure samples that are still to come. */
  lemma RemainingCountsClosureSamples(b: Bundle, c: Committed)
    requires b.Valid() && CommittedOk(b, c) && (c.phase == Approach || c.phase == Closure)
    ensures RemainingIntervals(b, c) ==
      Some(if c.phase == Approach then b.ClosureCount() else b.cfg.closureEnd - c.template)
  {
  }

  lemma {:induction false} ReachableSeed(b: Bundle, c: Committed, solver: real -> Ik.Problem, scales: seq<real>)
    requires b.Valid() && Ik.SeedAccepted(c.goal, b.lower, b.upper)
    ensures FirstReachable(b, c, solver, scales).NoGoal? ==>
      var fault := FirstReachable(b, c, solver, scales).fault;
      fault == InterceptUnreachable || fault == NoSolution(Ik.Singular)
  {
    hide InBox;
    hide Within;
    hide Ik.SolveFrom;
    if scales != [] {
      NeverBadSeed(solver(scales[0]), b, c.goal, Ik.REFINED_PASSES);
      ReachableSeed(b, c, solver, scales[1..]);
    }
  }

  lemma {:induction false} NeverBadSeedFrom(p: Ik.Problem, b: Bundle, q: Joints, passes: nat)
    ensures !Ik.SolveFrom(p, b.lower, b.upper, q, passes).BadSeed?
    decreases passes
  {
    if passes > 0 && p.probe(q).Correction? {
      NeverBadSeedFrom(p, b, Ik.Advance(q, p.probe(q).delta, b.lower, b.upper), passes - 1);
    }
  }

  lemma NeverBadSeed(p: Ik.Problem, b: Bundle, seed: Joints, passes: nat)
    requires Ik.SeedAccepted(seed, b.lower, b.upper)
    ensures !Ik.Solve(p, b.lower, b.upper, seed, passes).BadSeed?
  {
    NeverBadSeedFrom(p, b, seed, passes);
    hide Ik.SolveFrom;
  }

  lemma RawGoalFault(b: Bundle, c: Committed, obs: Observation, height: real)
    requires b.Valid() && CommittedOk(b, c) && RawGoal(b, c, obs, height).NoGoal?
    ensures !Internal(c, RawGoal(b, c, obs, height).fault)
  {
    hide FirstReachable;
    hide CandidateScales;
    hide CommandEnveloped;
    hide HoldsGoal;
    hide Within;
    if c.template >= 0 {
      ReachableSeed(b, c, obs.nominalSolver, CandidateScales(b, 0.0));
      ReachableSeed(b, c, obs.interceptSolver, CandidateScales(b, obs.interceptXY));
    } else {
      FaultShapes(b, c, obs.nominalSolver, CandidateScales(b, 0.0));
      FaultShapes(b, c, obs.interceptSolver, CandidateScales(b, obs.interceptXY));
    }
  }

  lemma {:induction false} FaultShapes(b: Bundle, c: Committed, solver: real -> Ik.Problem, scales: seq<real>)
    requires b.Valid()
    ensures FirstReachable(b, c, solver, scales).NoGoal? ==>
      var fault := FirstReachable(b, c, solver, scales).fault;
      fault == InterceptUnreachable || fault.NoSolution?
  {
    hide Ik.Solve;
    hide Within;
    if scales != [] { FaultShapes(b, c, solver, scales[1..]); }
  }

  lemma DraftFault(b: Bundle, c: Committed, index: int, obs: Observation)
    requires b.Valid() && CommittedOk(b, c) && Indexed(b, c) && DraftFor(b, c, index, obs).Stopped?
    ensures !Internal(c, DraftFor(b, c, index, obs).fault)
  {
    if c.phase == Lift || c.phase == Hold {
      PostClosureDraftOk(b, c, index, obs);
    } else {
      RemainingCountsClosureSamples(b, c);
      hide RawGoal;
      hide FilteredGoal;
      hide RemainingIntervals;
      hide ClosureDraft;
      hide CaptureGate;
      hide SlewEach;
      hide CommandEnveloped;
      hide GoalReserved;
      var height := LockedHeight(b, c, obs.observedHeight);
      if RawGoal(b, c, obs, height).NoGoal? {
        RawGoalFault(b, c, obs, height);
      } else if c.phase == Closure {
        TrackedGoalReserved(b, c, obs, height);
        ClosureDraftOk(b, c, index, obs, FilteredGoal(b, c, RawGoal(b, c, obs, height).q), height);
      }
    }
  }

  lemma LadderFault(b: Bundle, c: Committed, d: Draft)
    requires b.Valid() && CommittedOk(b, c) && InTemplate(b, d.template) && c.template < |b.hands|
    requires Ladder(b, c, d).Blocked?
    ensures !Internal(c, Ladder(b, c, d).fault)
  {
    hide Validate;
    hide SafeTarget;
    hide FirstBackoff;
    hide BackoffVerdict;
    hide BackoffTarget;
    hide Ik.Solve;
    hide PhaseIndices;
    hide PhaseEvidence;
    hide LiftInMargin;
    hide Minus;
    if c.template >= 0 {
      forall clearance: real ensures !RaisedTarget(b, c.target, clearance).BadSeed? {
        NeverBadSeed(b.geometry.raisePalm(c.target, RequiredLift(b, clearance)), b, c.target, Ik.REFINED_PASSES);
      }
    }
    hide RaisedTarget;
    hide CommittedOk;
  }

  lemma GraspLiftSeed(b: Bundle, capture: Joints, goal: Joints)
    requires b.Valid() && GoalReserved(b, goal) && InBox(capture, b.lower, b.upper)
    ensures !GraspLift(b, capture).BadSeed?
  {
    NeverBadSeed(b.geometry.graspLift(capture), b, capture, Ik.REFINED_PASSES);
    hide Ik.Solve;
  }

  lemma NormalPlanFault(b: Bundle, c: Committed, sequence: int, obs: Observation)
    requires b.Valid() && CommittedOk(b, c) && Indexed(b, c) && NormalPlan(b, c, sequence, obs).Refused?
    ensures !Internal(c, NormalPlan(b, c, sequence, obs).fault)
  {
    hide CommittedOk;
    hide GraspLift;
    DraftsInTemplate(b, c, sequence - 1, obs);
    if DraftFor(b, c, sequence - 1, obs).Stopped? {
      DraftFault(b, c, sequence - 1, obs);
    } else {
      var d := DraftFor(b, c, sequence - 1, obs).d;
      if Ladder(b, c, d).Blocked? {
        LadderFault(b, c, d);
      } else {
        DraftForOk(b, c, sequence - 1, obs);
        LadderDraftOk(b, c, sequence - 1, d);
        var e := Ladder(b, c, d).d;
        assert GoalReserved(b, e.goal) && InBox(e.target, b.lower, b.upper);
        GraspLiftSeed(b, e.target, e.goal);
      }
    }
    hide DraftFor;
    hide Ladder;
    hide DraftOk;
    hide Enveloped;
  }

  lemma BlindPlanFault(b: Bundle, c: Committed, sequence: int, reasonAllowed: bool)
    requires b.Valid() && CommittedOk(b, c) && Indexed(b, c)
    ensures var plan := OccludedPlan(b, c, sequence, reasonAllowed); plan.Refused? ==> !Internal(c, plan.fault)
    ensures var plan := FrozenPlan(b, c, sequence, reasonAllowed); plan.Refused? ==> !Internal(c, plan.fault)
  {
    if OccludedAdmissible(b, c, reasonAllowed) {
      OccludedFault(b, c, sequence);
    }
    if FrozenAdmissible(b, c, reasonAllowed) {
      FrozenFault(b, c, sequence);
    }
    hide CommittedOk;
  }

  lemma OccludedFault(b: Bundle, c: Committed, sequence: int)
    requires b.Valid() && CommittedOk(b, c) && OccludedAdmissible(b, c, true)
    ensures var plan := OccludedPlan(b, c, sequence, true); plan.Refused? ==> !Internal(c, plan.fault)
  {
    hide OccludedNominal;
    hide OccludedTarget;
    hide Minus;
    var v := OccludedVerdict(b, c, OccludedNominal(b, c), OccludedTarget(b, c));
    if v.Safe? {
      SafeMeansEnveloped(b, ClosureCheck(OpenHand), c.target, OccludedNominal(b, c), OccludedTarget(b, c), HandAt(b, c.template + 1));
      GraspLiftSeed(b, OccludedTarget(b, c), c.goal);
    } else if v.ClearanceConflict? {
      NeverBadSeed(b.geometry.raisePalm(c.target, RequiredLift(b, v.clearance)), b, c.target, Ik.REFINED_PASSES);
      var r := RaisedTarget(b, c.target, v.clearance);
      if r.Solved? && OccludedVerdict(b, c, c.nominal, r.q).Safe? {
        SafeMeansEnveloped(b, ClosureCheck(OpenHand), c.target, c.nominal, r.q, HandAt(b, c.template + 1));
        GraspLiftSeed(b, r.q, c.goal);
      }
    }
    hide OccludedVerdict;
    hide SafeClosureTarget;
    hide SafeTarget;
    hide RaisedTarget;
    hide GraspLift;
    hide Enveloped;
    hide CommandEnveloped;
    hide GoalReserved;
  }

  lemma FrozenFault(b: Bundle, c: Committed, sequence: int)
    requires b.Valid() && CommittedOk(b, c) && Indexed(b, c) && FrozenAdmissible(b, c, true)
    ensures var plan := FrozenPlan(b, c, sequence, true); plan.Refused? ==> !Internal(c, plan.fault)
  {
  }

  /** On every run, no call raises an internal fault: the out-of-bounds, missing-capture and
      inconsistent-closure errors are dead code, and so is a seed outside the joint margin once
      anything has been committed. */
  lemma NoInternalFault(b: Bundle, calls: seq<Call>, call: Call)
    requires b.Valid()
    ensures var s := Run(b, calls).s; var reply := ReplyTo(b, s, call);
      reply.Raised? ==> !Internal(s.c, reply.fault)
  {
    hide Run;
    hide NormalPlan;
    hide OccludedPlan;
    hide FrozenPlan;
    hide FeedbackReply;
    hide AfterFeedback;
    hide CommittedOk;
    hide ProposalOk;
    var s := Run(b, calls).s;
    StateIsIndexed(b, s);
    match call
    case NormalTick(sequence, obs) =>
      NormalPlanIndexed(b, s.c, sequence, obs);
      if NormalPlan(b, s.c, sequence, obs).Refused? { NormalPlanFault(b, s.c, sequence, obs); }
    case OccludedTick(sequence, reasonAllowed) =>
      OccludedPlanIndexed(b, s.c, sequence, reasonAllowed);
      BlindPlanFault(b, s.c, sequence, reasonAllowed);
    case FrozenTick(sequence, reasonAllowed) =>
      FrozenPlanIndexed(b, s.c, sequence, reasonAllowed);
      BlindPlanFault(b, s.c, sequence, reasonAllowed);
    case Commit(sequence) =>
    case Discard(sequence) =>
    case HandFeedback(sequence, f) =>
      if FeedbackReply(b, s.c, f).Raised? { FeedbackFault(b, s.c, f); }
  }

  lemma FeedbackFault(b: Bundle, c: Committed, f: Feedback)
    requires b.Valid() && CommittedOk(b, c) && FeedbackReply(b, c, f).Raised?
    ensures !Internal(c, FeedbackReply(b, c, f).fault)
  {
    hide ContactAxes;
    if c.template >= 0 {
      GraspLiftSeed(b, c.target, c.goal);
    }
    hide GraspLift;
    hide CommandEnveloped;
    hide GoalReserved;
  }
}
