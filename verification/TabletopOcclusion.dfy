/** Ticks without vision: when they are admitted, what they keep, how they agree with normal
    ticks, and how contact opens the closure. */
module TabletopOcclusion {
  import opened Wrappers
  import opened JointMath
  import opened TabletopModel
  import opened TabletopSafety
  import opened TabletopTicks
  import opened TabletopInvariant
  import opened TabletopRuns
  import opened TabletopErrors
  import opened TabletopTheorems
  import opened Products
  import opened Scalars
  import MinimumJerk
  import Ik = PoseIk

  // ---- Admission ----------------------------------------------------------------------

  /** Exactly when an occluded tick declines: a reason that is not admitted, a bundle that is not
      version 5, a phase other than closure, or a visually committed closure with more than five
      samples to go. A closure committed for full occlusion is never declined. */
  lemma OccludedDeclinesIff(b: Bundle, c: Committed, sequence: int, reasonAllowed: bool)
    requires b.Valid() && CommittedOk(b, c)
    ensures OccludedPlan(b, c, sequence, reasonAllowed).Declined? <==>
      !reasonAllowed || !b.cfg.mpcCapture || c.phase != Closure
      || (!c.fullOccluded && b.cfg.closureEnd - c.template > MAX_OCCLUDED_TICKS)
  {
    hide OccludedVerdict;
    hide OccludedTarget;
    hide OccludedNominal;
    hide RaisedTarget;
    hide GraspLift;
    hide CommandEnveloped;
    hide GoalReserved;
  }

  /** The tick that carries the grasp on without vision. */
  function BlindPlan(b: Bundle, c: Committed): Plan
    requires b.Valid() && c.liftStep >= -1
  {
    if c.phase == Closure then OccludedPlan(b, c, c.sequence + 1, true)
    else FrozenPlan(b, c, c.sequence + 1, true)
  }

  /** A state from which blind ticks are meant to finish the grasp. */
  ghost predicate Carried(b: Bundle, c: Committed)
    requires b.Valid()
  {
    CommittedOk(b, c) && b.cfg.mpcCapture && c.phase != Approach && (c.phase == Closure ==> c.fullOccluded)
  }

  /** The call that makes it, under the next sequence number. */
  function BlindCall(c: Committed): Call {
    if c.phase == Closure then OccludedTick(c.sequence + 1, true) else FrozenTick(c.sequence + 1, true)
  }

  /** The state and reply after a blind call with an empty slot. */
  function AfterBlind(b: Bundle, c: Committed): Result
    requires b.Valid() && Indexed(b, c)
  {
    Apply(b, State(c, None), BlindCall(c))
  }

  /** A blind call that is published, and its commit. */
  ghost predicate BlindStep(b: Bundle, c: Committed, next: Committed)
    requires b.Valid()
  {
    && Indexed(b, c) && AfterBlind(b, c).reply.Published?
    && AfterCommit(b, AfterBlind(b, c).s, c.sequence + 1) == Result(State(next, None), Done)
  }

  /** Commits made by blind calls alone, each planned from the one before. */
  ghost predicate BlindChain(b: Bundle, cs: seq<Committed>)
    requires b.Valid()
  {
    && cs != []
    && forall i :: 0 <= i < |cs| - 1 ==> BlindStep(b, cs[i], cs[i + 1])
  }

  /** A blind call inside the template stages exactly its plan. */
  lemma BlindCallStages(b: Bundle, c: Committed)
    requires b.Valid() && Indexed(b, c) && b.cfg.mpcCapture
    ensures BlindPlan(b, c).Planned? ==> ProposalIndexed(b, BlindPlan(b, c).p)
    ensures AfterBlind(b, c) ==
      if SequenceInTemplate(b, c.sequence + 1) then Staged(b, State(c, None), BlindPlan(b, c))
      else Result(State(c, None), Raised(SequenceOutsideTemplate))
  {
    hide OccludedPlan;
    hide FrozenPlan;
    hide Staged;
    hide ProposalIndexed;
    OccludedPlanIndexed(b, c, c.sequence + 1, true);
    FrozenPlanIndexed(b, c, c.sequence + 1, true);
  }

  /** It publishes exactly when it stages; the commit then installs that plan. */
  lemma BlindCallIsPlan(b: Bundle, c: Committed)
    requires b.Valid() && Indexed(b, c) && b.cfg.mpcCapture
    ensures AfterBlind(b, c).reply.Published? <==> SequenceInTemplate(b, c.sequence + 1) && BlindPlan(b, c).Planned?
    ensures AfterBlind(b, c).reply.Published? ==>
      && AfterBlind(b, c).reply.output.raised == BlindPlan(b, c).raised
      && AfterCommit(b, AfterBlind(b, c).s, c.sequence + 1) == Result(State(CommitOf(b, c, BlindPlan(b, c).p), None), Done)
    ensures SequenceInTemplate(b, c.sequence + 1) ==>
      match BlindPlan(b, c)
      case Planned(_, _) => AfterBlind(b, c).reply.Published?
      case Declined => AfterBlind(b, c).reply.NoReply?
      case Refused(fault) => AfterBlind(b, c).reply == Raised(fault)
  {
    hide AfterBlind;
    hide BlindPlan;
    hide Staged;
    hide AfterCommit;
    hide CommitOf;
    hide ProposalIndexed;
    BlindCallStages(b, c);
    BlindPlanSequence(b, c);
    StagedReplies(b, c, BlindPlan(b, c), c.sequence + 1);
  }

  lemma BlindPlanSequence(b: Bundle, c: Committed)
    requires b.Valid() && Indexed(b, c)
    ensures BlindPlan(b, c).Planned? ==> BlindPlan(b, c).p.sequence == c.sequence + 1
  {
    hide OccludedPlan;
    hide FrozenPlan;
    BlindPlansCarryTheirSequence(b, c, c.sequence + 1, true);
  }

  lemma StagedReplies(b: Bundle, c: Committed, plan: Plan, sequence: int)
    requires plan.Planned? ==> ProposalIndexed(b, plan.p) && plan.p.sequence == sequence
    ensures var r := Staged(b, State(c, None), plan);
      match plan
      case Planned(p, raised) =>
        r.reply.Published? && r.reply.output.raised == raised && AfterCommit(b, r.s, sequence) == Result(State(CommitOf(b, c, p), None), Done)
      case Declined => r.reply.NoReply?
      case Refused(fault) => r.reply == Raised(fault)
  {
    hide CommitOf;
  }

  /** An envelope rejected the target, or inverse kinematics found none from a seed in the margin. */
  predicate FromOutside(c: Committed, fault: Fault) {
    (fault.Rejected? || fault.NoSolution?) && !Internal(c, fault)
  }

  /** Once full occlusion is committed in time, a blind call is never declined, never out of sequence
      and never hits an internal error: it is published, or refused for an envelope or an
      inverse-kinematics failure. Committed, it advances exactly one template sample and stays in
      time, until the hand is at the lift end. */
  lemma BlindTickCarries(b: Bundle, c: Committed)
    requires b.Valid() && Carried(b, c) && Indexed(b, c) && OnTime(b, c) && c.template < b.cfg.liftEnd
    ensures var reply := AfterBlind(b, c).reply;
      reply.Published? || (reply.Raised? && FromOutside(c, reply.fault))
    ensures AfterBlind(b, c).reply.Published? ==>
      var next := AfterCommit(b, AfterBlind(b, c).s, c.sequence + 1).s.c;
      && BlindStep(b, c, next) && Carried(b, next) && Indexed(b, next) && OnTime(b, next)
      && next.template == c.template + 1 && (next.phase == Hold <==> next.template == b.cfg.liftEnd)
  {
    hide OccludedPlan;
    hide FrozenPlan;
    hide AfterBlind;
    hide CommitOf;
    hide CommittedOk;
    BlindCallIsPlan(b, c);
    BlindPlanCarries(b, c);
    if BlindPlan(b, c).Refused? { BlindFaultKinds(b, c); }
    hide BlindPlan;
  }

  lemma BlindFaultKinds(b: Bundle, c: Committed)
    requires b.Valid() && Indexed(b, c) && BlindPlan(b, c).Refused?
    ensures var fault := BlindPlan(b, c).fault; fault.Rejected? || fault.NoSolution? || Internal(c, fault)
  {
    hide OccludedVerdict;
    hide OccludedTarget;
    hide OccludedNominal;
    hide RaisedTarget;
    hide GraspLift;
    hide SafeTarget;
    hide Along;
    hide MinimumJerk.Blend;
  }

  /** The plan of a blind tick is never declined and blames nothing internal; staged, it advances one
      template sample, or repeats the final hold. */
  lemma BlindPlanCarries(b: Bundle, c: Committed)
    requires b.Valid() && Carried(b, c) && Indexed(b, c)
    ensures !BlindPlan(b, c).Declined?
    ensures BlindPlan(b, c).Refused? ==> !Internal(c, BlindPlan(b, c).fault)
    ensures BlindPlan(b, c).Planned? ==>
      var next := CommitOf(b, c, BlindPlan(b, c).p);
      && Carried(b, next) && Indexed(b, next) && next.sequence == c.sequence + 1
      && next.template == (if c.template < b.cfg.liftEnd then c.template + 1 else b.cfg.steps - 1)
      && (next.phase == Hold <==> c.template >= b.cfg.liftEnd - 1)
  {
    hide CommittedOk;
    hide ProposalOk;
    hide OccludedPlan;
    hide FrozenPlan;
    OccludedDeclinesIff(b, c, c.sequence + 1, true);
    BlindPlanFault(b, c, c.sequence + 1, true);
    BlindFlags(b, c);
    if c.phase != Closure { FrozenNeverDeclines(b, c); }
    if BlindPlan(b, c).Planned? {
      if c.phase == Closure {
        OccludedPlanOk(b, c, c.sequence + 1, true);
      } else {
        FrozenPlanOk(b, c, c.sequence + 1, true);
      }
      OneSampleOn(b, c, BlindPlan(b, c).p);
    }
  }

  lemma FrozenNeverDeclines(b: Bundle, c: Committed)
    requires b.Valid() && c.liftStep >= -1 && b.cfg.mpcCapture && (c.phase == Lift || c.phase == Hold)
    ensures !FrozenPlan(b, c, c.sequence + 1, true).Declined?
  {
  }

  /** Past the approach a commit moves one template sample on, until the final hold. */
  lemma OneSampleOn(b: Bundle, c: Committed, p: Proposal)
    requires b.Valid() && CommittedOk(b, c) && ProposalOk(b, c, p) && c.phase != Approach
    ensures var next := CommitOf(b, c, p);
      && CommittedOk(b, next) && Indexed(b, next)
      && next.template == (if c.template < b.cfg.liftEnd then c.template + 1 else b.cfg.steps - 1)
      && (next.phase == Hold <==> c.template >= b.cfg.liftEnd - 1)
      && next.phase != Approach && (next.phase == Closure ==> c.phase == Closure)
  {
  }

  /** Blind ticks keep the capture flags and never fall back to an approach. */
  lemma BlindFlags(b: Bundle, c: Committed)
    requires b.Valid() && Indexed(b, c) && (c.phase == Closure || c.phase == Lift || c.phase == Hold)
    ensures BlindPlan(b, c).Planned? ==>
      var p := BlindPlan(b, c).p;
      p.fullOccluded == c.fullOccluded && p.currentVolume == c.currentVolume && p.phase != Approach
      && p.sequence == c.sequence + 1
  {
    hide OccludedPlan;
    hide FrozenPlan;
    BlindPlansCarryTheirSequence(b, c, c.sequence + 1, true);
  }

  /** From a full-occlusion capture or a contact on time, blind calls alone walk through every
      remaining closing and lifting sample: the i-th commit is at template + i under sequence + i, and
      the one that reaches the lift end holds, inside the template. */
  lemma {:induction false} BlindChainReachesHold(b: Bundle, cs: seq<Committed>, i: nat)
    requires b.Valid() && BlindChain(b, cs) && Carried(b, cs[0]) && Indexed(b, cs[0]) && OnTime(b, cs[0])
    requires i < |cs| && cs[0].template + i <= b.cfg.liftEnd
    ensures Carried(b, cs[i]) && Indexed(b, cs[i]) && OnTime(b, cs[i])
    ensures cs[i].template == cs[0].template + i && cs[i].sequence == cs[0].sequence + i <= b.cfg.steps
    ensures i > 0 ==> (cs[i].phase == Hold <==> cs[i].template == b.cfg.liftEnd)
  {
    if i > 0 {
      BlindChainReachesHold(b, cs, i - 1);
      assert BlindStep(b, cs[i - 1], cs[i - 1 + 1]);
      hide BlindPlan;
      hide Carried;
      BlindStepGoesOn(b, cs[i - 1], cs[i]);
    }
  }

  lemma BlindStepGoesOn(b: Bundle, c: Committed, next: Committed)
    requires b.Valid() && BlindStep(b, c, next) && Carried(b, c) && OnTime(b, c) && c.template < b.cfg.liftEnd
    ensures Carried(b, next) && Indexed(b, next) && OnTime(b, next)
    ensures next.template == c.template + 1 && next.sequence == c.sequence + 1
    ensures next.phase == Hold <==> next.template == b.cfg.liftEnd
  {
    hide AfterBlind;
    hide CommitOf;
    hide CommittedOk;
    BlindCallIsPlan(b, c);
    BlindPlanCarries(b, c);
    hide BlindPlan;
  }

  /** Any run with consecutive commits that has captured for full occlusion or contact, or has begun
      to lift, is carried and on time: its next blind call, and every further one until hold, is
      published or refused for an envelope or an inverse-kinematics failure. */
  lemma CapturedRunsAreCarried(b: Bundle, calls: seq<Call>)
    requires b.Valid() && Consecutive(Run(b, calls).log)
    requires var c := Run(b, calls).s.c; b.cfg.mpcCapture && (c.phase == Lift || (c.phase == Closure && c.fullOccluded))
    ensures var c := Run(b, calls).s.c; Carried(b, c) && Indexed(b, c) && OnTime(b, c) && c.template < b.cfg.liftEnd
    ensures var s := Run(b, calls).s; s.pending.None? ==>
      var reply := ReplyTo(b, s, BlindCall(s.c));
      reply.Published? || (reply.Raised? && FromOutside(s.c, reply.fault))
  {
    var c := Run(b, calls).s.c;
    CommittedIsIndexed(b, c);
    PhaseHasTemplate(b, c);
    RunsAreOnTime(b, calls);
    BlindTickCarries(b, c);
    hide Run;
    hide CommittedOk;
    hide Apply;
    hide Internal;
  }

  /** A blind chain inside the closure that never had to raise the arm. */
  ghost predicate Unraised(b: Bundle, cs: seq<Committed>)
    requires b.Valid() && BlindChain(b, cs)
  {
    forall i :: 0 <= i < |cs| - 1 ==> BlindStep(b, cs[i], cs[i + 1]) ==> !AfterBlind(b, cs[i]).reply.output.raised
  }

  lemma HeldPlan(b: Bundle, c: Committed)
    requires b.Valid() && c.phase == Closure && c.currentVolume && c.liftStep >= -1
    requires BlindPlan(b, c).Planned? && !BlindPlan(b, c).raised
    ensures var next := CommitOf(b, c, BlindPlan(b, c).p);
      && next.target == c.target && next.nominal == c.nominal && next.currentVolume
      && (next.phase == Closure || (next.phase == Lift && next.capture == Some(c.target)))
  {
    hide OccludedVerdict;
    hide RaisedTarget;
    hide GraspLift;
  }

  lemma HeldStep(b: Bundle, c: Committed, next: Committed)
    requires b.Valid() && BlindStep(b, c, next) && c.phase == Closure && c.currentVolume
    requires !AfterBlind(b, c).reply.output.raised
    ensures next.target == c.target && next.nominal == c.nominal && next.currentVolume
    ensures next.phase == Closure || (next.phase == Lift && next.capture == Some(c.target))
  {
    assert b.cfg.mpcCapture;
    hide AfterBlind;
    hide CommitOf;
    BlindCallIsPlan(b, c);
    HeldPlan(b, c);
    hide BlindPlan;
  }

  /** After a current-volume capture or a contact, occluded closure ticks that are never raised
      keep the committed arm target exactly, and the lift starts from that very target. */
  lemma {:induction false} OccludedClosureHoldsArm(b: Bundle, cs: seq<Committed>, i: nat)
    requires b.Valid() && BlindChain(b, cs) && Unraised(b, cs) && i < |cs|
    requires cs[0].phase == Closure && cs[0].currentVolume
    requires forall j :: 0 <= j < i ==> cs[j].phase == Closure
    ensures cs[i].target == cs[0].target && cs[i].nominal == cs[0].nominal && cs[i].currentVolume
    ensures cs[i].phase == Closure || (cs[i].phase == Lift && cs[i].capture == Some(cs[0].target))
  {
    if i > 0 {
      OccludedClosureHoldsArm(b, cs, i - 1);
      assert BlindStep(b, cs[i - 1], cs[i - 1 + 1]);
      hide AfterBlind;
      HeldStep(b, cs[i - 1], cs[i]);
    }
  }

  // ---- Current-volume captures on visual ticks ----------------------------------------

  lemma DraftedTickHoldsIff(b: Bundle, c: Committed, obs: Observation, goal: Joints, height: real)
    requires b.Valid() && CommittedOk(b, c) && c.phase == Closure && c.currentVolume
    requires ClosureDraft(b, c, obs, goal, height).Drafted?
    ensures ClosureDraft(b, c, obs, goal, height).d.target == c.target <==>
      Minus(goal, b.ReferenceGrasp()) == c.correction
  {
  }

  /** A backoff retry returns to the committed target exactly when the scaled correction is the
      committed one. */
  lemma BackoffHoldsIff(c: Committed, d: Draft, k: nat)
    requires d.nominal == c.nominal && c.correction == Minus(c.target, c.nominal) && d.stepLimit > 0.0
    ensures BackoffTarget(c, d, k) == c.target <==> Times((9 - k) as real / 10.0, Minus(d.target, d.nominal)) == c.correction
  {
    var scaled := Times((9 - k) as real / 10.0, Minus(d.target, d.nominal));
    SlewStays(c.target, Plus(d.nominal, scaled), d.stepLimit);
    SumStays(c.nominal, c.target, scaled);
    hide Times;
    hide Minus;
    hide Plus;
    hide SlewEach;
  }

  lemma SlewStays(start: Joints, goal: Joints, step: real)
    requires step > 0.0
    ensures SlewEach(start, goal, step) == start <==> goal == start
  {
  }

  lemma SumStays(nominal: Joints, target: Joints, correction: Joints)
    ensures Plus(nominal, correction) == target <==> correction == Minus(target, nominal)
  {
  }

  /** A raise solves to the target it starts from exactly when that target already meets it. */
  lemma {:induction false} SolvedAtSeedIff(p: Ik.Problem, lower: Joints, upper: Joints, seed: Joints, passes: nat)
    requires passes > 0 && Ik.SolveFrom(p, lower, upper, seed, passes).Solved?
    ensures Ik.SolveFrom(p, lower, upper, seed, passes) == Ik.Solved(seed) <==> p.probe(seed).Converged?
  {
    if !p.probe(seed).Converged? && Ik.SolveFrom(p, lower, upper, seed, passes) == Ik.Solved(seed) {
      SolutionConverges(p, lower, upper, seed, passes);
    }
  }

  lemma {:induction false} SolutionConverges(p: Ik.Problem, lower: Joints, upper: Joints, q: Joints, passes: nat)
    requires Ik.SolveFrom(p, lower, upper, q, passes).Solved?
    ensures p.probe(Ik.SolveFrom(p, lower, upper, q, passes).q).Converged?
    decreases passes
  {
    if passes > 0 && p.probe(q).Correction? {
      SolutionConverges(p, lower, upper, Ik.Advance(q, p.probe(q).delta, lower, upper), passes - 1);
    }
  }

  lemma RaiseHoldsIff(b: Bundle, from: Joints, clearance: real)
    requires RaisedTarget(b, from, clearance).Solved?
    ensures RaisedTarget(b, from, clearance) == Ik.Solved(from) <==>
      b.geometry.raisePalm(from, RequiredLift(b, clearance)).probe(from).Converged?
  {
    SolvedAtSeedIff(b.geometry.raisePalm(from, RequiredLift(b, clearance)), b.lower, b.upper, from, Ik.REFINED_PASSES);
    hide Ik.SolveFrom;
  }

  /** How a visual closure tick leaves the ladder. */
  datatype Exit = AsDrafted | Backoff(k: nat) | Holding | Raising(clearance: real)

  function ExitOf(b: Bundle, c: Committed, d: Draft): Exit
    requires b.Valid() && InTemplate(b, d.template)
  {
    var hand := HandAt(b, d.template);
    var first := Validate(b, d.check, c.target, d.nominal, d.target, hand);
    if !Recoverable(first) then AsDrafted
    else match FirstBackoff(b, c, d, 0)
      case Some(k) => Backoff(k)
      case None =>
        var held := Validate(b, d.check, c.target, d.nominal, c.target, hand);
        if !MayHoldOrientation(c, first) && held.ClearanceConflict? then Raising(held.clearance) else Holding
  }

  /** Whether the tick's exit leads back to the committed target: read from the tracked goal, the
      drafted correction, or the first probe of the raise. */
  ghost predicate ExitHoldsArm(b: Bundle, c: Committed, d: Draft)
    requires b.Valid() && InTemplate(b, d.template)
  {
    match ExitOf(b, c, d)
    case AsDrafted => Minus(d.goal, b.ReferenceGrasp()) == c.correction
    case Backoff(k) => Times((9 - k) as real / 10.0, Minus(d.target, d.nominal)) == c.correction
    case Holding => true
    case Raising(clearance) => b.geometry.raisePalm(c.target, RequiredLift(b, clearance)).probe(c.target).Converged?
  }

  ghost predicate VolumeDraft(b: Bundle, c: Committed, d: Draft)
    requires b.Valid()
  {
    && d.nominal == c.nominal && d.phase != Approach && d.stepLimit > 0.0
    && (d.target == c.target <==> Minus(d.goal, b.ReferenceGrasp()) == c.correction)
  }

  lemma VolumeDraftFor(b: Bundle, c: Committed, index: int, obs: Observation)
    requires b.Valid() && CommittedOk(b, c) && Indexed(b, c) && c.phase == Closure && c.currentVolume
    requires DraftFor(b, c, index, obs).Drafted?
    ensures VolumeDraft(b, c, DraftFor(b, c, index, obs).d)
  {
    var height := LockedHeight(b, c, obs.observedHeight);
    var raw := RawGoal(b, c, obs, height);
    hide RawGoal;
    hide FilteredGoal;
    hide LockedHeight;
    if raw.Reached? {
      VolumeClosureDraft(b, c, obs, FilteredGoal(b, c, raw.q), height);
    }
    hide ClosureDraft;
    hide VolumeDraft;
    hide CommittedOk;
  }

  lemma VolumeClosureDraft(b: Bundle, c: Committed, obs: Observation, goal: Joints, height: real)
    requires b.Valid() && CommittedOk(b, c) && c.phase == Closure && c.currentVolume
    ensures ClosureDraft(b, c, obs, goal, height).Drafted? ==> VolumeDraft(b, c, ClosureDraft(b, c, obs, goal, height).d)
  {
    if ClosureDraft(b, c, obs, goal, height).Drafted? { DraftedTickHoldsIff(b, c, obs, goal, height); }
    hide ClosureTarget;
    hide ApproachTarget;
    hide Minus;
    hide CommandEnveloped;
    hide GoalReserved;
    hide PhaseIndices;
    hide LiftInMargin;
  }

  lemma RungsHoldIff(b: Bundle, c: Committed, d: Draft, why: Verdict)
    requires b.Valid() && InTemplate(b, d.template) && c.template < |b.hands| && d.phase != Approach
    requires Rungs(b, c, d, why).Cleared?
    ensures var held := Validate(b, d.check, c.target, d.nominal, c.target, HandAt(b, d.template));
      Rungs(b, c, d, why).d.target == c.target <==>
        (!MayHoldOrientation(c, why) && held.ClearanceConflict? ==>
          b.geometry.raisePalm(c.target, RequiredLift(b, held.clearance)).probe(c.target).Converged?)
  {
    hide Validate;
    hide RaisedTarget;
    hide LiftBounded;
    var held := Validate(b, d.check, c.target, d.nominal, c.target, HandAt(b, d.template));
    if held.ClearanceConflict? && RaisedTarget(b, c.target, held.clearance).Solved? {
      RaiseHoldsIff(b, c.target, held.clearance);
    }
  }

  lemma LadderHoldsIff(b: Bundle, c: Committed, d: Draft)
    requires b.Valid() && InTemplate(b, d.template) && c.template < |b.hands|
    requires VolumeDraft(b, c, d) && c.correction == Minus(c.target, c.nominal) && Ladder(b, c, d).Cleared?
    ensures Ladder(b, c, d).d.target == c.target <==> ExitHoldsArm(b, c, d)
  {
    hide Validate;
    hide Minus;
    hide Times;
    hide Rungs;
    hide BackoffTarget;
    hide RequiredLift;
    hide MayHoldOrientation;
    var first := Validate(b, d.check, c.target, d.nominal, d.target, HandAt(b, d.template));
    if Recoverable(first) {
      FirstBackoffIsFirst(b, c, d, 0);
      if FirstBackoff(b, c, d, 0).Some? {
        BackoffHoldsIff(c, d, FirstBackoff(b, c, d, 0).value);
      } else {
        RungsHoldIff(b, c, d, first);
      }
    }
  }

  /** The comment that a current-volume closure keeps the arm is true of occluded ticks only. A staged
      visual tick keeps the committed arm target if and only if its way out of the ladder leads back
      to it: as drafted when the goal it tracks asks for the committed correction, by a backoff when
      the scaled drafted correction is the committed one, by a hold always, by a raise when the
      committed target already meets the raise. */
  lemma VisualVolumeTickHoldsArmIff(b: Bundle, c: Committed, sequence: int, obs: Observation)
    requires b.Valid() && CommittedOk(b, c) && Indexed(b, c) && c.phase == Closure && c.currentVolume
    requires NormalPlan(b, c, sequence, obs).Planned?
    ensures DraftFor(b, c, sequence - 1, obs).Drafted? && InTemplate(b, DraftFor(b, c, sequence - 1, obs).d.template)
    ensures NormalPlan(b, c, sequence, obs).p.target == c.target <==> ExitHoldsArm(b, c, DraftFor(b, c, sequence - 1, obs).d)
  {
    hide DraftFor;
    hide Ladder;
    hide VolumeDraft;
    hide ExitHoldsArm;
    hide Minus;
    hide GraspLift;
    hide PhaseIndices;
    hide CommandEnveloped;
    hide GoalReserved;
    DraftsInTemplate(b, c, sequence - 1, obs);
    VolumeDraftFor(b, c, sequence - 1, obs);
    LadderHoldsIff(b, c, DraftFor(b, c, sequence - 1, obs).d);
  }

  // ---- Contact ------------------------------------------------------------------------

  /** A contact leaves a state from which blind ticks finish the grasp. */
  lemma ContactIsCarried(b: Bundle, c: Committed, f: Feedback)
    requires b.Valid() && CommittedOk(b, c) && AfterFeedback(b, c, f).forceContact && !c.forceContact
    ensures Carried(b, AfterFeedback(b, c, f))
  {
    FeedbackKeepsCommitted(b, c, f);
    hide GraspLift;
    hide ContactAxes;
    hide CommittedOk;
  }

  // ---- Transactions -------------------------------------------------------------------

  /** Staging changes nothing but the pending slot; discarding restores the state; asking again for
      the pending sequence publishes the same command, except that an occluded clearance lift loses
      its flag; committing installs the pending proposal and nothing else. */
  lemma StagingIsTransactional(b: Bundle, s: State, tick: Call, again: Observation)
    requires b.Valid() && StateOk(b, s) && s.pending.None?
    requires tick.NormalTick? || tick.OccludedTick? || tick.FrozenTick?
    requires ReplyTo(b, s, tick).Published? && again.wellFormed
    ensures var s' := StateAfter(b, s, tick); var repeat := NormalTick(tick.sequence, again);
      && s'.c == s.c && s'.pending.Some? && s'.pending.value.sequence == tick.sequence
      && AfterDiscard(s', tick.sequence) == Result(s, Done)
      && AfterCommit(b, s', tick.sequence) == Result(State(CommitOf(b, s.c, s'.pending.value), None), Done)
      && StateAfter(b, s', repeat) == s'
      && ReplyTo(b, s', repeat) == Published(ReplyTo(b, s, tick).output.(raised := false))
  {
    StateIsIndexed(b, s);
    ApplyKeepsState(b, s, tick);
    hide StateOk;
    match tick
    case NormalTick(sequence, obs) =>
      PlansCarryTheirSequence(b, s.c, sequence, obs);
      NormalPlanIndexed(b, s.c, sequence, obs);
      hide NormalPlan;
    case OccludedTick(sequence, reasonAllowed) =>
      OccludedPlanIndexed(b, s.c, sequence, reasonAllowed);
      BlindPlansCarryTheirSequence(b, s.c, sequence, reasonAllowed);
      hide OccludedPlan;
    case FrozenTick(sequence, reasonAllowed) =>
      FrozenPlanIndexed(b, s.c, sequence, reasonAllowed);
      BlindPlansCarryTheirSequence(b, s.c, sequence, reasonAllowed);
      hide FrozenPlan;
  }

  /** Every field of a proposal is taken over; the feedback memory is kept. */
  ghost predicate Installed(b: Bundle, c: Committed, p: Proposal, after: Committed) {
    && after.sequence == p.sequence && after.index == p.index && after.template == p.template && after.phase == p.phase
    && after.preshape == p.preshape && after.closureStep == p.closureStep && after.liftStep == p.liftStep
    && after.nominal == p.nominal && after.correction == p.correction && after.target == p.target && after.goal == p.goal
    && after.capture == p.capture && after.lift == p.lift && after.height == Some(p.height)
    && after.liveFitSeen == p.liveFitSeen && after.fullOccluded == p.fullOccluded && after.currentVolume == p.currentVolume
    && after.forceContact == p.forceContact && after.orientationHold == p.orientationHold && after.evidence == p.evidence
    && (after.complete <==> p.template == b.cfg.steps - 1)
    && after.feedbackSequence == c.feedbackSequence && after.feedbackForces == c.feedbackForces
  }

  /** What a tick publishes is what its commit installs: the target of the proposal and the recorded hand
      sample of its template. */
  lemma PublishedIsInstalled(b: Bundle, s: State, tick: Call)
    requires b.Valid() && StateOk(b, s) && s.pending.None?
    requires tick.NormalTick? || tick.OccludedTick? || tick.FrozenTick?
    requires ReplyTo(b, s, tick).Published?
    ensures var output := ReplyTo(b, s, tick).output; var s' := StateAfter(b, s, tick);
      && s'.pending.Some?
      && var p, after := s'.pending.value, AfterCommit(b, s', tick.sequence).s.c;
         && InTemplate(b, p.template) && output.template == p.template && output.target == p.target
         && output.hand == b.hands[p.template] && Installed(b, s.c, p, after)
  {
    hide StateOk;
    hide NormalPlan;
    hide OccludedPlan;
    hide FrozenPlan;
    StateIsIndexed(b, s);
    match tick
    case NormalTick(sequence, obs) =>
      PlansCarryTheirSequence(b, s.c, sequence, obs);
      NormalPlanIndexed(b, s.c, sequence, obs);
    case OccludedTick(sequence, reasonAllowed) =>
      OccludedPlanIndexed(b, s.c, sequence, reasonAllowed);
      BlindPlansCarryTheirSequence(b, s.c, sequence, reasonAllowed);
    case FrozenTick(sequence, reasonAllowed) =>
      FrozenPlanIndexed(b, s.c, sequence, reasonAllowed);
      BlindPlansCarryTheirSequence(b, s.c, sequence, reasonAllowed);
  }

  /** The call is a commit or discard of the sequence that is pending. */
  predicate Settles(s: State, call: Call) {
    s.pending.Some? && (call == Commit(s.pending.value.sequence) || call == Discard(s.pending.value.sequence))
  }

  /** While a proposal is pending, only the commit or the discard of its own sequence changes anything;
      a visual tick of that sequence publishes it again, and every other call raises, except that a
      blind tick that is not admitted stays silent. Nothing else can be committed or discarded. */
  lemma PendingIsExclusive(b: Bundle, s: State, call: Call)
    requires b.Valid() && StateOk(b, s) && (s.pending.Some? || call.Commit? || call.Discard?)
    ensures Settles(s, call) <==> ReplyTo(b, s, call).Done?
    ensures if Settles(s, call) then StateAfter(b, s, call).pending.None? else StateAfter(b, s, call) == s
    ensures ReplyTo(b, s, call).Published? <==>
      call.NormalTick? && call.obs.wellFormed && call.sequence == s.pending.value.sequence && 1 <= call.sequence <= b.cfg.steps
    ensures ReplyTo(b, s, call).NoReply? <==>
      && (call.OccludedTick? || call.FrozenTick?) && 1 <= call.sequence <= b.cfg.steps
      && !(call.reasonAllowed && b.cfg.mpcCapture)
  {
    hide StateOk;
    hide NormalPlan;
    hide OccludedPlan;
    hide FrozenPlan;
    hide CommitOf;
    StateIsIndexed(b, s);
  }

  // ---- Two implementations of the lift ------------------------------------------------

  /** From a committed lift or hold the frozen tick is staged exactly when the envelopes accept the
      unmodified target, and then the normal tick stages the same proposal, field for field. */
  lemma FrozenAgreesWithNormal(b: Bundle, c: Committed, sequence: int, obs: Observation)
    requires b.Valid() && CommittedOk(b, c) && Indexed(b, c) && FrozenAdmissible(b, c, true)
    ensures DraftFor(b, c, sequence - 1, obs).Drafted?
    ensures var d := DraftFor(b, c, sequence - 1, obs).d; InTemplate(b, d.template)
    ensures var d := DraftFor(b, c, sequence - 1, obs).d;
      var accepted := SafeTarget(b, c.target, d.nominal, d.target, HandAt(b, d.template)).Safe?;
      && (FrozenPlan(b, c, sequence, true).Planned? <==> accepted)
      && (accepted ==> NormalPlan(b, c, sequence, obs) == FrozenPlan(b, c, sequence, true))
  {
    PostClosureDraftOk(b, c, sequence - 1, obs);
    DraftsInTemplate(b, c, sequence - 1, obs);
    hide SafeTarget;
    hide Along;
    hide MinimumJerk.Blend;
    hide Minus;
    hide CommandEnveloped;
    hide GoalReserved;
    hide Rungs;
    hide FirstBackoff;
    hide BackoffVerdict;
    hide LiftInMargin;
    hide DraftOk;
  }

  /** Every lift target lies on the segment from the capture to the lift target, hence inside the
      joint margin; the last one is the lift target itself. */
  lemma LiftTargets(b: Bundle, c: Committed)
    requires b.Valid() && CommittedOk(b, c) && c.phase == Lift && LiftDraft(b, c).Drafted?
    ensures var d := LiftDraft(b, c).d;
      && d.target == Along(c.capture.value, c.lift.value, LiftBlend(b, c.liftStep + 1))
      && Between(d.target, c.capture.value, c.lift.value) && InBox(d.target, b.lower, b.upper)
      && (d.phase == Hold <==> c.liftStep + 1 == b.LiftCount() - 1)
      && (d.phase == Hold ==> d.target == c.lift.value && d.nominal == b.ReferenceLift())
  {
    hide CommandEnveloped;
    hide GoalReserved;
    hide Minus;
    var from, to := c.capture.value, c.lift.value;
    var y := LiftBlend(b, c.liftStep + 1);
    LiftBlendBounds(b, c.liftStep);
    hide MinimumJerk.Blend;
    hide LiftFraction;
    AlongIsBetween(from, to, y);
    BetweenStaysInBox(Along(from, to, y), from, to, b.lower, b.upper);
    AlongEnds(from, to);
    AlongEnds(b.ReferenceGrasp(), b.ReferenceLift());
    hide Along;
    hide InBox;
    hide Between;
  }

  /** Between consecutive lift targets no joint moves by more than 15/8 of its share of the lift. */
  lemma LiftStepsAreBounded(b: Bundle, from: Joints, to: Joints, step: int, i: nat)
    requires b.Valid() && -1 <= step < b.LiftCount() - 1 && i < DOF
    ensures Abs(Along(from, to, LiftBlend(b, step + 1))[i] - Along(from, to, LiftBlend(b, step))[i])
         <= LiftShare(b) * Abs(to[i] - from[i])
    ensures step == -1 ==> Along(from, to, LiftBlend(b, step)) == from
  {
    hide LiftBlend;
    hide LiftShare;
    hide Along;
    LiftBlendBounds(b, step);
    AlongDifference(from, to, LiftBlend(b, step), LiftBlend(b, step + 1), i, LiftShare(b));
    if step == -1 {
      AlongEnds(from, to);
    }
  }

  /** The committed target is the lift's own point for the committed lift step. */
  ghost predicate OnLift(b: Bundle, c: Committed)
    requires b.Valid()
  {
    c.capture.Some? && c.lift.Some? && c.target == Along(c.capture.value, c.lift.value, LiftBlend(b, c.liftStep))
  }

  /** A lift begins at its capture: the target that closed the hand. */
  lemma LiftStartsAtCapture(b: Bundle, c: Committed)
    requires b.Valid() && CommittedOk(b, c) && c.phase == Lift && c.liftStep == -1
    ensures OnLift(b, c) && c.target == c.capture.value
  {
    LiftBlendBounds(b, -1);
    AlongEnds(c.capture.value, c.lift.value);
    hide Along;
    hide LiftBlend;
    hide CommandEnveloped;
    hide GoalReserved;
    hide LiftInMargin;
  }

  /** From a lift that has not been modified, the first tick included, a staged tick whose target is
      the drafted one moves no joint of the committed target by more than 15/8 of an equal share of
      the lift, and its commit is again on the lift. A frozen tick always is such a tick. */
  lemma LiftTickMovesAShare(b: Bundle, c: Committed, sequence: int, obs: Observation, plan: Plan)
    requires b.Valid() && CommittedOk(b, c) && Indexed(b, c) && c.phase == Lift && OnLift(b, c)
    requires plan.Planned? && LiftDraft(b, c).Drafted?
    requires plan == FrozenPlan(b, c, sequence, true) || (plan == NormalPlan(b, c, sequence, obs) && plan.p.target == LiftDraft(b, c).d.target)
    ensures OnLift(b, CommitOf(b, c, plan.p))
    ensures forall i :: 0 <= i < DOF ==>
      Abs(plan.p.target[i] - c.target[i]) <= LiftShare(b) * Abs(c.lift.value[i] - c.capture.value[i])
  {
    hide LiftDraft;
    hide NormalPlan;
    hide FrozenPlan;
    hide CommittedOk;
    hide Along;
    hide LiftBlend;
    hide LiftShare;
    hide Between;
    hide InBox;
    LiftPlanKeepsStep(b, c, sequence, obs, plan);
    LiftStepInRange(b, c);
    LiftTargets(b, c);
    LiftMovesShare(b, c.capture.value, c.lift.value, c.liftStep);
  }

  lemma LiftMovesShare(b: Bundle, from: Joints, to: Joints, step: int)
    requires b.Valid() && -1 <= step < b.LiftCount() - 1
    ensures forall i :: 0 <= i < DOF ==>
      Abs(Along(from, to, LiftBlend(b, step + 1))[i] - Along(from, to, LiftBlend(b, step))[i]) <= LiftShare(b) * Abs(to[i] - from[i])
  {
    hide LiftBlend;
    hide LiftShare;
    hide Along;
    hide Abs;
    forall i | 0 <= i < DOF
      ensures Abs(Along(from, to, LiftBlend(b, step + 1))[i] - Along(from, to, LiftBlend(b, step))[i]) <= LiftShare(b) * Abs(to[i] - from[i])
    {
      LiftStepsAreBounded(b, from, to, step, i);
    }
  }

  lemma LiftStepInRange(b: Bundle, c: Committed)
    requires b.Valid() && CommittedOk(b, c) && c.phase == Lift
    ensures -1 <= c.liftStep < b.LiftCount() - 1
  {
    hide CommandEnveloped;
    hide GoalReserved;
    hide LiftInMargin;
    hide PhaseEvidence;
  }

  lemma LiftPlanKeepsStep(b: Bundle, c: Committed, sequence: int, obs: Observation, plan: Plan)
    requires b.Valid() && CommittedOk(b, c) && Indexed(b, c) && c.phase == Lift && plan.Planned? && LiftDraft(b, c).Drafted?
    requires plan == FrozenPlan(b, c, sequence, true) || (plan == NormalPlan(b, c, sequence, obs) && plan.p.target == LiftDraft(b, c).d.target)
    ensures plan.p.target == LiftDraft(b, c).d.target && plan.p.liftStep == c.liftStep + 1
    ensures plan.p.capture == c.capture && plan.p.lift == c.lift
  {
    hide SafeTarget;
    hide Along;
    hide MinimumJerk.Blend;
    hide CommittedOk;
    if plan != FrozenPlan(b, c, sequence, true) {
      DraftsInTemplate(b, c, sequence - 1, obs);
      LadderKeepsEnvelopes(b, c, LiftDraft(b, c).d);
      hide Ladder;
      hide Validate;
      hide Enveloped;
    }
  }

  /** The largest part of the lift that one tick may cover: 15/8 of an equal share. */
  function LiftShare(b: Bundle): real
    requires b.Valid()
  {
    MinimumJerk.PEAK_RATE / b.LiftCount() as real
  }

  /** The blend reached after lift step `step`; before the first step it is zero. */
  function LiftBlend(b: Bundle, step: int): real
    requires b.Valid()
  {
    MinimumJerk.Blend(LiftFraction(b, step))
  }

  lemma LiftBlendBounds(b: Bundle, step: int)
    requires b.Valid() && -1 <= step < b.LiftCount() - 1
    ensures 0.0 <= LiftBlend(b, step) <= LiftBlend(b, step + 1) <= 1.0
    ensures LiftBlend(b, step + 1) - LiftBlend(b, step) <= LiftShare(b)
    ensures step + 1 == b.LiftCount() - 1 ==> LiftBlend(b, step + 1) == 1.0
    ensures step == -1 ==> LiftBlend(b, step) == 0.0
  {
    hide MinimumJerk.Quintic;
    hide MinimumJerk.Blend;
    var n := b.LiftCount() as real;
    var x, y := LiftFraction(b, step), LiftFraction(b, step + 1);
    MinimumJerk.Fractions((step + 1) as real, n);
    MinimumJerk.BlendShape(x);
    MinimumJerk.BlendShape(y);
    MinimumJerk.BlendIsLipschitz(x, y);
    assert y == ((step + 1) as real + 1.0) / n;
  }

  lemma AlongEnds(a: Joints, to: Joints)
    ensures Along(a, to, 0.0) == a && Along(a, to, 1.0) == to
  {
  }

  lemma AlongDifference(a: Joints, to: Joints, x: real, y: real, i: nat, bound: real)
    requires i < DOF && x <= y && y - x <= bound
    ensures Abs(Along(a, to, y)[i] - Along(a, to, x)[i]) <= bound * Abs(to[i] - a[i])
  {
    var gap := to[i] - a[i];
    assert Times(y, Minus(to, a))[i] == Product(y, gap) && Times(x, Minus(to, a))[i] == Product(x, gap);
    assert Along(a, to, y)[i] == a[i] + Product(y, gap) && Along(a, to, x)[i] == a[i] + Product(x, gap);
    hide Along;
    hide Times;
    hide Minus;
    hide Abs;
    ScaledDifference(x, y, gap, bound);
  }

  lemma ScaledDifference(x: real, y: real, gap: real, bound: real)
    requires x <= y && y - x <= bound
    ensures Abs(Product(y, gap) - Product(x, gap)) <= bound * Abs(gap)
  {
    var rise, width := y - x, Abs(gap);
    assert Product(y, gap) - Product(x, gap) == Product(rise, gap);
    assert Product(rise, gap) == Product(rise, width) || Product(rise, gap) == -Product(rise, width);
    assert Product(bound - rise, width) == bound * width - Product(rise, width);
    hide Product;
    ProductSign(rise, width);
    ProductSign(bound - rise, width);
  }
}
