/** What a rejected visual target turns into: which retry, hold, raise or freeze is staged, read from
    the tick's template and from what its check says of a handful of targets. */
module TabletopRecovery {
  import opened Wrappers
  import opened JointMath
  import opened Scalars
  import opened TabletopModel
  import opened TabletopSafety
  import opened TabletopTicks
  import opened TabletopInvariant
  import Ik = PoseIk

  // ---- How targets are judged ---------------------------------------------------------

  /** Samples of the closing hand, the last of which also opens the lift. */
  predicate ClosesHand(b: Bundle, template: int) { b.cfg.catchIndex <= template <= b.cfg.closureEnd }

  /** A visual target is judged against the envelopes, and while a version 5 hand closes also against
      the measured fingertips. */
  function Judged(b: Bundle, c: Committed, obs: Observation, template: int, nominal: Joints, target: Joints): Verdict
    requires b.Valid() && InTemplate(b, template)
  {
    if b.cfg.mpcCapture && ClosesHand(b, template)
    then SafeClosureTarget(b, c.target, nominal, target, HandAt(b, template), MeasuredTips(obs.measuredTips))
    else SafeTarget(b, c.target, nominal, target, HandAt(b, template))
  }

  /** In the margin, in reach of one step and turned by a defined angle within the limit. */
  ghost predicate Reachable(b: Bundle, previous: Joints, nominal: Joints, target: Joints) {
    && InBox(target, b.lower, b.upper) && Within(target, previous, b.cfg.maxTargetStep + ROUNDOFF)
    && b.geometry.orientation(target, nominal).Some?
    && b.geometry.orientation(target, nominal).value <= b.cfg.maxOrientation
  }

  /** The clearance of the hand that a closure target is checked with besides the commanded one. */
  function OtherClearance(b: Bundle, tips: Tips, target: Joints): Option<real>
    requires b.Valid()
  {
    match tips
    case OpenHand => Some(b.geometry.fingertip(target, b.hands[b.cfg.catchIndex - 1]))
    case MeasuredTips(clearance) => if clearance.Some? then Some(clearance.value(target)) else None
  }

  /** The conflict a plain check reports is the first envelope the target leaves. */
  lemma ConflictsOf(b: Bundle, previous: Joints, nominal: Joints, target: Joints, hand: Hand, x: real)
    ensures var v := SafeTarget(b, previous, nominal, target, hand); var angle := b.geometry.orientation(target, nominal);
      var tip := b.geometry.fingertip(target, hand);
      && (v.SingularPose? <==> InBox(target, b.lower, b.upper) && Within(target, previous, b.cfg.maxTargetStep + ROUNDOFF) && angle.None?)
      && (v == OrientationConflict(x) <==>
            && InBox(target, b.lower, b.upper) && Within(target, previous, b.cfg.maxTargetStep + ROUNDOFF)
            && angle == Some(x) && x > b.cfg.maxOrientation)
      && (v == ClearanceConflict(x) <==> Reachable(b, previous, nominal, target) && tip == x && tip < b.cfg.minFingertip)
      && (v.PalmClearance? <==>
            Reachable(b, previous, nominal, target) && tip >= b.cfg.minFingertip && b.geometry.palm(target) < PALM_FLOOR)
  {
  }

  /** A closure check reports what the plain check reports, and where that accepts, the clearance of
      the other hand or its absence. */
  lemma ClosureConflictsOf(b: Bundle, previous: Joints, nominal: Joints, target: Joints, hand: Hand, tips: Tips, x: real)
    requires b.Valid()
    ensures var v := SafeClosureTarget(b, previous, nominal, target, hand, tips); var plain := SafeTarget(b, previous, nominal, target, hand);
      var other := OtherClearance(b, tips, target);
      && (!plain.Safe? ==> v == plain)
      && (plain.Safe? ==>
            && (v.NoMeasuredTips? <==> other.None?)
            && (v == ClearanceConflict(x) <==> other == Some(x) && x < b.cfg.minFingertip)
            && (v.Safe? <==> other.Some? && other.value >= b.cfg.minFingertip))
  {
    hide InBox;
    hide Within;
  }

  // ---- What a draft is checked with ---------------------------------------------------

  /** The draft of a visual tick, the way the recoveries read it. */
  ghost predicate Drafts(b: Bundle, c: Committed, obs: Observation, d: Draft)
    requires b.Valid()
  {
    && InTemplate(b, d.template) && !d.orientationHold
    && d.check == (if b.cfg.mpcCapture && ClosesHand(b, d.template) then ClosureCheck(MeasuredTips(obs.measuredTips)) else PlainCheck)
    && d.stepLimit == StepOf(b, d.template)
    && (d.captureOnSuccess <==> d.template == b.cfg.closureEnd)
    && (d.phase == Approach <==> d.template < b.cfg.catchIndex) && (d.phase == Approach ==> !d.gateAccepted)
    && (d.template == b.cfg.closureEnd ==> d.phase == Lift)
    && (ClosesHand(b, d.template) ==> c.template >= 0)
    && (c.phase == Closure ==> ClosesHand(b, d.template))
    && (d.phase == Approach ==> c.phase == Approach)
    && d.height.Some?
  }

  /** As far as the arm can follow within one tick. */
  function TrackingSlew(b: Bundle): real { Min(b.cfg.maxTargetStep, b.cfg.trackingStep) }

  /** The step limit of a target: the tracking slew while a version 5 hand closes. */
  function StepOf(b: Bundle, template: int): real {
    if b.cfg.mpcCapture && ClosesHand(b, template) then TrackingSlew(b) else b.cfg.maxTargetStep
  }

  lemma ApproachDrafted(b: Bundle, c: Committed, index: int, obs: Observation, goal: Joints, height: real)
    requires b.Valid() && CommittedOk(b, c) && c.phase == Approach && ApproachDraft(b, c, index, obs, goal, height).Drafted?
    ensures Drafts(b, c, obs, ApproachDraft(b, c, index, obs, goal, height).d)
  {
    hide SlewEach;
    hide ApproachTarget;
    hide ClosureTarget;
    hide CommandEnveloped;
    hide GoalReserved;
    hide LiftInMargin;
    hide PhaseEvidence;
    if CaptureGate(b, c, obs, NextPreshape(b, c) >= b.cfg.catchIndex - 1).accepted {
      AcceptedNeedsLiveMotion(b, c, obs, NextPreshape(b, c) >= b.cfg.catchIndex - 1);
    }
    hide CaptureGate;
  }

  lemma ClosureDrafted(b: Bundle, c: Committed, obs: Observation, goal: Joints, height: real)
    requires b.Valid() && CommittedOk(b, c) && c.phase == Closure && ClosureDraft(b, c, obs, goal, height).Drafted?
    ensures Drafts(b, c, obs, ClosureDraft(b, c, obs, goal, height).d)
  {
    hide ApproachTarget;
    hide ClosureTarget;
    hide ClosureNominal;
    hide CommandEnveloped;
    hide GoalReserved;
    hide LiftInMargin;
    hide PhaseEvidence;
  }

  lemma PostClosureDrafted(b: Bundle, c: Committed, index: int, obs: Observation)
    requires b.Valid() && CommittedOk(b, c) && Indexed(b, c) && (c.phase == Lift || c.phase == Hold)
    requires DraftFor(b, c, index, obs).Drafted?
    ensures Drafts(b, c, obs, DraftFor(b, c, index, obs).d)
  {
    hide Along;
    hide LiftFraction;
    hide CommandEnveloped;
    hide GoalReserved;
    hide LiftInMargin;
  }

  lemma DraftedAs(b: Bundle, c: Committed, index: int, obs: Observation)
    requires b.Valid() && CommittedOk(b, c) && Indexed(b, c) && DraftFor(b, c, index, obs).Drafted?
    ensures Drafts(b, c, obs, DraftFor(b, c, index, obs).d)
  {
    hide CommittedOk;
    hide ApproachDraft;
    hide ClosureDraft;
    hide LiftDraft;
    hide HoldDraft;
    hide RawGoal;
    hide FilteredGoal;
    hide Drafts;
    if c.phase == Lift || c.phase == Hold {
      PostClosureDrafted(b, c, index, obs);
    } else {
      var height := LockedHeight(b, c, obs.observedHeight);
      var goal := FilteredGoal(b, c, RawGoal(b, c, obs, height).q);
      if c.phase == Approach {
        ApproachDrafted(b, c, index, obs, goal, height);
      } else {
        ClosureDrafted(b, c, obs, goal, height);
      }
    }
  }

  // ---- What is staged -----------------------------------------------------------------

  /** A plan that stages `target` around `nominal` at the draft's sample; the last closing sample also
      needs the lift from that very target to be solvable, and fixes both. */
  ghost predicate StagesAt(b: Bundle, c: Committed, sequence: int, d: Draft, plan: Plan, nominal: Joints, target: Joints, hold: bool) {
    var lift := Ik.Solve(b.geometry.graspLift(target), b.lower, b.upper, target, Ik.REFINED_PASSES);
    if d.template == b.cfg.closureEnd && !lift.Solved? then plan == Refused(NoSolution(lift))
    else
      && plan.Planned? && !plan.raised && plan.p.sequence == sequence
      && plan.p.template == d.template && plan.p.phase == d.phase && plan.p.goal == d.goal
      && plan.p.target == target && plan.p.nominal == nominal && plan.p.correction == Minus(target, nominal)
      && plan.p.orientationHold == hold && Some(plan.p.height) == d.height && plan.p.evidence == d.evidence
      && plan.p.preshape == d.preshape && plan.p.closureStep == d.closureStep && plan.p.liftStep == d.liftStep
      && plan.p.liveFitSeen == d.liveFitSeen && plan.p.fullOccluded == d.fullOccluded && plan.p.currentVolume == d.currentVolume
      && (if d.template == b.cfg.closureEnd then plan.p.capture == Some(target) && plan.p.lift == Some(lift.q)
          else plan.p.capture == c.capture && plan.p.lift == c.lift)
  }

  lemma StageStagesAt(b: Bundle, c: Committed, sequence: int, d: Draft, e: Draft)
    requires e == d.(nominal := e.nominal, target := e.target, orientationHold := e.orientationHold)
    requires (d.captureOnSuccess <==> d.template == b.cfg.closureEnd) && d.height.Some?
    ensures StagesAt(b, c, sequence, d, Stage(b, c, sequence, e), e.nominal, e.target, e.orientationHold)
  {
    hide Ik.Solve;
    hide Minus;
  }

  /** The committed target moved toward the draft with `tenths` tenths of its correction kept. */
  function KeptTarget(b: Bundle, c: Committed, d: Draft, tenths: int): Joints {
    seq(DOF, i requires 0 <= i < DOF =>
      Slew(c.target[i], d.nominal[i] + Tenths(tenths, d.target[i] - d.nominal[i]), StepOf(b, d.template)))
  }

  function Tenths(tenths: int, x: real): real { tenths as real / 10.0 * x }

  /** The draft is rejected, and so is every one of its ten retries, none of them at a singular pose. */
  ghost predicate NothingKept(b: Bundle, c: Committed, obs: Observation, d: Draft)
    requires b.Valid() && InTemplate(b, d.template)
  {
    && Recoverable(Judged(b, c, obs, d.template, d.nominal, d.target))
    && forall tenths :: 0 <= tenths < 10 ==> RejectedAt(b, c, obs, d, tenths)
  }

  ghost predicate RejectedAt(b: Bundle, c: Committed, obs: Observation, d: Draft, tenths: int)
    requires b.Valid() && InTemplate(b, d.template)
  {
    Recoverable(Judged(b, c, obs, d.template, d.nominal, KeptTarget(b, c, d, tenths)))
  }

  lemma JudgedIsValidated(b: Bundle, c: Committed, obs: Observation, d: Draft, nominal: Joints, target: Joints)
    requires b.Valid() && Drafts(b, c, obs, d)
    ensures Validate(b, d.check, c.target, nominal, target, HandAt(b, d.template)) == Judged(b, c, obs, d.template, nominal, target)
  {
    hide SafeTarget;
    hide SafeClosureTarget;
  }

  lemma KeptIsBackoff(b: Bundle, c: Committed, obs: Observation, d: Draft, k: nat)
    requires b.Valid() && Drafts(b, c, obs, d)
    ensures BackoffTarget(c, d, k) == KeptTarget(b, c, d, 9 - k)
    ensures BackoffVerdict(b, c, d, k) == Judged(b, c, obs, d.template, d.nominal, KeptTarget(b, c, d, 9 - k))
  {
    hide Validate;
    hide Judged;
    hide Slew;
    JudgedIsValidated(b, c, obs, d, d.nominal, BackoffTarget(c, d, k));
    var scale := (9 - k) as real / 10.0;
    forall i | 0 <= i < DOF ensures BackoffTarget(c, d, k)[i] == KeptTarget(b, c, d, 9 - k)[i] {
      var wanted := Plus(d.nominal, Times(scale, Minus(d.target, d.nominal)));
      assert Times(scale, Minus(d.target, d.nominal))[i] == Tenths(9 - k, d.target[i] - d.nominal[i]);
      assert BackoffTarget(c, d, k)[i] == Slew(c.target[i], wanted[i], d.stepLimit);
      assert KeptTarget(b, c, d, 9 - k)[i] == Slew(c.target[i], wanted[i], StepOf(b, d.template));
    }
  }

  /** A visual tick from a committed state of the planner drafts `d`. */
  ghost predicate Asks(b: Bundle, c: Committed, sequence: int, obs: Observation, d: Draft)
    requires b.Valid()
  {
    CommittedOk(b, c) && Indexed(b, c) && DraftFor(b, c, sequence - 1, obs) == Drafted(d) && InTemplate(b, d.template)
  }

  /** A drafted tick is its ladder's answer, staged. */
  lemma PlanIsLadder(b: Bundle, c: Committed, sequence: int, obs: Observation, d: Draft)
    requires b.Valid() && Asks(b, c, sequence, obs, d)
    ensures Drafts(b, c, obs, d)
    ensures NormalPlan(b, c, sequence, obs) ==
      match Ladder(b, c, d) case Blocked(fault) => Refused(fault) case Cleared(e) => Stage(b, c, sequence, e)
  {
    hide DraftFor;
    hide Ladder;
    hide Stage;
    hide CommittedOk;
    DraftedAs(b, c, sequence - 1, obs);
    DraftsInTemplate(b, c, sequence - 1, obs);
  }

  /** An accepted target is staged as drafted, a singular one is refused. */
  lemma AcceptedIsStaged(b: Bundle, c: Committed, sequence: int, obs: Observation, d: Draft)
    requires b.Valid() && Asks(b, c, sequence, obs, d)
    ensures var plan := NormalPlan(b, c, sequence, obs); var first := Judged(b, c, obs, d.template, d.nominal, d.target);
      && (first.Safe? ==> StagesAt(b, c, sequence, d, plan, d.nominal, d.target, false))
      && (first.SingularPose? ==> plan == Refused(Rejected(SingularPose)))
  {
    hide CommittedOk;
    hide DraftFor;
    hide Judged;
    hide StagesAt;
    hide Stage;
    hide Validate;
    hide FirstBackoff;
    hide Rungs;
    hide NormalPlan;
    PlanIsLadder(b, c, sequence, obs, d);
    JudgedIsValidated(b, c, obs, d, d.nominal, d.target);
    StageStagesAt(b, c, sequence, d, d);
  }

  lemma LadderBacksOff(b: Bundle, c: Committed, obs: Observation, d: Draft, tenths: int)
    requires b.Valid() && c.template < |b.hands| && Drafts(b, c, obs, d) && 0 <= tenths < 10
    requires Recoverable(Judged(b, c, obs, d.template, d.nominal, d.target))
    requires forall more :: tenths < more < 10 ==> RejectedAt(b, c, obs, d, more)
    requires !RejectedAt(b, c, obs, d, tenths)
    ensures Ladder(b, c, d) ==
      AtVerdict(Judged(b, c, obs, d.template, d.nominal, KeptTarget(b, c, d, tenths)), d.(target := KeptTarget(b, c, d, tenths)))
  {
    hide Judged;
    hide Validate;
    hide BackoffTarget;
    hide BackoffVerdict;
    hide KeptTarget;
    hide Recoverable;
    hide Rungs;
    hide AtVerdict;
    JudgedIsValidated(b, c, obs, d, d.nominal, d.target);
    FirstBackoffIsFirst(b, c, d, 0);
    hide FirstBackoff;
    var first := FirstBackoff(b, c, d, 0);
    KeptIsBackoff(b, c, obs, d, 9 - tenths);
    if first.Some? {
      KeptIsBackoff(b, c, obs, d, first.value);
      assert first.value < 9 - tenths ==> RejectedAt(b, c, obs, d, 9 - first.value);
    }
    hide Drafts;
  }

  /** A target that is rejected is retried with nine tenths, eight tenths, ... and finally none of its
      correction; the first retry that is not rejected is staged, or refused at a singular pose. */
  lemma BackoffIsStaged(b: Bundle, c: Committed, sequence: int, obs: Observation, d: Draft, tenths: int)
    requires b.Valid() && Asks(b, c, sequence, obs, d) && 0 <= tenths < 10
    requires Recoverable(Judged(b, c, obs, d.template, d.nominal, d.target))
    requires forall more :: tenths < more < 10 ==> RejectedAt(b, c, obs, d, more)
    requires !RejectedAt(b, c, obs, d, tenths)
    ensures var plan := NormalPlan(b, c, sequence, obs); var kept := KeptTarget(b, c, d, tenths);
      if Judged(b, c, obs, d.template, d.nominal, kept).Safe? then StagesAt(b, c, sequence, d, plan, d.nominal, kept, false)
      else plan == Refused(Rejected(SingularPose))
  {
    hide CommittedOk;
    hide DraftFor;
    hide Judged;
    hide StagesAt;
    hide Stage;
    hide Ladder;
    hide NormalPlan;
    hide KeptTarget;
    PlanIsLadder(b, c, sequence, obs, d);
    LadderBacksOff(b, c, obs, d, tenths);
    StageStagesAt(b, c, sequence, d, d.(target := KeptTarget(b, c, d, tenths)));
  }

  lemma LadderGivesWay(b: Bundle, c: Committed, obs: Observation, d: Draft)
    requires b.Valid() && c.template < |b.hands| && Drafts(b, c, obs, d) && NothingKept(b, c, obs, d)
    ensures Ladder(b, c, d) == Rungs(b, c, d, Judged(b, c, obs, d.template, d.nominal, d.target))
  {
    hide Judged;
    hide Validate;
    hide BackoffTarget;
    hide BackoffVerdict;
    hide KeptTarget;
    hide Recoverable;
    hide Rungs;
    hide AtVerdict;
    JudgedIsValidated(b, c, obs, d, d.nominal, d.target);
    FirstBackoffIsFirst(b, c, d, 0);
    hide FirstBackoff;
    var first := FirstBackoff(b, c, d, 0);
    if first.Some? { KeptIsBackoff(b, c, obs, d, first.value); }
    assert first.Some? ==> RejectedAt(b, c, obs, d, 9 - first.value);
    hide Drafts;
  }

  // ---- Recoveries ---------------------------------------------------------------------

  /** How much the palm has to rise: what the clearance lacks of its limit, and a millimetre. */
  function Shortfall(b: Bundle, clearance: real): real { b.cfg.minFingertip - clearance + 0.001 }

  /** Raising the palm by the shortfall from the committed target, around the committed nominal. */
  ghost predicate RaisesOrRefuses(b: Bundle, c: Committed, sequence: int, obs: Observation, d: Draft, plan: Plan, why: Verdict, clearance: real)
    requires b.Valid() && InTemplate(b, d.template)
  {
    var up := Shortfall(b, clearance);
    if !(0.0 < up <= 0.020) then plan == Refused(Rejected(why))
    else match Ik.Solve(b.geometry.raisePalm(c.target, up), b.lower, b.upper, c.target, Ik.REFINED_PASSES)
      case NotConverged => plan == Refused(Rejected(why))
      case Solved(q) =>
        var again := Judged(b, c, obs, d.template, c.nominal, q);
        if again.Safe? then StagesAt(b, c, sequence, d, plan, c.nominal, q, false)
        else if again.SingularPose? then plan == Refused(Rejected(SingularPose))
        else plan == Refused(Rejected(why))
      case broken => plan == Refused(NoSolution(broken))
  }

  /** What becomes of a closing sample that no retry saves from the table. */
  ghost predicate ClosingRecovers(b: Bundle, c: Committed, sequence: int, obs: Observation, d: Draft, plan: Plan, why: Verdict)
    requires b.Valid() && InTemplate(b, d.template)
  {
    var held := Judged(b, c, obs, d.template, d.nominal, c.target);
    if held.Safe? then StagesAt(b, c, sequence, d, plan, d.nominal, c.target, false)
    else if held.SingularPose? then plan == Refused(Rejected(SingularPose))
    else if held.ClearanceConflict? then RaisesOrRefuses(b, c, sequence, obs, d, plan, why, held.clearance)
    else plan == Refused(Rejected(why))
  }

  /** What a plan makes of the ladder's answer. */
  function PlanOf(b: Bundle, c: Committed, sequence: int, r: Cleared): Plan {
    match r
    case Blocked(fault) => Refused(fault)
    case Cleared(e) => Stage(b, c, sequence, e)
  }

  lemma RaiseRecovers(b: Bundle, c: Committed, sequence: int, obs: Observation, d: Draft, why: Verdict, clearance: real)
    requires b.Valid() && Drafts(b, c, obs, d) && d.phase != Approach
    ensures var r := RaiseRung(b, c, d, clearance);
      RaisesOrRefuses(b, c, sequence, obs, d, PlanOf(b, c, sequence, if r.Some? then r.value else Blocked(Rejected(why))), why, clearance)
  {
    hide Judged;
    hide Validate;
    hide StagesAt;
    hide Stage;
    hide Ik.Solve;
    var raise := RaisedTarget(b, c.target, clearance);
    if raise.Solved? {
      JudgedIsValidated(b, c, obs, d, c.nominal, raise.q);
      StageStagesAt(b, c, sequence, d, d.(nominal := c.nominal, target := raise.q));
    }
    hide Drafts;
  }

  lemma RungsRecoverClearance(b: Bundle, c: Committed, sequence: int, obs: Observation, d: Draft, why: Verdict)
    requires b.Valid() && c.template < |b.hands| && Drafts(b, c, obs, d)
    requires b.cfg.mpcCapture && ClosesHand(b, d.template) && why.ClearanceConflict?
    ensures ClosingRecovers(b, c, sequence, obs, d, PlanOf(b, c, sequence, Rungs(b, c, d, why)), why)
  {
    hide Judged;
    hide Validate;
    hide StagesAt;
    hide Stage;
    hide RaiseRung;
    hide RaisesOrRefuses;
    var held := Judged(b, c, obs, d.template, d.nominal, c.target);
    JudgedIsValidated(b, c, obs, d, d.nominal, c.target);
    StageStagesAt(b, c, sequence, d, d.(target := c.target));
    if held.ClearanceConflict? { RaiseRecovers(b, c, sequence, obs, d, why, held.clearance); }
  }

  /** Every version 5 visual closing sample, from the catch to the one that opens the lift, that is
      rejected for fingertip clearance with no usable retry: the committed arm target is staged when
      its own check accepts it, else the palm is raised by the shortfall, up to 20 mm and around the
      committed nominal, when that solves and passes the recheck, else the tick is refused. */
  lemma ClearanceRecovers(b: Bundle, c: Committed, sequence: int, obs: Observation, d: Draft)
    requires b.Valid() && Asks(b, c, sequence, obs, d)
    requires b.cfg.mpcCapture && ClosesHand(b, d.template)
    requires NothingKept(b, c, obs, d) && Judged(b, c, obs, d.template, d.nominal, d.target).ClearanceConflict?
    ensures ClosingRecovers(b, c, sequence, obs, d, NormalPlan(b, c, sequence, obs), Judged(b, c, obs, d.template, d.nominal, d.target))
  {
    hide CommittedOk;
    hide DraftFor;
    hide Judged;
    hide Stage;
    hide Ladder;
    hide Rungs;
    hide NormalPlan;
    hide ClosingRecovers;
    hide NothingKept;
    PlanIsLadder(b, c, sequence, obs, d);
    LadderGivesWay(b, c, obs, d);
    RungsRecoverClearance(b, c, sequence, obs, d, Judged(b, c, obs, d.template, d.nominal, d.target));
    hide Drafts;
  }

  /** A closure rejected for orientation with no usable retry: when the last commit was not such a hold,
      the arm is held for this tick, if its check accepts that; otherwise the tick is refused. */
  lemma OrientationRecovers(b: Bundle, c: Committed, sequence: int, obs: Observation, d: Draft)
    requires b.Valid() && Asks(b, c, sequence, obs, d) && c.phase == Closure
    requires NothingKept(b, c, obs, d) && Judged(b, c, obs, d.template, d.nominal, d.target).OrientationConflict?
    ensures var plan := NormalPlan(b, c, sequence, obs); var held := Judged(b, c, obs, d.template, d.nominal, c.target);
      if !c.orientationHold && held.Safe? then StagesAt(b, c, sequence, d, plan, d.nominal, c.target, true)
      else if !c.orientationHold && held.SingularPose? then plan == Refused(Rejected(SingularPose))
      else plan == Refused(Rejected(Judged(b, c, obs, d.template, d.nominal, d.target)))
  {
    hide CommittedOk;
    hide DraftFor;
    hide Judged;
    hide Stage;
    hide StagesAt;
    hide Ladder;
    hide Validate;
    hide RaiseRung;
    hide NormalPlan;
    hide NothingKept;
    PlanIsLadder(b, c, sequence, obs, d);
    LadderGivesWay(b, c, obs, d);
    JudgedIsValidated(b, c, obs, d, d.nominal, c.target);
    StageStagesAt(b, c, sequence, d, d.(target := c.target, orientationHold := true));
  }

  /** The whole committed command again, under the next sequence number. */
  ghost predicate KeepsCommand(c: Committed, sequence: int, d: Draft, plan: Plan) {
    && plan.Planned? && !plan.raised && plan.p.sequence == sequence && plan.p.phase == c.phase
    && plan.p.target == c.target && plan.p.nominal == c.nominal && plan.p.goal == c.goal && plan.p.correction == c.correction
    && plan.p.template == c.template && plan.p.preshape == c.preshape && plan.p.closureStep == c.closureStep
    && plan.p.liftStep == c.liftStep && Some(plan.p.height) == c.height && !plan.p.orientationHold
    && plan.p.capture == c.capture && plan.p.lift == c.lift
    && plan.p.liveFitSeen == d.liveFitSeen && plan.p.evidence == d.evidence
  }

  lemma FreezeKeepsCommand(b: Bundle, c: Committed, sequence: int, obs: Observation, d: Draft)
    requires b.Valid() && CommittedOk(b, c) && Drafts(b, c, obs, d) && d.phase == Approach && c.template >= 0
    ensures KeepsCommand(c, sequence, d, Stage(b, c, sequence, FrozenApproach(c, d)))
  {
    hide GraspLift;
    hide CommandEnveloped;
    hide GoalReserved;
    hide LiftInMargin;
    hide Minus;
  }

  lemma CommandWasEnveloped(b: Bundle, c: Committed) returns (before: Joints)
    requires b.Valid() && CommittedOk(b, c) && 0 <= c.template < |b.hands|
    ensures Enveloped(b, before, c.nominal, c.target, HandAt(b, c.template))
  {
    hide Enveloped;
    hide GoalReserved;
    hide PhaseIndices;
    hide PhaseEvidence;
    before :| Enveloped(b, before, c.nominal, c.target, HandAt(b, c.template));
  }

  /** An approach rejected for orientation or clearance with no usable retry keeps the whole committed
      command, whatever it is: it is never refused once something has been committed. */
  lemma ApproachRecovers(b: Bundle, c: Committed, sequence: int, obs: Observation, d: Draft)
    requires b.Valid() && Asks(b, c, sequence, obs, d)
    requires d.template < b.cfg.catchIndex && c.template >= 0
    requires var first := Judged(b, c, obs, d.template, d.nominal, d.target);
      NothingKept(b, c, obs, d) && (first.OrientationConflict? || first.ClearanceConflict?)
    ensures KeepsCommand(c, sequence, d, NormalPlan(b, c, sequence, obs))
  {
    hide CommittedOk;
    hide DraftFor;
    hide Judged;
    hide Stage;
    hide KeepsCommand;
    hide Ladder;
    hide Validate;
    hide LastRung;
    hide RaiseRung;
    hide Enveloped;
    hide FrozenApproach;
    hide NormalPlan;
    hide NothingKept;
    PlanIsLadder(b, c, sequence, obs, d);
    LadderGivesWay(b, c, obs, d);
    var before := CommandWasEnveloped(b, c);
    FreezeAlwaysPasses(b, c, d, Judged(b, c, obs, d.template, d.nominal, d.target), before);
    FreezeKeepsCommand(b, c, sequence, obs, d);
  }

  /** Nothing else is recovered: a rejection of any other kind, a lift or hold tick, an older version's
      closing hand too close to the table, and an approach before the first commit are refused with
      the draft's own verdict. */
  lemma OthersAreRefused(b: Bundle, c: Committed, sequence: int, obs: Observation, d: Draft)
    requires b.Valid() && Asks(b, c, sequence, obs, d)
    requires var first := Judged(b, c, obs, d.template, d.nominal, d.target);
      && NothingKept(b, c, obs, d)
      && !(first.ClearanceConflict? && b.cfg.mpcCapture && ClosesHand(b, d.template))
      && !(first.OrientationConflict? && c.phase == Closure)
      && !((first.OrientationConflict? || first.ClearanceConflict?) && d.template < b.cfg.catchIndex && c.template >= 0)
    ensures NormalPlan(b, c, sequence, obs) == Refused(Rejected(Judged(b, c, obs, d.template, d.nominal, d.target)))
  {
    hide CommittedOk;
    hide DraftFor;
    hide Judged;
    hide Stage;
    hide Ladder;
    hide Validate;
    hide RaiseRung;
    hide FrozenApproach;
    hide NormalPlan;
    hide NothingKept;
    PlanIsLadder(b, c, sequence, obs, d);
    LadderGivesWay(b, c, obs, d);
  }
}
