/** Where the arm is sent while the hand closes: along the recorded closure and the goal last tracked,
    with vision and without. */
module TabletopFollowing {
  import opened Wrappers
  import opened JointMath
  import opened Scalars
  import opened TabletopModel
  import opened TabletopSafety
  import opened TabletopTicks
  import opened TabletopInvariant
  import opened TabletopRuns
  import opened TabletopTheorems
  import opened TabletopOcclusion
  import opened TabletopMotion
  import opened TabletopRecovery
  import MinimumJerk
  import Ik = PoseIk

  // ---- One joint ----------------------------------------------------------------------

  /** `to` is nearer to the goal than `from` by exactly `step`, or there, and on the way. */
  predicate MovesToward(from: real, to: real, goal: real, step: real) {
    && Abs(goal - to) == Max(0.0, Abs(goal - from) - step)
    && Abs(to - from) + Abs(goal - to) == Abs(goal - from)
  }

  lemma SlewMovesToward(from: real, goal: real, step: real, to: real)
    requires step > 0.0
    ensures MovesToward(from, to, goal, step) <==> to == Slew(from, goal, step)
  {
  }

  /** Of two slews in a row toward one goal only the shorter counts. */
  lemma SlewTwice(from: real, goal: real, long: real, short: real)
    requires 0.0 < short <= long
    ensures Slew(from, Slew(from, goal, long), short) == Slew(from, goal, short)
  {
  }

  /** The desired correction of one joint: what the goal asks for beyond the recorded grasp, approached
      by at most the correction step. */
  function Corrected(b: Bundle, c: Committed, goal: Joints, i: nat): real
    requires b.Valid() && i < DOF
  {
    Slew(c.correction[i], goal[i] - b.ReferenceGrasp()[i], b.cfg.maxCorrectionStep)
  }

  // ---- Occluded ticks -----------------------------------------------------------------

  /** One joint of a blind closure that had been captured ahead of time: the nominal follows the next
      recorded sample, the target follows it corrected, both by at most the tracking slew. */
  ghost predicate JointFollows(b: Bundle, c: Committed, nominal: Joints, target: Joints, i: nat)
    requires b.Valid() && i < DOF && -1 <= c.template < b.cfg.steps - 1
  {
    && MovesToward(c.nominal[i], nominal[i], b.recorded[c.template + 1][i], TrackingSlew(b))
    && MovesToward(c.target[i], target[i], nominal[i] + Corrected(b, c, c.goal, i), TrackingSlew(b))
  }

  /** Where an occluded tick aims: along the recorded closure after a temporal capture, nowhere else
      after any other. */
  ghost predicate Aims(b: Bundle, c: Committed, nominal: Joints, target: Joints)
    requires b.Valid() && -1 <= c.template < b.cfg.steps - 1
  {
    if c.fullOccluded && !c.currentVolume then forall i :: 0 <= i < DOF ==> JointFollows(b, c, nominal, target, i)
    else nominal == c.nominal && target == c.target
  }

  lemma JointAims(b: Bundle, c: Committed, nominal: Joints, target: Joints, i: nat)
    requires b.Valid() && b.cfg.mpcCapture && -1 <= c.template < b.cfg.steps - 1 && i < DOF
    requires c.fullOccluded && !c.currentVolume
    ensures JointFollows(b, c, OccludedNominal(b, c), OccludedTarget(b, c), i)
    ensures JointFollows(b, c, nominal, target, i) && nominal == OccludedNominal(b, c) ==> target[i] == OccludedTarget(b, c)[i]
    ensures JointFollows(b, c, nominal, target, i) ==> nominal[i] == OccludedNominal(b, c)[i]
  {
    hide Slew;
    hide MovesToward;
    var n, t, slew := OccludedNominal(b, c), OccludedTarget(b, c), TrackingSlew(b);
    assert n[i] == Slew(c.nominal[i], b.recorded[c.template + 1][i], slew);
    var wanted := n[i] + Corrected(b, c, c.goal, i);
    assert ApproachTarget(b, c, n, c.goal)[i] == Slew(c.target[i], wanted, b.cfg.maxTargetStep);
    assert t[i] == Slew(c.target[i], Slew(c.target[i], wanted, b.cfg.maxTargetStep), slew);
    SlewTwice(c.target[i], wanted, b.cfg.maxTargetStep, slew);
    SlewMovesToward(c.nominal[i], b.recorded[c.template + 1][i], slew, n[i]);
    SlewMovesToward(c.nominal[i], b.recorded[c.template + 1][i], slew, nominal[i]);
    SlewMovesToward(c.target[i], wanted, slew, t[i]);
    SlewMovesToward(c.target[i], wanted, slew, target[i]);
  }

  /** There is exactly one such aim. */
  lemma AimIsUnique(b: Bundle, c: Committed, nominal: Joints, target: Joints)
    requires b.Valid() && b.cfg.mpcCapture && -1 <= c.template < b.cfg.steps - 1
    ensures Aims(b, c, nominal, target) <==> nominal == OccludedNominal(b, c) && target == OccludedTarget(b, c)
  {
    hide JointFollows;
    hide OccludedNominal;
    hide OccludedTarget;
    if c.fullOccluded && !c.currentVolume {
      forall i | 0 <= i < DOF
        ensures JointFollows(b, c, OccludedNominal(b, c), OccludedTarget(b, c), i)
        ensures Aims(b, c, nominal, target) ==> nominal[i] == OccludedNominal(b, c)[i]
      {
        JointAims(b, c, nominal, target, i);
      }
      if Aims(b, c, nominal, target) {
        SameJoints(nominal, OccludedNominal(b, c));
        forall i | 0 <= i < DOF ensures target[i] == OccludedTarget(b, c)[i] {
          JointAims(b, c, nominal, target, i);
        }
        SameJoints(target, OccludedTarget(b, c));
      }
    } else {
      HeldAim(b, c);
    }
  }

  lemma HeldAim(b: Bundle, c: Committed)
    requires b.Valid() && -1 <= c.template < b.cfg.steps - 1 && !(c.fullOccluded && !c.currentVolume)
    ensures OccludedNominal(b, c) == c.nominal && OccludedTarget(b, c) == c.target
  {
  }

  /** A plan that stages an occluded closing sample: the last one opens the lift, and needs the lift from
      its very target to be solvable. */
  ghost predicate OccludedStagesAt(b: Bundle, c: Committed, sequence: int, plan: Plan, nominal: Joints, target: Joints, raised: bool)
    requires b.Valid()
  {
    var template := c.template + 1;
    var lift := Ik.Solve(b.geometry.graspLift(target), b.lower, b.upper, target, Ik.REFINED_PASSES);
    if template == b.cfg.closureEnd && !lift.Solved? then plan == Refused(NoSolution(lift))
    else
      && plan.Planned? && plan.raised == raised && plan.p.sequence == sequence
      && plan.p.template == template && plan.p.closureStep == template - b.cfg.catchIndex
      && plan.p.target == target && plan.p.nominal == nominal && plan.p.correction == Minus(target, nominal)
      && plan.p.goal == c.goal && plan.p.fullOccluded == c.fullOccluded && plan.p.currentVolume == c.currentVolume
      && !plan.p.orientationHold
      && (if template == b.cfg.closureEnd then plan.p.phase == Lift && plan.p.capture == Some(target) && plan.p.lift == Some(lift.q)
          else plan.p.phase == Closure && plan.p.capture == c.capture && plan.p.lift == c.lift)
  }

  lemma StageOccludedStagesAt(b: Bundle, c: Committed, sequence: int, nominal: Joints, target: Joints, raised: bool)
    requires b.Valid() && ClosureConsistent(b, c)
    ensures OccludedStagesAt(b, c, sequence, StageOccluded(b, c, sequence, nominal, target, raised), nominal, target, raised)
  {
    hide Ik.Solve;
    hide Minus;
  }

  /** What an occluded tick makes of its aim: staged when the commanded and the open hand clear the
      table and every other envelope holds; raised by the shortfall, up to 20 mm, around the committed
      nominal when only clearance is missing; refused otherwise. */
  ghost predicate OccludedRecovers(b: Bundle, c: Committed, sequence: int, plan: Plan, nominal: Joints, target: Joints)
    requires b.Valid() && -1 <= c.template < b.cfg.steps - 1
  {
    var hand := HandAt(b, c.template + 1);
    var v := SafeClosureTarget(b, c.target, nominal, target, hand, OpenHand);
    if v.Safe? then OccludedStagesAt(b, c, sequence, plan, nominal, target, false)
    else if !v.ClearanceConflict? then plan == Refused(Rejected(v))
    else
      var up := Shortfall(b, v.clearance);
      if !(0.0 < up <= 0.020) then plan == Refused(Rejected(v))
      else match Ik.Solve(b.geometry.raisePalm(c.target, up), b.lower, b.upper, c.target, Ik.REFINED_PASSES)
        case Solved(q) =>
          var again := SafeClosureTarget(b, c.target, c.nominal, q, hand, OpenHand);
          if again.Safe? then OccludedStagesAt(b, c, sequence, plan, c.nominal, q, true) else plan == Refused(Rejected(again))
        case broken => plan == Refused(NoSolution(broken))
  }

  /** Without vision, a closure committed for full occlusion, or with at most five samples to go, aims at
      the next recorded sample after a temporal capture and at its own target after any other, and
      stages, raises or refuses that aim. */
  lemma OccludedTickRecovers(b: Bundle, c: Committed, sequence: int, nominal: Joints, target: Joints)
    requires b.Valid() && CommittedOk(b, c) && b.cfg.mpcCapture && c.phase == Closure
    requires c.fullOccluded || b.cfg.closureEnd - c.template <= 5
    requires -1 <= c.template < b.cfg.steps - 1 && Aims(b, c, nominal, target)
    ensures OccludedRecovers(b, c, sequence, OccludedPlan(b, c, sequence, true), nominal, target)
  {
    hide OccludedNominal;
    hide OccludedTarget;
    hide StageOccluded;
    hide OccludedStagesAt;
    hide SafeClosureTarget;
    hide Ik.Solve;
    hide CommittedOk;
    AimIsUnique(b, c, nominal, target);
    ClosureIsConsistent(b, c);
    OccludedDeclinesIff(b, c, sequence, true);
    StageOccludedStagesAt(b, c, sequence, nominal, target, false);
    var v := OccludedVerdict(b, c, nominal, target);
    if v.ClearanceConflict? {
      var raise := RaisedTarget(b, c.target, v.clearance);
      if raise.Solved? { StageOccludedStagesAt(b, c, sequence, c.nominal, raise.q, true); }
    }
    hide Aims;
    hide ClosureConsistent;
  }

  lemma ClosureIsConsistent(b: Bundle, c: Committed)
    requires b.Valid() && CommittedOk(b, c) && c.phase == Closure
    ensures ClosureConsistent(b, c) && -1 <= c.template < b.cfg.steps - 1
  {
    hide CommandEnveloped;
    hide GoalReserved;
    hide LiftInMargin;
  }

  // ---- The blind closure as a whole ---------------------------------------------------

  /** How far one joint's committed nominal is from the recorded arm at the committed sample. */
  function Lag(b: Bundle, c: Committed, i: nat): real
    requires b.Valid() && 0 <= c.template < b.cfg.steps && i < DOF
  {
    Abs(b.recorded[c.template][i] - c.nominal[i])
  }

  /** How far its committed correction is from the one that the goal asks for. */
  function Offset(b: Bundle, c: Committed, i: nat): real
    requires b.Valid() && i < DOF
  {
    Abs(c.goal[i] - b.ReferenceGrasp()[i] - c.correction[i])
  }

  /** With one limit on the nominal and on the target, the correction never loses ground. */
  lemma FollowingKeepsOffset(nominal: real, target: real, sample: real, desired: real, step: real, slew: real, nominal': real, target': real)
    requires step > 0.0 && slew > 0.0
    requires MovesToward(nominal, nominal', sample, slew)
    requires MovesToward(target, target', nominal' + Slew(target - nominal, desired, step), slew)
    ensures Abs(desired - (target' - nominal')) <= Abs(desired - (target - nominal))
    ensures nominal' == nominal ==> Abs(desired - (target' - nominal')) == Max(0.0, Abs(desired - (target - nominal)) - Min(step, slew))
  {
    SlewMovesToward(nominal, sample, slew, nominal');
    SlewMovesToward(target, nominal' + Slew(target - nominal, desired, step), slew, target');
    hide MovesToward;
  }

  lemma LagAfter(nominal: real, before: real, sample: real, slew: real, pace: real, nominal': real)
    requires slew > 0.0 && Abs(sample - before) <= pace && MovesToward(nominal, nominal', sample, slew)
    ensures Abs(sample - nominal') <= Max(0.0, Abs(before - nominal) + pace - slew)
  {
  }

  /** What one step of a blind chain does after a temporal capture. */
  ghost predicate StepFollows(b: Bundle, c: Committed, next: Committed)
    requires b.Valid()
  {
    && 0 <= c.template < b.cfg.steps - 1 && next.template == c.template + 1
    && (forall i :: 0 <= i < DOF ==> JointFollows(b, c, next.nominal, next.target, i))
    && next.goal == c.goal && next.correction == Minus(next.target, next.nominal) && c.correction == Minus(c.target, c.nominal)
    && next.fullOccluded && !next.currentVolume
    && (next.phase == Lift ==> next.capture == Some(next.target))
  }

  lemma UnraisedPlanAims(b: Bundle, c: Committed)
    requires b.Valid() && CommittedOk(b, c) && Indexed(b, c) && b.cfg.mpcCapture && c.phase == Closure && c.fullOccluded
    requires BlindPlan(b, c).Planned? && !BlindPlan(b, c).raised
    ensures -1 <= c.template < b.cfg.steps - 1
    ensures OccludedStagesAt(b, c, c.sequence + 1, BlindPlan(b, c), OccludedNominal(b, c), OccludedTarget(b, c), false)
    ensures Aims(b, c, OccludedNominal(b, c), OccludedTarget(b, c))
  {
    hide CommittedOk;
    hide OccludedPlan;
    hide SafeClosureTarget;
    hide OccludedNominal;
    hide OccludedTarget;
    hide Ik.Solve;
    hide Minus;
    hide Aims;
    ClosureIsConsistent(b, c);
    AimIsUnique(b, c, OccludedNominal(b, c), OccludedTarget(b, c));
    OccludedTickRecovers(b, c, c.sequence + 1, OccludedNominal(b, c), OccludedTarget(b, c));
  }

  lemma BlindStepFollows(b: Bundle, c: Committed, next: Committed)
    requires b.Valid() && BlindStep(b, c, next) && CommittedOk(b, c) && b.cfg.mpcCapture
    requires c.phase == Closure && c.fullOccluded && !c.currentVolume && !AfterBlind(b, c).reply.output.raised
    ensures StepFollows(b, c, next)
  {
    hide AfterBlind;
    hide BlindPlan;
    hide JointFollows;
    hide CommittedOk;
    hide OccludedNominal;
    hide OccludedTarget;
    hide Ik.Solve;
    hide Minus;
    BlindCallIsPlan(b, c);
    UnraisedPlanAims(b, c);
    CorrectionIsDifference(b, c);
  }

  lemma CorrectionIsDifference(b: Bundle, c: Committed)
    requires b.Valid() && CommittedOk(b, c)
    ensures c.correction == Minus(c.target, c.nominal) && (c.phase == Closure && !c.currentVolume ==> c.template >= 0)
  {
  }

  /** A temporal capture that blind ticks carry on. */
  ghost predicate Following(b: Bundle, c: Committed)
    requires b.Valid()
  {
    Carried(b, c) && Indexed(b, c) && c.fullOccluded && !c.currentVolume && c.template >= 0
    && (c.phase == Closure <==> c.template < b.cfg.closureEnd)
  }

  lemma CaptureFollows(b: Bundle, c: Committed)
    requires b.Valid() && CommittedOk(b, c) && b.cfg.mpcCapture && c.phase == Closure && c.fullOccluded && !c.currentVolume
    ensures Following(b, c)
  {
    hide CommandEnveloped;
    hide GoalReserved;
    hide LiftInMargin;
  }

  lemma FollowingGoesOn(b: Bundle, c: Committed, next: Committed)
    requires b.Valid() && BlindStep(b, c, next) && Following(b, c) && c.template < b.cfg.closureEnd
    requires !AfterBlind(b, c).reply.output.raised
    ensures Following(b, next) && StepFollows(b, c, next)
  {
    hide AfterBlind;
    hide CommitOf;
    hide StepFollows;
    BlindCallIsPlan(b, c);
    BlindPlanCarries(b, c);
    hide BlindPlan;
    BlindStepFollows(b, c, next);
    FlagsAfterStep(b, c, next);
    PhaseBySample(b, next);
    hide CommittedOk;
  }

  lemma FlagsAfterStep(b: Bundle, c: Committed, next: Committed)
    requires b.Valid() && StepFollows(b, c, next)
    ensures next.fullOccluded && !next.currentVolume && next.template == c.template + 1
  {
    hide JointFollows;
  }

  lemma PhaseBySample(b: Bundle, c: Committed)
    requires b.Valid() && CommittedOk(b, c) && c.phase != Approach && c.template >= 0 && !c.currentVolume
    ensures c.phase == Closure <==> c.template < b.cfg.closureEnd
  {
    hide CommandEnveloped;
    hide GoalReserved;
    hide LiftInMargin;
  }

  /** After a temporal capture, blind closing ticks that are never raised follow the recorded closure
      sample by sample: towards every one of them each joint's nominal moves by the tracking slew or
      arrives, and its target follows the nominal and the goal last tracked. */
  lemma {:induction false} BlindChainFollows(b: Bundle, cs: seq<Committed>, i: nat)
    requires b.Valid() && BlindChain(b, cs) && Unraised(b, cs) && Following(b, cs[0])
    requires i < |cs| && cs[0].template + i <= b.cfg.closureEnd
    ensures Following(b, cs[i]) && cs[i].template == cs[0].template + i && cs[i].goal == cs[0].goal
    ensures i > 0 ==> StepFollows(b, cs[i - 1], cs[i])
  {
    if i > 0 {
      BlindChainFollows(b, cs, i - 1);
      assert BlindStep(b, cs[i - 1], cs[i - 1 + 1]);
      hide AfterBlind;
      hide Following;
      hide JointFollows;
      assert Following(b, cs[i - 1]) && cs[i - 1].template < b.cfg.closureEnd;
      FollowingGoesOn(b, cs[i - 1], cs[i]);
    }
  }

  /** Joint `i` of the recorded closure moves by at most `pace` between samples `from` and `to`. */
  ghost predicate Paced(b: Bundle, from: int, to: int, i: nat, pace: real)
    requires b.Valid() && 0 <= from <= to < b.cfg.steps && i < DOF
  {
    forall k :: from <= k < to ==> Abs(b.recorded[k + 1][i] - b.recorded[k][i]) <= pace
  }

  lemma StepKeepsUp(b: Bundle, c: Committed, next: Committed, i: nat, pace: real)
    requires b.Valid() && b.cfg.mpcCapture && StepFollows(b, c, next) && i < DOF
    requires Abs(b.recorded[c.template + 1][i] - b.recorded[c.template][i]) <= pace
    ensures Lag(b, next, i) <= Max(0.0, Lag(b, c, i) + pace - TrackingSlew(b))
    ensures Offset(b, next, i) <= Offset(b, c, i)
  {
    hide MovesToward;
    hide Slew;
    assert JointFollows(b, c, next.nominal, next.target, i);
    var desired := c.goal[i] - b.ReferenceGrasp()[i];
    var sample := b.recorded[c.template + 1][i];
    FollowingKeepsOffset(c.nominal[i], c.target[i], sample, desired, b.cfg.maxCorrectionStep, TrackingSlew(b), next.nominal[i], next.target[i]);
    LagAfter(c.nominal[i], b.recorded[c.template][i], sample, TrackingSlew(b), pace, next.nominal[i]);
  }

  lemma StepKeepsBounds(b: Bundle, first: Committed, c: Committed, next: Committed, n: nat, i: nat, pace: real)
    requires b.Valid() && b.cfg.mpcCapture && StepFollows(b, c, next) && i < DOF && n > 0 && 0 <= first.template < b.cfg.steps
    requires Abs(b.recorded[c.template + 1][i] - b.recorded[c.template][i]) <= pace
    requires Lag(b, c, i) <= Max(0.0, Lag(b, first, i) + Repeated(n - 1, pace - TrackingSlew(b)))
    requires Offset(b, c, i) <= Offset(b, first, i)
    ensures Lag(b, next, i) <= Max(0.0, Lag(b, first, i) + Repeated(n, pace - TrackingSlew(b)))
    ensures Offset(b, next, i) <= Offset(b, first, i)
  {
    hide JointFollows;
    hide Offset;
    hide Repeated;
    StepKeepsUp(b, c, next, i, pace);
    RepeatedNext(n, pace - TrackingSlew(b));
    StillWithin(Lag(b, first, i), Repeated(n - 1, pace - TrackingSlew(b)), pace - TrackingSlew(b), Lag(b, c, i), Lag(b, next, i));
    hide Lag;
  }

  /** Then the lag behind the recording shrinks with every sample by what the slew has to spare over the
      recording's own pace, down to nothing, and the correction never moves away from the goal's. */
  lemma {:induction false} BlindChainKeepsUp(b: Bundle, cs: seq<Committed>, n: nat, i: nat, pace: real)
    requires b.Valid() && BlindChain(b, cs) && Unraised(b, cs) && Following(b, cs[0])
    requires n < |cs| && cs[0].template + n <= b.cfg.closureEnd && i < DOF
    requires Paced(b, cs[0].template, cs[0].template + n, i, pace)
    ensures Following(b, cs[n]) && cs[n].template == cs[0].template + n
    ensures Lag(b, cs[n], i) <= Max(0.0, Lag(b, cs[0], i) + Repeated(n, pace - TrackingSlew(b)))
    ensures Offset(b, cs[n], i) <= Offset(b, cs[0], i)
  {
    hide BlindStep;
    hide Unraised;
    hide StepFollows;
    hide Carried;
    hide Indexed;
    hide Lag;
    hide Offset;
    hide TrackingSlew;
    BlindChainFollows(b, cs, n);
    if n == 0 {
      LagIsDistance(b, cs[0], i);
    } else {
      BlindChainKeepsUp(b, cs, n - 1, i, pace);
      FollowingIsVersion5(b, cs[0]);
      StepKeepsBounds(b, cs[0], cs[n - 1], cs[n], n, i, pace);
    }
  }

  lemma LagIsDistance(b: Bundle, c: Committed, i: nat)
    requires b.Valid() && 0 <= c.template < b.cfg.steps && i < DOF
    ensures Lag(b, c, i) >= 0.0
  {
  }

  lemma FollowingIsVersion5(b: Bundle, c: Committed)
    requires b.Valid() && Following(b, c)
    ensures b.cfg.mpcCapture
  {
    hide CommittedOk;
  }

  lemma RepeatedNext(n: nat, step: real)
    requires n > 0
    ensures Repeated(n, step) == Repeated(n - 1, step) + step
    ensures step >= 0.0 ==> Repeated(n - 1, step) >= 0.0
    ensures step <= 0.0 ==> Repeated(n - 1, step) <= 0.0
  {
    assert n as real == (n - 1) as real + 1.0;
  }

  lemma StillWithin(first: real, covered: real, step: real, before: real, after: real)
    requires before <= Max(0.0, first + covered) && after <= Max(0.0, before + step) && first >= 0.0
    requires step >= 0.0 ==> covered >= 0.0
    ensures after <= Max(0.0, first + covered + step)
  {
  }

  /** At the last closing sample the arm has captured, and each joint of the capture misses the goal last
      tracked by no more than the lag that is left and the correction that was lacking. */
  lemma BlindChainCaptures(b: Bundle, cs: seq<Committed>, n: nat, i: nat, pace: real)
    requires b.Valid() && BlindChain(b, cs) && Unraised(b, cs) && Following(b, cs[0])
    requires 0 < n < |cs| && cs[0].template + n == b.cfg.closureEnd && i < DOF
    requires Paced(b, cs[0].template, cs[0].template + n, i, pace)
    ensures cs[n].phase == Lift && cs[n].capture == Some(cs[n].target)
    ensures Abs(cs[0].goal[i] - cs[n].target[i]) <=
      Max(0.0, Lag(b, cs[0], i) + Repeated(n, pace - TrackingSlew(b))) + Offset(b, cs[0], i)
  {
    BlindChainFollows(b, cs, n);
    BlindChainKeepsUp(b, cs, n, i, pace);
    assert b.cfg.mpcCapture by { FollowingIsVersion5(b, cs[0]); }
    FollowedToLift(b, cs[n - 1], cs[n]);
    hide BlindStep;
    hide Repeated;
    hide JointFollows;
    hide Paced;
    hide Following;
    MissAt(b, cs[n], i);
  }

  lemma FollowedToLift(b: Bundle, c: Committed, next: Committed)
    requires b.Valid() && Following(b, next) && StepFollows(b, c, next) && next.template == b.cfg.closureEnd
    ensures next.phase == Lift && next.capture == Some(next.target) && next.correction == Minus(next.target, next.nominal)
  {
    hide JointFollows;
    hide CommandEnveloped;
    hide GoalReserved;
    hide LiftInMargin;
  }

  lemma MissAt(b: Bundle, c: Committed, i: nat)
    requires b.Valid() && b.cfg.mpcCapture && c.template == b.cfg.closureEnd && i < DOF
    requires c.correction == Minus(c.target, c.nominal)
    ensures Abs(c.goal[i] - c.target[i]) <= Lag(b, c, i) + Offset(b, c, i)
  {
  }

  // ---- Visual ticks -------------------------------------------------------------------

  /** Where the nominal of a visual tick is sent, and by how much at most. */
  function NominalAim(b: Bundle, c: Committed): Joints
    requires b.Valid() && -1 <= c.template < b.cfg.steps - 1
  {
    if c.phase == Approach then b.recorded[if b.cfg.mpcCapture then b.cfg.catchIndex - 1 else b.cfg.catchIndex]
    else if b.cfg.mpcCapture then b.recorded[c.template + 1]
    else b.recorded[b.cfg.catchIndex]
  }

  function NominalStep(b: Bundle, c: Committed): real {
    if c.phase == Closure && b.cfg.mpcCapture then TrackingSlew(b) else b.cfg.approachStep
  }

  /** What a visual approach or closure tick drafts for joint `i`. */
  ghost predicate DraftFollows(b: Bundle, c: Committed, d: Draft, i: nat)
    requires b.Valid() && i < DOF && -1 <= c.template < b.cfg.steps - 1
  {
    && (if c.phase == Closure && c.currentVolume then d.nominal[i] == c.nominal[i]
        else MovesToward(c.nominal[i], d.nominal[i], NominalAim(b, c)[i], NominalStep(b, c)))
    && MovesToward(c.target[i], d.target[i], d.nominal[i] + Corrected(b, c, d.goal, i), StepOf(b, d.template))
  }

  /** The goal of the tick is nearer to the one just solved than the last goal by the filtered fraction of
      their distance, or by the correction step if that is less, and on the way. */
  ghost predicate GoalFollows(b: Bundle, c: Committed, raw: Joints, goal: Joints, i: nat)
    requires b.Valid() && i < DOF
  {
    MovesToward(c.goal[i], goal[i], raw[i], Min(b.cfg.filterAlpha * Abs(raw[i] - c.goal[i]), b.cfg.maxCorrectionStep))
  }

  lemma FilteredFollows(b: Bundle, c: Committed, raw: Joints, i: nat)
    requires b.Valid() && i < DOF
    ensures GoalFollows(b, c, raw, FilteredGoal(b, c, raw), i)
  {
    hide FilteredGoal;
    FilterClosesIn(b, c, raw, i);
  }

  lemma ApproachDraftFollows(b: Bundle, c: Committed, index: int, obs: Observation, goal: Joints, height: real, i: nat)
    requires b.Valid() && CommittedOk(b, c) && c.phase == Approach && i < DOF && -1 <= c.template < b.cfg.steps - 1
    requires ApproachDraft(b, c, index, obs, goal, height).Drafted?
    ensures DraftFollows(b, c, ApproachDraft(b, c, index, obs, goal, height).d, i)
    ensures ApproachDraft(b, c, index, obs, goal, height).d.goal == goal
  {
    hide Slew;
    hide MovesToward;
    hide CaptureGate;
    hide CommandEnveloped;
    hide GoalReserved;
    hide LiftInMargin;
    hide PhaseEvidence;
    var d := ApproachDraft(b, c, index, obs, goal, height).d;
    SlewMovesToward(c.nominal[i], NominalAim(b, c)[i], NominalStep(b, c), d.nominal[i]);
    ClippedTarget(b, c, d.nominal, goal, d.template, i);
    hide ApproachTarget;
    hide ClosureTarget;
    assert d.nominal[i] == Slew(c.nominal[i], NominalAim(b, c)[i], NominalStep(b, c));
  }

  /** The clipped target of a tick moves toward nominal plus correction. */
  lemma ClippedTarget(b: Bundle, c: Committed, nominal: Joints, goal: Joints, template: int, i: nat)
    requires b.Valid() && i < DOF
    ensures var wanted := nominal[i] + Corrected(b, c, goal, i); var target := ApproachTarget(b, c, nominal, goal);
      && MovesToward(c.target[i], target[i], wanted, b.cfg.maxTargetStep)
      && (b.cfg.mpcCapture ==> MovesToward(c.target[i], ClosureTarget(b, c, target)[i], wanted, TrackingSlew(b)))
      && (!b.cfg.mpcCapture ==> ClosureTarget(b, c, target) == target)
  {
    hide Slew;
    hide MovesToward;
    var wanted := nominal[i] + Corrected(b, c, goal, i);
    var target := ApproachTarget(b, c, nominal, goal);
    assert target[i] == Slew(c.target[i], wanted, b.cfg.maxTargetStep);
    SlewMovesToward(c.target[i], wanted, b.cfg.maxTargetStep, target[i]);
    if b.cfg.mpcCapture {
      SlewTwice(c.target[i], wanted, b.cfg.maxTargetStep, TrackingSlew(b));
      SlewMovesToward(c.target[i], wanted, TrackingSlew(b), ClosureTarget(b, c, target)[i]);
    }
  }

  lemma ClosureDraftFollows(b: Bundle, c: Committed, obs: Observation, goal: Joints, height: real, i: nat)
    requires b.Valid() && CommittedOk(b, c) && c.phase == Closure && i < DOF && -1 <= c.template < b.cfg.steps - 1
    requires ClosureDraft(b, c, obs, goal, height).Drafted?
    ensures DraftFollows(b, c, ClosureDraft(b, c, obs, goal, height).d, i)
    ensures ClosureDraft(b, c, obs, goal, height).d.goal == goal
  {
    hide Slew;
    hide MovesToward;
    hide CommandEnveloped;
    hide GoalReserved;
    hide LiftInMargin;
    hide PhaseEvidence;
    var d := ClosureDraft(b, c, obs, goal, height).d;
    SlewMovesToward(c.nominal[i], NominalAim(b, c)[i], NominalStep(b, c), d.nominal[i]);
    ClippedTarget(b, c, d.nominal, goal, d.template, i);
    hide ApproachTarget;
    hide ClosureTarget;
  }

  /** A visual approach or closure tick drafts, joint by joint: a goal filtered toward the one just
      solved; a nominal on its way to the reference approach while the hand is open, to the next
      recorded sample (to the recorded grasp before version 5) while it closes, and kept after a
      current-volume capture; and a target on its way to that nominal corrected for the goal. */
  lemma VisualTickFollows(b: Bundle, c: Committed, sequence: int, obs: Observation, d: Draft, i: nat)
    requires b.Valid() && Asks(b, c, sequence, obs, d) && (c.phase == Approach || c.phase == Closure) && i < DOF
    ensures -1 <= c.template < b.cfg.steps - 1 && DraftFollows(b, c, d, i)
    ensures var raw := RawGoal(b, c, obs, LockedHeight(b, c, obs.observedHeight));
      raw.Reached? && GoalFollows(b, c, raw.q, d.goal, i)
  {
    hide CommittedOk;
    hide ApproachDraft;
    hide ClosureDraft;
    hide RawGoal;
    hide FilteredGoal;
    hide LockedHeight;
    hide DraftFollows;
    hide GoalFollows;
    var height := LockedHeight(b, c, obs.observedHeight);
    var raw := RawGoal(b, c, obs, height).q;
    BeforeLiftEnd(b, c);
    FilteredFollows(b, c, raw, i);
    if c.phase == Approach {
      ApproachDraftFollows(b, c, sequence - 1, obs, FilteredGoal(b, c, raw), height, i);
    } else {
      ClosureDraftFollows(b, c, obs, FilteredGoal(b, c, raw), height, i);
    }
  }

  lemma BeforeLiftEnd(b: Bundle, c: Committed)
    requires b.Valid() && CommittedOk(b, c) && (c.phase == Approach || c.phase == Closure)
    ensures -1 <= c.template < b.cfg.closureEnd
  {
    hide CommandEnveloped;
    hide GoalReserved;
    hide LiftInMargin;
    hide PhaseEvidence;
  }

  /** A visual lift tick drafts the point of the segment from capture to lift target, and of the recorded
      one, at the minimum-jerk share of its lift step; a hold tick drafts the lift target. */
  lemma LiftDraftFollows(b: Bundle, c: Committed, sequence: int, obs: Observation, d: Draft, i: nat)
    requires b.Valid() && Asks(b, c, sequence, obs, d) && (c.phase == Lift || c.phase == Hold) && i < DOF
    ensures c.capture.Some? && c.lift.Some?
    ensures c.phase == Lift ==>
      var share := MinimumJerk.Blend((c.liftStep + 2) as real / (b.cfg.liftEnd - b.cfg.closureEnd) as real);
      && d.target[i] == c.capture.value[i] + share * (c.lift.value[i] - c.capture.value[i])
      && d.nominal[i] == b.ReferenceGrasp()[i] + share * (b.recorded[b.cfg.liftEnd][i] - b.ReferenceGrasp()[i])
    ensures c.phase == Hold ==> d.target == c.lift.value && d.nominal == b.recorded[b.cfg.liftEnd]
  {
    hide MinimumJerk.Blend;
    hide Along;
    hide CommandEnveloped;
    hide GoalReserved;
    hide LiftInMargin;
    if c.phase == Lift {
      var share := MinimumJerk.Blend(LiftFraction(b, c.liftStep + 1));
      AlongPoint(c.capture.value, c.lift.value, share, i);
      AlongPoint(b.ReferenceGrasp(), b.recorded[b.cfg.liftEnd], share, i);
    }
  }

  lemma AlongPoint(from: Joints, to: Joints, share: real, i: nat)
    requires i < DOF
    ensures Along(from, to, share)[i] == from[i] + share * (to[i] - from[i])
  {
    var scaled := Times(share, Minus(to, from));
    assert scaled[i] == share * Minus(to, from)[i];
    assert Along(from, to, share)[i] == from[i] + scaled[i];
  }
}
