/** The target envelopes and the fallback ladder that a rejected target goes through. */
module TabletopSafety {
  import opened Wrappers
  import opened JointMath
  import opened TabletopModel
  import Ik = PoseIk

  const PALM_FLOOR: real := 0.12
  const MAX_CLEARANCE_LIFT: real := 0.020
  const CLEARANCE_LIFT_MARGIN: real := 0.001
  const BACKOFF_STEPS: nat := 10

  /** `_safe_target`: the first violated envelope, in the order the checks run. */
  function SafeTarget(b: Bundle, previous: Joints, nominal: Joints, target: Joints, hand: Hand): Verdict {
    if !InBox(target, b.lower, b.upper) then JointMargin
    else if !Within(target, previous, b.cfg.maxTargetStep + ROUNDOFF) then TargetStep
    else match b.geometry.orientation(target, nominal)
      case None => SingularPose
      case Some(angle) =>
        if angle > b.cfg.maxOrientation then OrientationConflict(angle)
        else if b.geometry.fingertip(target, hand) < b.cfg.minFingertip then
          ClearanceConflict(b.geometry.fingertip(target, hand))
        else if b.geometry.palm(target) < PALM_FLOOR then PalmClearance
        else Safe
  }

  /** Which hand shape a closure target is checked against besides the commanded one. */
  datatype Tips = OpenHand | MeasuredTips(clearance: Option<Joints -> real>)

  /** `_safe_closure_target`. */
  function SafeClosureTarget(b: Bundle, previous: Joints, nominal: Joints, target: Joints, hand: Hand, tips: Tips): Verdict
    requires b.Valid()
  {
    var commanded := SafeTarget(b, previous, nominal, target, hand);
    if !commanded.Safe? then commanded
    else match tips
      case OpenHand => SafeTarget(b, previous, nominal, target, b.hands[b.cfg.catchIndex - 1])
      case MeasuredTips(None) => NoMeasuredTips
      case MeasuredTips(Some(clearance)) =>
        if clearance(target) < b.cfg.minFingertip then ClearanceConflict(clearance(target)) else Safe
  }

  datatype Check = PlainCheck | ClosureCheck(tips: Tips)

  function Validate(b: Bundle, check: Check, previous: Joints, nominal: Joints, target: Joints, hand: Hand): Verdict
    requires b.Valid()
  {
    match check
    case PlainCheck => SafeTarget(b, previous, nominal, target, hand)
    case ClosureCheck(tips) => SafeClosureTarget(b, previous, nominal, target, hand, tips)
  }

  predicate Recoverable(v: Verdict) { !v.Safe? && !v.SingularPose? }

  /** The envelopes themselves. */
  ghost predicate Enveloped(b: Bundle, previous: Joints, nominal: Joints, target: Joints, hand: Hand) {
    && InBox(target, b.lower, b.upper)
    && Within(target, previous, b.cfg.maxTargetStep + ROUNDOFF)
    && b.geometry.orientation(target, nominal).Some?
    && b.geometry.orientation(target, nominal).value <= b.cfg.maxOrientation
    && b.geometry.fingertip(target, hand) >= b.cfg.minFingertip
    && b.geometry.palm(target) >= PALM_FLOOR
  }

  /** The plain check accepts exactly the enveloped targets; the closure check accepts exactly
      those that also clear the table with the open or the measured hand. */
  lemma SafeMeansEnveloped(b: Bundle, check: Check, previous: Joints, nominal: Joints, target: Joints, hand: Hand)
    requires b.Valid()
    ensures Validate(b, check, previous, nominal, target, hand).Safe? <==>
      && Enveloped(b, previous, nominal, target, hand)
      && (check == ClosureCheck(OpenHand) ==>
            b.geometry.fingertip(target, b.hands[b.cfg.catchIndex - 1]) >= b.cfg.minFingertip)
      && (check.ClosureCheck? && check.tips.MeasuredTips? ==>
            check.tips.clearance.Some? && check.tips.clearance.value(target) >= b.cfg.minFingertip)
  {
  }

  // ---- The fallback ladder ------------------------------------------------------------

  /** A tick's intended motion before it is validated. */
  datatype Draft = Draft(
    phase: Phase,
    preshape: int,
    closureStep: int,
    liftStep: int,
    template: int,
    nominal: Joints,
    target: Joints,
    goal: Joints,
    height: Option<real>,
    liveFitSeen: bool,
    fullOccluded: bool,
    currentVolume: bool,
    captureOnSuccess: bool,
    gateAccepted: bool,
    check: Check,
    stepLimit: real,
    orientationHold: bool,
    evidence: Option<ContactEvidence>)

  predicate InTemplate(b: Bundle, index: int) { 0 <= index < |b.hands| }

  function HandAt(b: Bundle, index: int): Hand
    requires InTemplate(b, index)
  {
    b.hands[index]
  }

  /** The k-th retry keeps nine tenths, eight tenths, ... and finally none of the correction. */
  function BackoffTarget(c: Committed, d: Draft, k: nat): Joints {
    var scale := (9 - k) as real / 10.0;
    SlewEach(c.target, Plus(d.nominal, Times(scale, Minus(d.target, d.nominal))), d.stepLimit)
  }

  function BackoffVerdict(b: Bundle, c: Committed, d: Draft, k: nat): Verdict
    requires b.Valid() && InTemplate(b, d.template)
  {
    Validate(b, d.check, c.target, d.nominal, BackoffTarget(c, d, k), HandAt(b, d.template))
  }

  /** The first retry from `k` on that is not rejected recoverably, or none. */
  function FirstBackoff(b: Bundle, c: Committed, d: Draft, k: nat): Option<nat>
    requires b.Valid() && InTemplate(b, d.template) && k <= BACKOFF_STEPS
    decreases BACKOFF_STEPS - k
  {
    if k == BACKOFF_STEPS then None
    else if !Recoverable(BackoffVerdict(b, c, d, k)) then Some(k)
    else FirstBackoff(b, c, d, k + 1)
  }

  datatype Cleared = Cleared(d: Draft) | Blocked(fault: Fault)

  function AtVerdict(v: Verdict, accepted: Draft): Cleared {
    if v.Safe? then Cleared(accepted) else Blocked(Rejected(v))
  }

  /** One orientation conflict inside the closure may be bridged by holding the arm. */
  predicate MayHoldOrientation(c: Committed, v: Verdict) {
    v.OrientationConflict? && c.phase == Closure && c.template >= 0 && !c.orientationHold
  }

  predicate MayHoldClearance(c: Committed, d: Draft, v: Verdict) {
    v.ClearanceConflict? && d.check.ClosureCheck? && c.template >= 0
  }

  predicate MayFreezeApproach(c: Committed, d: Draft, v: Verdict) {
    (v.OrientationConflict? || v.ClearanceConflict?)
    && d.phase == Approach && !d.gateAccepted && c.template >= 0
  }

  function RequiredLift(b: Bundle, clearance: real): real {
    b.cfg.minFingertip - clearance + CLEARANCE_LIFT_MARGIN
  }

  /** Raise the palm from the committed target by the missing clearance. */
  function RaisedTarget(b: Bundle, from: Joints, clearance: real): Ik.Outcome {
    Ik.Solve(b.geometry.raisePalm(from, RequiredLift(b, clearance)), b.lower, b.upper, from, Ik.REFINED_PASSES)
  }

  predicate LiftBounded(b: Bundle, clearance: real) { 0.0 < RequiredLift(b, clearance) <= MAX_CLEARANCE_LIFT }

  function FrozenApproach(c: Committed, d: Draft): Draft {
    d.(nominal := c.nominal, target := c.target, goal := c.goal, template := c.template,
       preshape := c.preshape, closureStep := c.closureStep, liftStep := c.liftStep, height := c.height)
  }

  /** Holding the committed arm target, or raising it, inside the closure. None means that the
      ladder moves on. */
  function HoldRung(b: Bundle, c: Committed, d: Draft, why: Verdict): Option<Cleared>
    requires b.Valid() && InTemplate(b, d.template)
  {
    var held := Validate(b, d.check, c.target, d.nominal, c.target, HandAt(b, d.template));
    if MayHoldOrientation(c, why) then
      if Recoverable(held) then None else Some(AtVerdict(held, d.(target := c.target, orientationHold := true)))
    else if MayHoldClearance(c, d, why) then
      if held.ClearanceConflict? then RaiseRung(b, c, d, held.clearance)
      else if Recoverable(held) then None
      else Some(AtVerdict(held, d.(target := c.target)))
    else None
  }

  /** Raising the palm when even the held arm would let the next finger curl touch the table. */
  function RaiseRung(b: Bundle, c: Committed, d: Draft, clearance: real): Option<Cleared>
    requires b.Valid() && InTemplate(b, d.template)
  {
    if !LiftBounded(b, clearance) then None
    else match RaisedTarget(b, c.target, clearance)
      case NotConverged => None
      case Solved(q) =>
        var raised := Validate(b, d.check, c.target, c.nominal, q, HandAt(b, d.template));
        if Recoverable(raised) then None else Some(AtVerdict(raised, d.(nominal := c.nominal, target := q)))
      case broken => Some(Blocked(NoSolution(broken)))
  }

  /** The rungs below the correction backoff, given why the draft was first rejected. */
  function Rungs(b: Bundle, c: Committed, d: Draft, why: Verdict): Cleared
    requires b.Valid() && InTemplate(b, d.template) && c.template < |b.hands|
  {
    match HoldRung(b, c, d, why)
    case Some(r) => r
    case None => LastRung(b, c, d, why)
  }

  function LastRung(b: Bundle, c: Committed, d: Draft, why: Verdict): Cleared
    requires c.template < |b.hands|
  {
    if MayFreezeApproach(c, d, why) then
      AtVerdict(SafeTarget(b, c.target, c.nominal, c.target, HandAt(b, c.template)), FrozenApproach(c, d))
    else Blocked(Rejected(why))
  }

  /** The whole ladder: the draft itself, the backoff retries, then the rungs. */
  function Ladder(b: Bundle, c: Committed, d: Draft): Cleared
    requires b.Valid() && InTemplate(b, d.template) && c.template < |b.hands|
  {
    var first := Validate(b, d.check, c.target, d.nominal, d.target, HandAt(b, d.template));
    if !Recoverable(first) then AtVerdict(first, d)
    else match FirstBackoff(b, c, d, 0)
      case Some(k) => AtVerdict(BackoffVerdict(b, c, d, k), d.(target := BackoffTarget(c, d, k)))
      case None => Rungs(b, c, d, first)
  }

  /** The first retry found is the earliest usable one. */
  lemma {:induction false} FirstBackoffIsFirst(b: Bundle, c: Committed, d: Draft, k: nat)
    requires b.Valid() && InTemplate(b, d.template) && k <= BACKOFF_STEPS
    ensures var r := FirstBackoff(b, c, d, k);
      && (forall j :: k <= j < (if r.Some? then r.value else BACKOFF_STEPS) ==> Recoverable(BackoffVerdict(b, c, d, j)))
      && (r.Some? ==> k <= r.value < BACKOFF_STEPS && !Recoverable(BackoffVerdict(b, c, d, r.value)))
    decreases BACKOFF_STEPS - k
  {
    hide BackoffVerdict;
    hide Recoverable;
    if k < BACKOFF_STEPS && Recoverable(BackoffVerdict(b, c, d, k)) {
      FirstBackoffIsFirst(b, c, d, k + 1);
    }
  }

  /** What a draft that leaves the ladder looks like: only its motion, its hold flag, or the whole
      draft by way of an approach freeze, may have changed. */
  ghost predicate LadderShape(c: Committed, d: Draft, e: Draft) {
    || e == d.(target := e.target, nominal := e.nominal, orientationHold := e.orientationHold)
    || (MayFreezeSome(c, d) && e == FrozenApproach(c, d))
  }

  predicate MayFreezeSome(c: Committed, d: Draft) {
    d.phase == Approach && !d.gateAccepted && c.template >= 0
  }

  /** A draft that has left the ladder: its nominal, target and hand are enveloped against the last
      committed target; the check its tick asked for, with the open or measured hand inside the
      closure, accepts it, unless an ungated approach was frozen; the orientation hold is spent only
      inside the closure, on an unmoved arm, and if the previous tick did not use it. */
  ghost predicate Leaves(b: Bundle, c: Committed, d: Draft, e: Draft)
    requires b.Valid()
  {
    && LadderShape(c, d, e)
    && InTemplate(b, e.template)
    && Enveloped(b, c.target, e.nominal, e.target, HandAt(b, e.template))
    && (Validate(b, d.check, c.target, e.nominal, e.target, HandAt(b, e.template)).Safe?
        || (MayFreezeSome(c, d) && e == FrozenApproach(c, d)))
    && (e.orientationHold ==> !c.orientationHold && c.phase == Closure && e.target == c.target)
  }

  lemma ValidatedLeaves(b: Bundle, c: Committed, d: Draft, e: Draft)
    requires b.Valid() && InTemplate(b, d.template)
    requires e == d.(target := e.target, nominal := e.nominal, orientationHold := e.orientationHold)
    requires Validate(b, d.check, c.target, e.nominal, e.target, HandAt(b, d.template)).Safe?
    requires e.orientationHold ==> !c.orientationHold && c.phase == Closure && e.target == c.target
    ensures Leaves(b, c, d, e)
  {
    hide Validate;
    hide Enveloped;
    SafeMeansEnveloped(b, d.check, c.target, e.nominal, e.target, HandAt(b, d.template));
  }

  /** By whatever rung a draft leaves the ladder. */
  lemma LadderKeepsEnvelopes(b: Bundle, c: Committed, d: Draft)
    requires b.Valid() && InTemplate(b, d.template) && c.template < |b.hands|
    requires !d.orientationHold && Ladder(b, c, d).Cleared?
    ensures Leaves(b, c, d, Ladder(b, c, d).d)
  {
    hide Validate;
    hide Leaves;
    hide Rungs;
    var e := Ladder(b, c, d).d;
    var first := Validate(b, d.check, c.target, d.nominal, d.target, HandAt(b, d.template));
    if !Recoverable(first) {
      ValidatedLeaves(b, c, d, e);
    } else {
      FirstBackoffIsFirst(b, c, d, 0);
      if FirstBackoff(b, c, d, 0).Some? {
        ValidatedLeaves(b, c, d, e);
      } else {
        RungsKeepEnvelopes(b, c, d, first);
      }
    }
  }

  lemma RungsKeepEnvelopes(b: Bundle, c: Committed, d: Draft, why: Verdict)
    requires b.Valid() && InTemplate(b, d.template) && c.template < |b.hands|
    requires !d.orientationHold && Rungs(b, c, d, why).Cleared?
    ensures Leaves(b, c, d, Rungs(b, c, d, why).d)
  {
    hide HoldRung;
    hide LastRung;
    hide Leaves;
    if HoldRung(b, c, d, why).Some? {
      HoldRungKeepsEnvelopes(b, c, d, why);
    } else {
      FreezeKeepsEnvelopes(b, c, d, why);
    }
  }

  lemma HoldRungKeepsEnvelopes(b: Bundle, c: Committed, d: Draft, why: Verdict)
    requires b.Valid() && InTemplate(b, d.template) && !d.orientationHold
    requires HoldRung(b, c, d, why).Some? && HoldRung(b, c, d, why).value.Cleared?
    ensures Leaves(b, c, d, HoldRung(b, c, d, why).value.d)
  {
    hide Validate;
    hide RaiseRung;
    hide Leaves;
    var held := Validate(b, d.check, c.target, d.nominal, c.target, HandAt(b, d.template));
    if held.Safe? {
      ValidatedLeaves(b, c, d, HoldRung(b, c, d, why).value.d);
    } else {
      RaiseKeepsEnvelopes(b, c, d, held.clearance);
    }
  }

  lemma RaiseKeepsEnvelopes(b: Bundle, c: Committed, d: Draft, clearance: real)
    requires b.Valid() && InTemplate(b, d.template) && !d.orientationHold
    requires RaiseRung(b, c, d, clearance).Some? && RaiseRung(b, c, d, clearance).value.Cleared?
    ensures Leaves(b, c, d, RaiseRung(b, c, d, clearance).value.d)
  {
    hide Validate;
    hide RaisedTarget;
    hide Leaves;
    ValidatedLeaves(b, c, d, RaiseRung(b, c, d, clearance).value.d);
  }

  lemma FreezeKeepsEnvelopes(b: Bundle, c: Committed, d: Draft, why: Verdict)
    requires b.Valid() && c.template < |b.hands| && !d.orientationHold && LastRung(b, c, d, why).Cleared?
    ensures Leaves(b, c, d, LastRung(b, c, d, why).d)
  {
    hide SafeTarget;
    hide Validate;
    hide Enveloped;
    PlainSafeMeansEnveloped(b, c.target, c.nominal, c.target, HandAt(b, c.template));
  }

  lemma PlainSafeMeansEnveloped(b: Bundle, previous: Joints, nominal: Joints, target: Joints, hand: Hand)
    ensures SafeTarget(b, previous, nominal, target, hand).Safe? <==> Enveloped(b, previous, nominal, target, hand)
  {
  }

  /** An approach freeze always passes its own recheck when the committed command was enveloped,
      so the last rung turns an orientation or clearance conflict into a hold, never an abort. */
  lemma FreezeAlwaysPasses(b: Bundle, c: Committed, d: Draft, why: Verdict, before: Joints)
    requires b.Valid() && 0 <= c.template < |b.hands|
    requires Enveloped(b, before, c.nominal, c.target, HandAt(b, c.template))
    requires MayFreezeApproach(c, d, why)
    ensures LastRung(b, c, d, why) == Cleared(FrozenApproach(c, d))
  {
    WithinSelf(c.target, b.cfg.maxTargetStep + ROUNDOFF);
    PlainSafeMeansEnveloped(b, c.target, c.nominal, c.target, HandAt(b, c.template));
    hide SafeTarget;
  }

  /** The ladder as the planner runs it: a retry loop followed by nested recoveries. */
  method RunLadder(b: Bundle, c: Committed, draft: Draft) returns (r: Cleared)
    requires b.Valid() && InTemplate(b, draft.template) && c.template < |b.hands|
    ensures r == Ladder(b, c, draft)
  {
    hide Validate;
    hide SlewEach;
    hide Plus;
    hide Times;
    hide Minus;
    hide Rungs;
    var hand := HandAt(b, draft.template);
    var original := Validate(b, draft.check, c.target, draft.nominal, draft.target, hand);
    if original.Safe? {
      return Cleared(draft);
    }
    if original.SingularPose? {
      return Blocked(Rejected(original));
    }
    var correction := Minus(draft.target, draft.nominal);
    var k := 0;
    while k < BACKOFF_STEPS
      invariant 0 <= k <= BACKOFF_STEPS
      invariant FirstBackoff(b, c, draft, 0) == FirstBackoff(b, c, draft, k)
    {
      var scale := (9 - k) as real / 10.0;
      var candidate := SlewEach(c.target, Plus(draft.nominal, Times(scale, correction)), draft.stepLimit);
      assert candidate == BackoffTarget(c, draft, k);
      var verdict := Validate(b, draft.check, c.target, draft.nominal, candidate, hand);
      if verdict.Safe? {
        return Cleared(draft.(target := candidate));
      }
      if verdict.SingularPose? {
        return Blocked(Rejected(verdict));
      }
      k := k + 1;
    }
    r := RunRungs(b, c, draft, original);
  }

  method RunRungs(b: Bundle, c: Committed, draft: Draft, original: Verdict) returns (r: Cleared)
    requires b.Valid() && InTemplate(b, draft.template) && c.template < |b.hands|
    ensures r == Rungs(b, c, draft, original)
  {
    hide SafeTarget;
    hide HoldRung;
    var held := HoldArm(b, c, draft, original);
    if held.Some? {
      return held.value;
    }
    if (original.OrientationConflict? || original.ClearanceConflict?)
       && draft.phase == Approach && !draft.gateAccepted && c.template >= 0
    {
      var d := draft.(nominal := c.nominal, target := c.target, goal := c.goal, template := c.template);
      d := d.(preshape := c.preshape, closureStep := c.closureStep, liftStep := c.liftStep, height := c.height);
      var verdict := SafeTarget(b, c.target, d.nominal, d.target, HandAt(b, d.template));
      return if verdict.Safe? then Cleared(d) else Blocked(Rejected(verdict));
    }
    r := Blocked(Rejected(original));
  }

  method HoldArm(b: Bundle, c: Committed, d: Draft, original: Verdict) returns (r: Option<Cleared>)
    requires b.Valid() && InTemplate(b, d.template)
    ensures r == HoldRung(b, c, d, original)
  {
    hide Validate;
    hide RaiseRung;
    var hand := HandAt(b, d.template);
    if original.OrientationConflict? && c.phase == Closure && c.template >= 0 && !c.orientationHold {
      var held := Validate(b, d.check, c.target, d.nominal, c.target, hand);
      if held.Safe? {
        return Some(Cleared(d.(target := c.target, orientationHold := true)));
      }
      if held.SingularPose? {
        return Some(Blocked(Rejected(held)));
      }
    }
    if original.ClearanceConflict? && d.check.ClosureCheck? && c.template >= 0 {
      var held := Validate(b, d.check, c.target, d.nominal, c.target, hand);
      if held.Safe? {
        return Some(Cleared(d.(target := c.target)));
      }
      if held.SingularPose? {
        return Some(Blocked(Rejected(held)));
      }
      if held.ClearanceConflict? {
        r := RaiseArm(b, c, d, held.clearance);
        return r;
      }
    }
    r := None;
  }

  method RaiseArm(b: Bundle, c: Committed, d: Draft, clearance: real) returns (r: Option<Cleared>)
    requires b.Valid() && InTemplate(b, d.template)
    ensures r == RaiseRung(b, c, d, clearance)
  {
    hide Validate;
    hide Ik.SolveFrom;
    var required := b.cfg.minFingertip - clearance + CLEARANCE_LIFT_MARGIN;
    if required <= 0.0 || MAX_CLEARANCE_LIFT < required {
      return None;
    }
    var raised := Ik.PosePreservingJointTarget(
      b.geometry.raisePalm(c.target, required), b.lower, b.upper, c.target, true);
    if raised.NotConverged? {
      return None;
    }
    if !raised.Solved? {
      return Some(Blocked(NoSolution(raised)));
    }
    var verdict := Validate(b, d.check, c.target, c.nominal, raised.q, HandAt(b, d.template));
    if verdict.Safe? {
      return Some(Cleared(d.(nominal := c.nominal, target := raised.q)));
    }
    if verdict.SingularPose? {
      return Some(Blocked(Rejected(verdict)));
    }
    r := None;
  }
}
