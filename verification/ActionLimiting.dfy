/** The baseline action limiter: clips every requested arm delta and hand target into fixed envelopes
    before an executor sees them. */
module ActionLimiting {
  import opened Wrappers
  import opened JointMath
  import opened Scalars

  const FINGERS := 6
  const NO_TARGET := -1
  const HAND_MAX := 1000

  datatype Settings = Settings(
    initialQ: Joints,
    lower: Joints,
    upper: Joints,
    margin: real,
    armStep: real,
    episodeDelta: real,
    handStep: int
  ) {
    ghost predicate Valid() {
      && margin > 0.0 && armStep > 0.0 && episodeDelta > 0.0 && handStep > 0
      && forall i :: 0 <= i < DOF ==> lower[i] + margin < initialQ[i] < upper[i] - margin
    }

    function SafeLower(): Joints {
      seq(DOF, i requires 0 <= i < DOF => Max(initialQ[i] - episodeDelta, lower[i] + margin))
    }

    function SafeUpper(): Joints {
      seq(DOF, i requires 0 <= i < DOF => Min(initialQ[i] + episodeDelta, upper[i] - margin))
    }
  }

  predicate HandInRange(hand: seq<int>) {
    |hand| == FINGERS && forall i :: 0 <= i < FINGERS ==> 0 <= hand[i] <= HAND_MAX
  }

  datatype Command = Command(q: Joints, hand: seq<int>)

  /** A requested arm delta and raw hand targets, of any shape. */
  datatype Action = Action(arm: seq<real>, hand: seq<real>)

  datatype Reply =
    | Limited(delta: Joints, target: Joints, hand: seq<int>, clipped: bool)
    | BadArmDelta
    | HandNotWhole
    | HandOutOfRange

  // ---- One action ---------------------------------------------------------------------

  function ClampInt(x: int, lo: int, hi: int): int { if x < lo then lo else if x > hi then hi else x }

  function StepClipped(cfg: Settings, delta: Joints): Joints {
    seq(DOF, i requires 0 <= i < DOF => Clamp(delta[i], -cfg.armStep, cfg.armStep))
  }

  function ArmTarget(cfg: Settings, q: Joints, delta: Joints): Joints {
    ClampEach(Plus(q, StepClipped(cfg, delta)), cfg.SafeLower(), cfg.SafeUpper())
  }

  predicate WholeHand(hand: seq<real>) {
    |hand| == FINGERS && forall i :: 0 <= i < FINGERS ==> hand[i] == hand[i].Floor as real
  }

  function Rounded(hand: seq<real>): seq<int> { seq(|hand|, i requires 0 <= i < |hand| => hand[i].Floor) }

  predicate RequestInRange(hand: seq<int>) {
    forall i :: 0 <= i < |hand| ==> NO_TARGET <= hand[i] <= HAND_MAX
  }

  function FingerAfter(cfg: Settings, at: int, request: int): int {
    if request == NO_TARGET then at else at + ClampInt(request - at, -cfg.handStep, cfg.handStep)
  }

  function HandAfter(cfg: Settings, hand: seq<int>, request: seq<int>): seq<int>
    requires |hand| == |request| == FINGERS
  {
    seq(FINGERS, i requires 0 <= i < FINGERS => FingerAfter(cfg, hand[i], request[i]))
  }

  /** The delivered targets: the new position of every axis with a request, no target for the rest. */
  function Delivered(hand: seq<int>, request: seq<int>): seq<int>
    requires |hand| == |request| == FINGERS
  {
    seq(FINGERS, i requires 0 <= i < FINGERS => if request[i] == NO_TARGET then NO_TARGET else hand[i])
  }

  /** The arm command advances as soon as the arm delta is accepted, before the hand is examined. */
  function Applied(cfg: Settings, c: Command, a: Action): (Command, Reply)
    requires |c.hand| == FINGERS
  {
    if |a.arm| != DOF then (c, BadArmDelta) else
    var target := ArmTarget(cfg, c.q, a.arm);
    var delta := Minus(target, c.q);
    var armMoved := c.(q := target);
    if !WholeHand(a.hand) then (armMoved, HandNotWhole) else
    var request := Rounded(a.hand);
    if !RequestInRange(request) then (armMoved, HandOutOfRange) else
    var hand := HandAfter(cfg, c.hand, request);
    var changed := StepClipped(cfg, a.arm) != a.arm || target != Plus(c.q, StepClipped(cfg, a.arm)) || Delivered(hand, request) != request;
    (Command(target, hand), Limited(delta, target, Delivered(hand, request), changed))
  }

  ghost predicate Enveloped(cfg: Settings, c: Command) {
    InBox(c.q, cfg.SafeLower(), cfg.SafeUpper()) && HandInRange(c.hand)
  }

  lemma JointStep(q: real, delta: real, step: real, lo: real, hi: real)
    requires lo <= q <= hi && step > 0.0
    ensures var target := Clamp(q + Clamp(delta, -step, step), lo, hi);
      && lo <= target <= hi && Abs(target - q) <= step && Abs(target - q) <= Abs(delta)
      && (delta >= 0.0 ==> target >= q) && (delta <= 0.0 ==> target <= q)
      && (target - q == delta <==> Clamp(delta, -step, step) == delta && target == q + delta)
      && (target == q <==> delta == 0.0 || (delta > 0.0 && q == hi) || (delta < 0.0 && q == lo))
  {
  }

  /** Whatever the action, rejected or not, both commands stay inside their envelopes and move by at
      most one step, no joint away from its request. */
  lemma AppliedKeeps(cfg: Settings, c: Command, a: Action)
    requires cfg.Valid() && Enveloped(cfg, c)
    ensures var c' := Applied(cfg, c, a).0;
      && Enveloped(cfg, c') && Within(c'.q, c.q, cfg.armStep)
      && (forall i :: 0 <= i < FINGERS ==> -cfg.handStep <= c'.hand[i] - c.hand[i] <= cfg.handStep)
      && (|a.arm| == DOF ==> Between(Minus(c'.q, c.q), Zero(), a.arm))
  {
    var c' := Applied(cfg, c, a).0;
    if |a.arm| == DOF {
      forall i | 0 <= i < DOF
        ensures cfg.SafeLower()[i] <= c'.q[i] <= cfg.SafeUpper()[i] && Abs(c'.q[i] - c.q[i]) <= cfg.armStep
        ensures 0.0 <= c'.q[i] - c.q[i] <= a.arm[i] || a.arm[i] <= c'.q[i] - c.q[i] <= 0.0
      {
        JointStep(c.q[i], a.arm[i], cfg.armStep, cfg.SafeLower()[i], cfg.SafeUpper()[i]);
      }
      hide Clamp;
    } else {
      WithinSelf(c.q, cfg.armStep);
    }
  }

  /** Every joint is taken as near to its request as one step and the envelope allow. */
  lemma AppliedIsNearest(cfg: Settings, c: Command, a: Action, i: nat, at: real)
    requires cfg.Valid() && Enveloped(cfg, c) && |a.arm| == DOF && i < DOF
    requires cfg.SafeLower()[i] <= at <= cfg.SafeUpper()[i] && Abs(at - c.q[i]) <= cfg.armStep
    ensures Abs(c.q[i] + a.arm[i] - Applied(cfg, c, a).0.q[i]) <= Abs(c.q[i] + a.arm[i] - at)
  {
  }

  /** An accepted action takes every requested axis as near to its target as the hand step allows and
      leaves the others. */
  lemma HandIsNearest(cfg: Settings, c: Command, a: Action, i: nat, at: int)
    requires cfg.Valid() && Enveloped(cfg, c) && Applied(cfg, c, a).1.Limited? && i < FINGERS
    requires Distance(at, c.hand[i]) <= cfg.handStep
    ensures var request, next := a.hand[i].Floor, Applied(cfg, c, a).0.hand[i];
      if request == NO_TARGET then next == c.hand[i] else Distance(request, next) <= Distance(request, at)
  {
  }

  /** An action is refused for the first of its parts that is malformed, and an accepted one reports the
      motion it made: the arm's delta and target, and per axis its new position, or no target for an
      axis of which none was asked. */
  lemma ReplyReports(cfg: Settings, c: Command, a: Action)
    requires |c.hand| == FINGERS
    ensures var (c', reply) := Applied(cfg, c, a);
      && (reply == BadArmDelta <==> |a.arm| != DOF)
      && (reply == HandNotWhole <==>
            |a.arm| == DOF && (|a.hand| != FINGERS || exists i :: 0 <= i < FINGERS && a.hand[i].Floor as real != a.hand[i]))
      && (reply.Limited? ==>
            && |a.hand| == |c'.hand| == |reply.hand| == FINGERS && reply.target == c'.q && reply.delta == Minus(c'.q, c.q)
            && forall i :: 0 <= i < FINGERS ==>
                 -1.0 <= a.hand[i] <= 1000.0 && reply.hand[i] == if a.hand[i] == -1.0 then -1 else c'.hand[i])
      && (reply == HandOutOfRange ==> exists i :: 0 <= i < |a.hand| && !(-1.0 <= a.hand[i] <= 1000.0))
      && (reply == BadArmDelta ==> c' == c) && (!reply.Limited? ==> c'.hand == c.hand)
  {
    hide ArmTarget;
    hide FingerAfter;
    hide StepClipped;
    hide Minus;
    hide Plus;
    var (c', reply) := Applied(cfg, c, a);
    if reply.Limited? {
      forall i | 0 <= i < FINGERS
        ensures -1.0 <= a.hand[i] <= 1000.0 && reply.hand[i] == if a.hand[i] == -1.0 then -1 else c'.hand[i]
      {
        assert NO_TARGET <= Rounded(a.hand)[i] <= HAND_MAX;
      }
    }
  }

  /** An accepted action is reported unclipped exactly when it is delivered as requested. */
  lemma UnclippedIffDelivered(cfg: Settings, c: Command, a: Action)
    requires cfg.Valid() && Enveloped(cfg, c) && Applied(cfg, c, a).1.Limited?
    ensures var reply := Applied(cfg, c, a).1;
      !reply.clipped <==> reply.delta == a.arm && reply.hand == Rounded(a.hand)
  {
  }

  /** An action whose hand part is rejected still moves the arm; it leaves the commands as they were
      exactly when every joint asks for nothing or pushes against a bound it already stands at. */
  lemma RejectedHandIsAtomicIff(cfg: Settings, c: Command, a: Action)
    requires cfg.Valid() && Enveloped(cfg, c) && (Applied(cfg, c, a).1.HandNotWhole? || Applied(cfg, c, a).1.HandOutOfRange?)
    ensures Applied(cfg, c, a).0 == c <==>
      forall i :: 0 <= i < DOF ==>
        || a.arm[i] == 0.0
        || (a.arm[i] > 0.0 && c.q[i] == cfg.SafeUpper()[i])
        || (a.arm[i] < 0.0 && c.q[i] == cfg.SafeLower()[i])
  {
  }

  /** Joints between minus and plus one, started at zero with an open hand. */
  function Wide(): Settings { Settings(Even(0.0), Even(-1.0), Even(1.0), 0.1, 0.1, 0.5, 10) }

  const OPEN_HAND: seq<int> := [1000, 1000, 1000, 1000, 1000, 1000]

  /** An action that asks the arm for 0.01 rad per joint and the hand for a target out of range. */
  function Overreach(): Action { Action(Even(0.01), [1001.0, -1.0, -1.0, -1.0, -1.0, -1.0]) }

  /** A rejected action that is not atomic: the hand target is refused, the arm has moved. */
  lemma RejectedHandMovesArm()
    ensures Wide().Valid() && Enveloped(Wide(), Command(Even(0.0), OPEN_HAND))
    ensures var c := Command(Even(0.0), OPEN_HAND); var (after, reply) := Applied(Wide(), c, Overreach());
      reply == HandOutOfRange && after.q == Even(0.01) != c.q && after.hand == c.hand
  {
    var cfg, c, a := Wide(), Command(Even(0.0), OPEN_HAND), Overreach();
    assert ArmTarget(cfg, c.q, a.arm) == Even(0.01);
    assert WholeHand(a.hand);
    assert Rounded(a.hand)[0] == 1001;
    assert Even(0.01)[0] != Even(0.0)[0];
  }

  // ---- Streams of actions -------------------------------------------------------------

  function After(cfg: Settings, c: Command, actions: seq<Action>): (r: Command)
    requires |c.hand| == FINGERS
    ensures |r.hand| == FINGERS
  {
    if |actions| == 0 then c else Applied(cfg, After(cfg, c, actions[..|actions| - 1]), actions[|actions| - 1]).0
  }

  function ReplyAt(cfg: Settings, c: Command, actions: seq<Action>, n: nat): Reply
    requires |c.hand| == FINGERS && n < |actions|
  {
    Applied(cfg, After(cfg, c, actions[..n]), actions[n]).1
  }

  lemma {:induction false} EveryStreamStaysEnveloped(cfg: Settings, c: Command, actions: seq<Action>)
    requires cfg.Valid() && Enveloped(cfg, c)
    ensures Enveloped(cfg, After(cfg, c, actions))
  {
    if |actions| > 0 {
      EveryStreamStaysEnveloped(cfg, c, actions[..|actions| - 1]);
      AppliedKeeps(cfg, After(cfg, c, actions[..|actions| - 1]), actions[|actions| - 1]);
      hide Applied;
    }
  }

  lemma InitialIsEnveloped(cfg: Settings, hand: seq<int>)
    requires cfg.Valid() && HandInRange(hand)
    ensures Enveloped(cfg, Command(cfg.initialQ, hand))
  {
  }

  /** The arm deltas the replies report, added up. */
  function Reported(cfg: Settings, c: Command, actions: seq<Action>): Joints
    requires |c.hand| == FINGERS
  {
    if |actions| == 0 then Zero() else
    var n := |actions| - 1;
    var reply := Applied(cfg, After(cfg, c, actions[..n]), actions[n]).1;
    Plus(Reported(cfg, c, actions[..n]), if reply.Limited? then reply.delta else Zero())
  }

  /** The arm motion of actions that were rejected for their hand part, added up. */
  function Unreported(cfg: Settings, c: Command, actions: seq<Action>): Joints
    requires |c.hand| == FINGERS
  {
    if |actions| == 0 then Zero() else
    var n := |actions| - 1;
    var before := After(cfg, c, actions[..n]);
    var (after, reply) := Applied(cfg, before, actions[n]);
    Plus(Unreported(cfg, c, actions[..n]), if reply.Limited? then Zero() else Minus(after.q, before.q))
  }

  /** The reported deltas and the unreported motion together lead from the first command to the last. */
  lemma {:induction false} DeltasTelescope(cfg: Settings, c: Command, actions: seq<Action>)
    requires |c.hand| == FINGERS
    ensures Minus(After(cfg, c, actions).q, c.q) == Plus(Reported(cfg, c, actions), Unreported(cfg, c, actions))
  {
    if |actions| > 0 {
      var n := |actions| - 1;
      DeltasTelescope(cfg, c, actions[..n]);
      var before := After(cfg, c, actions[..n]);
      var (after, reply) := Applied(cfg, before, actions[n]);
      TelescopeOnce(c.q, before.q, after.q, Reported(cfg, c, actions[..n]), Unreported(cfg, c, actions[..n]),
                    Reported(cfg, c, actions), Unreported(cfg, c, actions), reply.Limited?);
      hide ArmTarget;
      hide HandAfter;
      hide Delivered;
      hide StepClipped;
      hide Minus;
      hide Plus;
    }
  }

  lemma TelescopeOnce(start: Joints, before: Joints, after: Joints, reported: Joints, unreported: Joints,
                      reported': Joints, unreported': Joints, shown: bool)
    requires Minus(before, start) == Plus(reported, unreported)
    requires reported' == Plus(reported, if shown then Minus(after, before) else Zero())
    requires unreported' == Plus(unreported, if shown then Zero() else Minus(after, before))
    ensures Minus(after, start) == Plus(reported', unreported')
  {
    forall i | 0 <= i < DOF ensures after[i] - start[i] == reported'[i] + unreported'[i] {
      assert Minus(before, start)[i] == Plus(reported, unreported)[i];
    }
  }

  /** When every action is accepted, the reported deltas alone add up to the whole motion. */
  lemma {:induction false} AcceptedDeltasTelescope(cfg: Settings, c: Command, actions: seq<Action>)
    requires |c.hand| == FINGERS && forall n :: 0 <= n < |actions| ==> ReplyAt(cfg, c, actions, n).Limited?
    ensures Minus(After(cfg, c, actions).q, c.q) == Reported(cfg, c, actions)
  {
    DeltasTelescope(cfg, c, actions);
    NothingUnreported(cfg, c, actions);
    hide After;
    hide Reported;
    hide Unreported;
  }

  lemma {:induction false} NothingUnreported(cfg: Settings, c: Command, actions: seq<Action>)
    requires |c.hand| == FINGERS && forall n :: 0 <= n < |actions| ==> ReplyAt(cfg, c, actions, n).Limited?
    ensures Unreported(cfg, c, actions) == Zero()
  {
    if |actions| > 0 {
      var n := |actions| - 1;
      forall m | 0 <= m < n ensures ReplyAt(cfg, c, actions[..n], m).Limited? {
        assert ReplyAt(cfg, c, actions, m).Limited?;
        assert actions[..n][..m] == actions[..m];
      }
      NothingUnreported(cfg, c, actions[..n]);
      assert ReplyAt(cfg, c, actions, n).Limited?;
      hide Applied;
    }
  }

  // ---- Repeated hand requests ---------------------------------------------------------

  function FingerRepeated(cfg: Settings, at: int, request: int, times: nat): int {
    if times == 0 then at else FingerAfter(cfg, FingerRepeated(cfg, at, request, times - 1), request)
  }

  /** The same request repeated closes the gap by one full step each time, stays on its own side of
      the request, and so arrives exactly and stays. */
  lemma {:induction false} RepeatedRequestArrives(cfg: Settings, at: int, request: int, times: nat)
    requires cfg.handStep > 0 && request != NO_TARGET
    ensures var end := FingerRepeated(cfg, at, request, times);
      && Distance(end, request) == (if Distance(at, request) <= times * cfg.handStep then 0 else Distance(at, request) - times * cfg.handStep)
      && (at <= request ==> at <= end <= request) && (request <= at ==> request <= end <= at)
  {
    if times > 0 {
      RepeatedRequestArrives(cfg, at, request, times - 1);
      assert times * cfg.handStep == (times - 1) * cfg.handStep + cfg.handStep;
    }
  }

  /** In a stream that keeps asking one axis for the same target, whatever it asks of the others, that
      axis follows the repeated request. */
  lemma {:induction false} StreamRepeatsFinger(cfg: Settings, c: Command, actions: seq<Action>, axis: nat, request: int)
    requires cfg.Valid() && Enveloped(cfg, c) && axis < FINGERS
    requires forall n :: 0 <= n < |actions| ==> ReplyAt(cfg, c, actions, n).Limited? && actions[n].hand[axis].Floor == request
    ensures After(cfg, c, actions).hand[axis] == FingerRepeated(cfg, c.hand[axis], request, |actions|)
  {
    if |actions| > 0 {
      var n := |actions| - 1;
      forall m | 0 <= m < n ensures ReplyAt(cfg, c, actions[..n], m).Limited? && actions[..n][m].hand[axis].Floor == request {
        assert ReplyAt(cfg, c, actions, m).Limited?;
        assert actions[..n][..m] == actions[..m];
      }
      StreamRepeatsFinger(cfg, c, actions[..n], axis, request);
      assert ReplyAt(cfg, c, actions, n).Limited?;
      hide ArmTarget;
      hide StepClipped;
      hide FingerAfter;
    }
  }

  // ---- The limiter --------------------------------------------------------------------

  class ActionLimiter {
    const cfg: Settings
    var commandQ: Joints
    const commandHand: array<int>

    /** The hand commands live in the array the limiter was given and are updated there. */
    constructor (cfg: Settings, hand: array<int>)
      requires cfg.Valid() && HandInRange(hand[..])
      ensures this.cfg == cfg && commandHand == hand && commandQ == cfg.initialQ
    {
      this.cfg := cfg;
      commandQ := cfg.initialQ;
      commandHand := hand;
    }

    /** Validates the configuration the way the source's constructor does, in its order. */
    static method Create(initialQ: seq<real>, limits: seq<(real, real)>, margin: real, armStep: real, episodeDelta: real,
                         hand: array<int>, handStep: int)
      returns (made: Option<ActionLimiter>)
      ensures made.Some? <==>
        && |initialQ| == DOF && |limits| == DOF && HandInRange(hand[..])
        && margin > 0.0 && armStep > 0.0 && episodeDelta > 0.0 && handStep > 0
        && forall i :: 0 <= i < DOF ==> limits[i].0 + margin < initialQ[i] < limits[i].1 - margin
      ensures made.Some? ==>
        made.value.cfg.Valid() && made.value.Ready() && made.value.commandHand == hand
        && made.value.Now() == Command(initialQ, hand[..])
    {
      if |initialQ| != DOF || |limits| != DOF {
        return None;
      }
      if !HandInRange(hand[..]) {
        return None;
      }
      if margin <= 0.0 || armStep <= 0.0 || episodeDelta <= 0.0 || handStep <= 0 {
        return None;
      }
      var i := 0;
      while i < DOF
        invariant i <= DOF
        invariant forall j :: 0 <= j < i ==> limits[j].0 + margin < initialQ[j] < limits[j].1 - margin
      {
        if initialQ[i] <= limits[i].0 + margin || initialQ[i] >= limits[i].1 - margin {
          return None;
        }
        i := i + 1;
      }
      var lower := seq(DOF, j requires 0 <= j < DOF => limits[j].0);
      var upper := seq(DOF, j requires 0 <= j < DOF => limits[j].1);
      var cfg := Settings(initialQ, lower, upper, margin, armStep, episodeDelta, handStep);
      var limiter := new ActionLimiter(cfg, hand);
      InitialIsEnveloped(cfg, hand[..]);
      made := Some(limiter);
    }

    function Now(): Command
      reads this, commandHand
    {
      Command(commandQ, commandHand[..])
    }

    ghost predicate Ready()
      reads this, commandHand
    {
      cfg.Valid() && Enveloped(cfg, Now())
    }

    /** Moves each requested axis in place by at most the hand step. */
    method LimitHand(request: seq<int>) returns (limited: seq<int>, rateClipped: bool)
      requires Ready() && |request| == FINGERS
      modifies commandHand
      ensures commandHand[..] == HandAfter(cfg, old(commandHand[..]), request)
      ensures limited == Delivered(commandHand[..], request)
      ensures rateClipped <==> limited != request
    {
      ghost var was := commandHand[..];
      limited, rateClipped := [], false;
      var i := 0;
      while i < FINGERS
        invariant 0 <= i <= FINGERS == commandHand.Length && |limited| == i
        invariant forall j :: 0 <= j < i ==> commandHand[j] == FingerAfter(cfg, was[j], request[j])
        invariant forall j :: i <= j < FINGERS ==> commandHand[j] == was[j]
        invariant forall j :: 0 <= j < i ==> limited[j] == if request[j] == NO_TARGET then NO_TARGET else commandHand[j]
        invariant rateClipped <==> limited != request[..i]
      {
        if request[i] == NO_TARGET {
          limited := limited + [NO_TARGET];
        } else {
          var change := request[i] - commandHand[i];
          var applied := ClampInt(change, -cfg.handStep, cfg.handStep);
          if applied != change {
            rateClipped := true;
          }
          commandHand[i] := commandHand[i] + applied;
          limited := limited + [commandHand[i]];
        }
        assert request[..i + 1] == request[..i] + [request[i]];
        i := i + 1;
      }
      assert request[..i] == request;
    }

    method Apply(a: Action) returns (reply: Reply)
      requires Ready()
      modifies this`commandQ, commandHand
      ensures Ready()
      ensures (Now(), reply) == Applied(cfg, old(Now()), a)
    {
      AppliedKeeps(cfg, Now(), a);
      hide Enveloped;
      if |a.arm| != DOF {
        return BadArmDelta;
      }
      var step := StepClipped(cfg, a.arm);
      var target := Plus(commandQ, step);
      var clippedTarget := ClampEach(target, cfg.SafeLower(), cfg.SafeUpper());
      var clipped := step != a.arm || clippedTarget != target;
      var delta := Minus(clippedTarget, commandQ);
      commandQ := clippedTarget;
      if !WholeHand(a.hand) {
        return HandNotWhole;
      }
      var request := Rounded(a.hand);
      if !RequestInRange(request) {
        return HandOutOfRange;
      }
      var limited, rateClipped := LimitHand(request);
      return Limited(delta, commandQ, limited, clipped || rateClipped);
    }
  }
}
