/** The end-effector velocity ramp: the live environment, its dry-run twin, and what every run of
    either keeps. */
module EefRamp {
  import opened Products
  import opened Scalars
  import opened VectorNorm

  datatype Matrix = Matrix(row0: Vec, row1: Vec, row2: Vec)

  datatype Pose = Pose(xyz: Vec, rotation: Matrix)

  /** The command-line limits, with the Euclidean norm, the composition with a rotation vector in the
      configured frame, and the rotation distance as functions. */
  datatype Limits = Limits(
    norm: Norm,
    turn: (Matrix, Vec) -> Matrix,
    angle: (Matrix, Matrix) -> real,
    policyHz: real,
    maxVelocity: real,
    maxAngularVelocity: real,
    maxAcceleration: real,
    maxAngularAcceleration: real,
    maxRadius: real,
    maxTurn: real
  ) {
    ghost predicate Valid() {
      && Euclidean(norm)
      && policyHz > 0.0 && maxVelocity > 0.0 && maxAngularVelocity > 0.0
      && maxAcceleration > 0.0 && maxAngularAcceleration > 0.0
      && maxRadius > 0.0 && maxTurn > 0.0
    }

    function PolicyDt(): real
      requires policyHz > 0.0
    {
      1.0 / policyHz
    }
  }

  datatype Ramp = Ramp(pose: Pose, linear: Vec, angular: Vec, wantLinear: Vec, wantAngular: Vec)

  datatype Verdict = Accepted | RadiusExceeded | TurnExceeded

  const STOPPED := 0.0001

  function AtRest(origin: Pose): Ramp { Ramp(origin, ZERO, ZERO, ZERO, ZERO) }

  // ---- One call -----------------------------------------------------------------------

  function Wanted(lim: Limits, delta: Vec, maxVelocity: real): Vec
    requires lim.policyHz > 0.0
  {
    Scale(ClipNorm(lim.norm, delta, maxVelocity / lim.policyHz), 1.0 / lim.PolicyDt())
  }

  function Acted(lim: Limits, s: Ramp, deltaXyz: Vec, deltaTurn: Vec): Ramp
    requires lim.policyHz > 0.0
  {
    s.(wantLinear := Wanted(lim, deltaXyz, lim.maxVelocity), wantAngular := Wanted(lim, deltaTurn, lim.maxAngularVelocity))
  }

  function Held(s: Ramp): Ramp { s.(wantLinear := ZERO, wantAngular := ZERO) }

  /** The velocities one tick nearer to the wanted ones. */
  function Ramped(lim: Limits, s: Ramp, dt: real): Ramp {
    s.(linear := MoveToward(lim.norm, s.linear, s.wantLinear, Product(lim.maxAcceleration, dt)),
       angular := MoveToward(lim.norm, s.angular, s.wantAngular, Product(lim.maxAngularAcceleration, dt)))
  }

  /** Where the ramped velocities lead. */
  function NextPose(lim: Limits, s: Ramp, dt: real): Pose {
    Pose(Add(s.pose.xyz, Scale(s.linear, dt)), lim.turn(s.pose.rotation, Scale(s.angular, dt)))
  }

  function Radius(lim: Limits, origin: Pose, pose: Pose): real { lim.norm(Sub(pose.xyz, origin.xyz)) }
  function Turn(lim: Limits, origin: Pose, pose: Pose): real { lim.angle(origin.rotation, pose.rotation) }

  function Judge(lim: Limits, radius: real, turn: real): Verdict {
    if radius > lim.maxRadius then RadiusExceeded else if turn > lim.maxTurn then TurnExceeded else Accepted
  }

  datatype Stepped = Stepped(state: Ramp, verdict: Verdict)

  /** The live step: the velocities change before the pose is judged, the pose only if accepted. */
  function LiveStep(lim: Limits, origin: Pose, s: Ramp, dt: real): Stepped {
    var ramped := Ramped(lim, s, dt);
    var pose := NextPose(lim, ramped, dt);
    var verdict := Judge(lim, Radius(lim, origin, pose), Turn(lim, origin, pose));
    Stepped(if verdict.Accepted? then ramped.(pose := pose) else ramped, verdict)
  }

  /** The dry-run state keeps the largest radius and turn seen so far. */
  datatype Dry = Dry(state: Ramp, seenRadius: real, seenTurn: real)

  datatype DryStepped = DryStepped(dry: Dry, verdict: Verdict)

  /** The dry-run step: the pose changes first and the running maxima are judged. */
  function DryStep(lim: Limits, origin: Pose, d: Dry, dt: real): DryStepped {
    var ramped := Ramped(lim, d.state, dt);
    var pose := NextPose(lim, ramped, dt);
    var radius, turn := Max(d.seenRadius, Radius(lim, origin, pose)), Max(d.seenTurn, Turn(lim, origin, pose));
    DryStepped(Dry(ramped.(pose := pose), radius, turn), Judge(lim, radius, turn))
  }

  // ---- Runs ---------------------------------------------------------------------------

  datatype Event = Act(deltaXyz: Vec, deltaTurn: Vec) | HoldStill | Tick(dt: real)

  /** A run stops at the first event it rejects; `taken` counts the events up to and with that one. */
  datatype LiveRun = LiveRun(state: Ramp, verdict: Verdict, taken: nat)
  datatype DryRun = DryRun(dry: Dry, verdict: Verdict, taken: nat)

  function Live(lim: Limits, origin: Pose, start: Ramp, events: seq<Event>): LiveRun
    requires lim.policyHz > 0.0
  {
    if |events| == 0 then LiveRun(start, Accepted, 0) else
    var before := Live(lim, origin, start, events[..|events| - 1]);
    if !before.verdict.Accepted? then before else
    match events[|events| - 1]
    case Act(deltaXyz, deltaTurn) => LiveRun(Acted(lim, before.state, deltaXyz, deltaTurn), Accepted, |events|)
    case HoldStill => LiveRun(Held(before.state), Accepted, |events|)
    case Tick(dt) =>
      var step := LiveStep(lim, origin, before.state, dt);
      LiveRun(step.state, step.verdict, |events|)
  }

  function DryAfter(lim: Limits, origin: Pose, events: seq<Event>): DryRun
    requires lim.policyHz > 0.0
  {
    if |events| == 0 then DryRun(Dry(AtRest(origin), 0.0, 0.0), Accepted, 0) else
    var before := DryAfter(lim, origin, events[..|events| - 1]);
    if !before.verdict.Accepted? then before else
    match events[|events| - 1]
    case Act(deltaXyz, deltaTurn) =>
      DryRun(before.dry.(state := Acted(lim, before.dry.state, deltaXyz, deltaTurn)), Accepted, |events|)
    case HoldStill => DryRun(before.dry.(state := Held(before.dry.state)), Accepted, |events|)
    case Tick(dt) =>
      var step := DryStep(lim, origin, before.dry, dt);
      DryRun(step.dry, step.verdict, |events|)
  }

  ghost predicate TimeForward(events: seq<Event>) {
    forall i :: 0 <= i < |events| && events[i].Tick? ==> events[i].dt >= 0.0
  }

  // ---- The dry run predicts the live run ----------------------------------------------

  ghost predicate Agree(lim: Limits, origin: Pose, live: LiveRun, dry: DryRun, events: seq<Event>)
    requires lim.policyHz > 0.0
  {
    && live.verdict == dry.verdict && live.taken == dry.taken <= |events|
    && live.state == dry.dry.state.(pose := live.state.pose)
    && (live.verdict.Accepted? ==>
          live.state == dry.dry.state && live.taken == |events| && dry.dry.seenRadius <= lim.maxRadius && dry.dry.seenTurn <= lim.maxTurn)
  }

  /** On the same actions and time steps both integrators reject at the same first tick and for the
      same reason, with equal velocities; while they accept their whole states are equal. */
  lemma {:induction false} DryPredictsLive(lim: Limits, origin: Pose, events: seq<Event>)
    requires lim.Valid()
    ensures Agree(lim, origin, Live(lim, origin, AtRest(origin), events), DryAfter(lim, origin, events), events)
  {
    hide Euclidean;
    hide Acted;
    hide Ramped;
    hide NextPose;
    if |events| > 0 { DryPredictsLive(lim, origin, events[..|events| - 1]); }
  }

  /** Once a run has rejected, further events change nothing. */
  lemma {:induction false} RejectionIsFinal(lim: Limits, origin: Pose, start: Ramp, events: seq<Event>, more: seq<Event>)
    requires lim.policyHz > 0.0 && !Live(lim, origin, start, events).verdict.Accepted?
    ensures Live(lim, origin, start, events + more) == Live(lim, origin, start, events)
  {
    if |more| > 0 {
      RejectionIsFinal(lim, origin, start, events, more[..|more| - 1]);
      assert (events + more)[..|events + more| - 1] == events + more[..|more| - 1];
    } else {
      assert events + more == events;
    }
  }

  // ---- Bounds over every run ----------------------------------------------------------

  ghost predicate Bounded(lim: Limits, origin: Pose, s: Ramp) {
    && lim.norm(s.linear) <= lim.maxVelocity && lim.norm(s.wantLinear) <= lim.maxVelocity
    && lim.norm(s.angular) <= lim.maxAngularVelocity && lim.norm(s.wantAngular) <= lim.maxAngularVelocity
    && Radius(lim, origin, s.pose) <= lim.maxRadius && Turn(lim, origin, s.pose) <= lim.maxTurn
  }

  /** A policy step clipped to the velocity limit over the policy rate asks for at most that velocity. */
  lemma WantedWithin(lim: Limits, delta: Vec, maxVelocity: real)
    requires lim.Valid() && maxVelocity > 0.0
    ensures lim.norm(Wanted(lim, delta, maxVelocity)) <= maxVelocity
  {
    var step := maxVelocity / lim.policyHz;
    Rate(maxVelocity, lim.policyHz);
    ClippedNorm(lim.norm, delta, step);
    ScaledNorm(lim.norm, ClipNorm(lim.norm, delta, step), 1.0 / lim.PolicyDt());
    hide ClipNorm;
    hide Scale;
    AtRate(lim.norm(ClipNorm(lim.norm, delta, step)), step, lim.policyHz);
  }

  lemma Rate(velocity: real, hz: real)
    requires velocity > 0.0 && hz > 0.0
    ensures velocity / hz > 0.0 && velocity / hz * hz == velocity
    ensures 1.0 / (1.0 / hz) == hz
  {
  }

  lemma AtRate(length: real, step: real, hz: real)
    requires 0.0 <= length <= step && hz > 0.0
    ensures hz * length <= step * hz
  {
  }

  lemma Allowance(rate: real, dt: real)
    requires rate > 0.0 && dt >= 0.0
    ensures Product(rate, dt) >= 0.0
  {
  }

  /** One tick changes each velocity by at most its acceleration times `dt`, keeps both inside their
      limits, and leaves an accepted pose inside the radius and turn limits. */
  lemma LiveStepKeeps(lim: Limits, origin: Pose, s: Ramp, dt: real)
    requires lim.Valid() && Bounded(lim, origin, s) && dt >= 0.0
    ensures var s' := LiveStep(lim, origin, s, dt).state;
      && Bounded(lim, origin, s')
      && lim.norm(Sub(s'.linear, s.linear)) <= Product(lim.maxAcceleration, dt)
      && lim.norm(Sub(s'.angular, s.angular)) <= Product(lim.maxAngularAcceleration, dt)
  {
    hide Euclidean;
    Allowance(lim.maxAcceleration, dt);
    Allowance(lim.maxAngularAcceleration, dt);
    hide Product;
    MoveStaysInBall(lim.norm, s.linear, s.wantLinear, Product(lim.maxAcceleration, dt), lim.maxVelocity);
    MoveStaysInBall(lim.norm, s.angular, s.wantAngular, Product(lim.maxAngularAcceleration, dt), lim.maxAngularVelocity);
    MoveCloses(lim.norm, s.linear, s.wantLinear, Product(lim.maxAcceleration, dt));
    MoveCloses(lim.norm, s.angular, s.wantAngular, Product(lim.maxAngularAcceleration, dt));
    hide MoveToward;
    hide NextPose;
    hide Sub;
  }

  /** A step is accepted exactly when the pose its ramped velocities lead to is inside the radius and
      the turn limit, a radius too large being reported first; an accepted pose has moved by the new
      linear velocity and turned by the new angular velocity over `dt`. */
  lemma StepFollowsVelocity(lim: Limits, origin: Pose, s: Ramp, dt: real)
    ensures var step := LiveStep(lim, origin, s, dt);
      var xyz := Add(s.pose.xyz, Scale(step.state.linear, dt));
      var rotation := lim.turn(s.pose.rotation, Scale(step.state.angular, dt));
      && (step.verdict == RadiusExceeded <==> lim.norm(Sub(xyz, origin.xyz)) > lim.maxRadius)
      && (step.verdict == TurnExceeded <==>
            lim.norm(Sub(xyz, origin.xyz)) <= lim.maxRadius && lim.angle(origin.rotation, rotation) > lim.maxTurn)
      && (step.verdict == Accepted ==> step.state.pose == Pose(xyz, rotation))
  {
    hide MoveToward;
  }

  /** A policy step inside the limit is asked for as it is, at the policy rate; a longer one keeps its
      direction and asks for exactly the velocity limit. */
  lemma WantedIsRequested(lim: Limits, delta: Vec, maxVelocity: real)
    requires lim.Valid() && maxVelocity > 0.0
    ensures lim.norm(delta) <= maxVelocity / lim.policyHz ==> Wanted(lim, delta, maxVelocity) == Scale(delta, lim.policyHz)
    ensures lim.norm(delta) > maxVelocity / lim.policyHz ==>
      lim.norm(Wanted(lim, delta, maxVelocity)) == maxVelocity && exists k :: k > 0.0 && Wanted(lim, delta, maxVelocity) == Scale(delta, k)
  {
    hide Euclidean;
    var step := maxVelocity / lim.policyHz;
    Rate(maxVelocity, lim.policyHz);
    if lim.norm(delta) > step {
      ClippedNorm(lim.norm, delta, step);
      ScaledNorm(lim.norm, ClipNorm(lim.norm, delta, step), lim.policyHz);
      ScaledTwice(delta, step, lim.norm(delta), lim.policyHz);
      assert Wanted(lim, delta, maxVelocity) == Scale(delta, step / lim.norm(delta) * lim.policyHz);
    }
  }

  lemma ScaledTwice(v: Vec, step: real, length: real, hz: real)
    requires length > step > 0.0 && hz > 0.0
    ensures Scale(Scale(v, step / length), hz) == Scale(v, step / length * hz) && step / length * hz > 0.0
  {
    Fraction(step, length);
    var k := step / length;
    StrictProduct(k, hz);
    assert (v.x * k) * hz == v.x * (k * hz) && (v.y * k) * hz == v.y * (k * hz) && (v.z * k) * hz == v.z * (k * hz);
  }

  /** What a policy step asks of one velocity. */
  ghost predicate Requests(lim: Limits, delta: Vec, maxVelocity: real, want: Vec)
    requires lim.policyHz > 0.0
  {
    && (lim.norm(delta) <= maxVelocity / lim.policyHz ==> want == Scale(delta, lim.policyHz))
    && (lim.norm(delta) > maxVelocity / lim.policyHz ==>
          lim.norm(want) == maxVelocity && exists k :: k > 0.0 && want == Scale(delta, k))
  }

  /** A policy action changes nothing but the wanted velocities: the linear one asks for its translation,
      the angular one for its rotation. */
  lemma ActedIsRequested(lim: Limits, s: Ramp, deltaXyz: Vec, deltaTurn: Vec)
    requires lim.Valid()
    ensures var s' := Acted(lim, s, deltaXyz, deltaTurn);
      && Requests(lim, deltaXyz, lim.maxVelocity, s'.wantLinear)
      && Requests(lim, deltaTurn, lim.maxAngularVelocity, s'.wantAngular)
      && s'.pose == s.pose && s'.linear == s.linear && s'.angular == s.angular
  {
    hide Euclidean;
    hide Wanted;
    WantedIsRequested(lim, deltaXyz, lim.maxVelocity);
    WantedIsRequested(lim, deltaTurn, lim.maxAngularVelocity);
  }

  /** Over every run, accepted or rejected, the speeds and the commanded pose stay within limits. */
  lemma {:induction false} EveryRunIsBounded(lim: Limits, origin: Pose, start: Ramp, events: seq<Event>)
    requires lim.Valid() && TimeForward(events) && Bounded(lim, origin, start)
    ensures Bounded(lim, origin, Live(lim, origin, start, events).state)
  {
    hide Euclidean;
    if |events| > 0 {
      EveryRunIsBounded(lim, origin, start, events[..|events| - 1]);
      var before := Live(lim, origin, start, events[..|events| - 1]);
      NormOfZero(lim.norm);
      hide LiveStep;
      hide Wanted;
      match events[|events| - 1]
      case Act(deltaXyz, deltaTurn) =>
        WantedWithin(lim, deltaXyz, lim.maxVelocity);
        WantedWithin(lim, deltaTurn, lim.maxAngularVelocity);
      case HoldStill =>
      case Tick(dt) => LiveStepKeeps(lim, origin, before.state, dt);
    }
  }

  /** The state a run starts from is within limits when the start orientation is its own. */
  lemma RestIsBounded(lim: Limits, origin: Pose)
    requires lim.Valid() && lim.angle(origin.rotation, origin.rotation) <= lim.maxTurn
    ensures Bounded(lim, origin, AtRest(origin))
  {
    hide Euclidean;
    NormOfZero(lim.norm);
    assert Sub(origin.xyz, origin.xyz) == ZERO;
  }

  /** A rejected step has moved nothing but the velocities, and even those are unchanged exactly when
      no time passed or both had already arrived. */
  lemma RejectionIsAtomicIff(lim: Limits, origin: Pose, s: Ramp, dt: real)
    requires lim.Valid() && dt >= 0.0 && !LiveStep(lim, origin, s, dt).verdict.Accepted?
    ensures LiveStep(lim, origin, s, dt).state.pose == s.pose
    ensures LiveStep(lim, origin, s, dt).state == s <==> dt == 0.0 || (s.linear == s.wantLinear && s.angular == s.wantAngular)
  {
    hide Euclidean;
    hide NextPose;
    hide Radius;
    hide Turn;
    Allowance(lim.maxAcceleration, dt);
    Allowance(lim.maxAngularAcceleration, dt);
    if dt > 0.0 {
      StrictProduct(lim.maxAcceleration, dt);
      StrictProduct(lim.maxAngularAcceleration, dt);
    } else {
      assert Product(lim.maxAcceleration, dt) == 0.0 && Product(lim.maxAngularAcceleration, dt) == 0.0;
    }
    Unmoved(lim.norm, s.linear, s.wantLinear, Product(lim.maxAcceleration, dt));
    Unmoved(lim.norm, s.angular, s.wantAngular, Product(lim.maxAngularAcceleration, dt));
    hide Product;
    hide MoveToward;
  }

  /** The norm of a vector along the first axis. */
  lemma AxisNorm(norm: Norm, x: real)
    requires Euclidean(norm) && x >= 0.0
    ensures norm(Vec(x, 0.0, 0.0)) == x
  {
    hide Euclidean;
    var n := norm(Vec(x, 0.0, 0.0));
    NormSquare(norm, Vec(x, 0.0, 0.0));
    assert n * n == x * x;
    RootsAgree(n, x);
    RootsAgree(x, n);
  }

  /** Limits of one metre and radian per second, half a metre of radius, and no turning. */
  function Wide(norm: Norm): Limits {
    Limits(norm, (m, v) => m, (p, q) => 0.0, 10.0, 1.0, 1.0, 1.0, 1.0, 0.5, 1.0)
  }

  function Along(x: real): Vec { Vec(x, 0.0, 0.0) }

  lemma AsksForOne(norm: Norm)
    requires Euclidean(norm) && Wide(norm).policyHz > 0.0
    ensures Wanted(Wide(norm), Along(0.1), 1.0) == Along(1.0)
  {
    hide Euclidean;
    AxisNorm(norm, 0.1);
    assert ClipNorm(norm, Along(0.1), 0.1) == Along(0.1);
    hide ClipNorm;
  }

  lemma ArrivesWithin(norm: Norm, current: Vec, target: Vec, most: real)
    requires norm(Sub(target, current)) <= most
    ensures MoveToward(norm, current, target, most) == target
  {
  }

  lemma ReachesAlong(norm: Norm, x: real, most: real)
    requires Euclidean(norm) && 0.0 <= x <= most
    ensures MoveToward(norm, ZERO, Along(x), most) == Along(x)
  {
    hide Euclidean;
    hide MoveToward;
    AxisNorm(norm, x);
    assert Sub(Along(x), ZERO) == Along(x);
    ArrivesWithin(norm, ZERO, Along(x), most);
  }

  lemma OneByOne()
    ensures Product(1.0, 1.0) == 1.0
  {
  }

  lemma LeavesRadius(norm: Norm, origin: Pose, s: Ramp)
    requires Euclidean(norm) && s.pose == origin && s.linear == Along(1.0)
    ensures Radius(Wide(norm), origin, NextPose(Wide(norm), s, 1.0)) == 1.0
  {
    hide Euclidean;
    AxisNorm(norm, 1.0);
    assert Sub(NextPose(Wide(norm), s, 1.0).xyz, origin.xyz) == Along(1.0);
  }

  /** A rejected tick that is not atomic: from rest, one action along the first axis and a tick of one
      second are rejected for the radius, the pose stays, and the velocity has gone from zero to one. */
  lemma RejectedTickChangesVelocity(norm: Norm, origin: Pose)
    requires Euclidean(norm)
    ensures Wide(norm).Valid()
    ensures var acted := Live(Wide(norm), origin, AtRest(origin), [Act(Along(0.1), ZERO)]).state;
      var step := LiveStep(Wide(norm), origin, acted, 1.0);
      && acted.linear == ZERO && step.verdict == RadiusExceeded
      && step.state.pose == acted.pose && step.state.linear == Along(1.0) != acted.linear
  {
    hide Euclidean;
    hide MoveToward;
    hide ClipNorm;
    hide NextPose;
    hide Radius;
    hide Wanted;
    hide Product;
    var acted := Acted(Wide(norm), AtRest(origin), Along(0.1), ZERO);
    assert [Act(Along(0.1), ZERO)][..0] == [];
    AsksForOne(norm);
    OneByOne();
    ReachesAlong(norm, 1.0, 1.0);
    LeavesRadius(norm, origin, Ramped(Wide(norm), acted, 1.0));
  }

  lemma Unmoved(norm: Norm, current: Vec, target: Vec, most: real)
    requires Euclidean(norm) && most >= 0.0
    ensures MoveToward(norm, current, target, most) == current <==> most == 0.0 || current == target
  {
    hide Euclidean;
    var next := MoveToward(norm, current, target, most);
    MoveCloses(norm, current, target, most);
    hide MoveToward;
    NormOfZero(norm);
    DifferenceIsZero(norm, current, target);
    DifferenceIsZero(norm, next, target);
    DifferenceIsZero(norm, current, next);
  }

  lemma DifferenceIsZero(norm: Norm, from: Vec, to: Vec)
    requires Euclidean(norm)
    ensures norm(Sub(to, from)) >= 0.0
    ensures norm(Sub(to, from)) == 0.0 <==> from == to
  {
    hide Euclidean;
    NonNegativeNorm(norm, Sub(to, from));
    NormOfZero(norm);
    if norm(Sub(to, from)) == 0.0 {
      ZeroNorm(norm, Sub(to, from));
    }
    hide Dot;
  }

  // ---- Ramping down -------------------------------------------------------------------

  function Ticks(dts: seq<real>): seq<Event> { seq(|dts|, i requires 0 <= i < |dts| => Tick(dts[i])) }

  /** `n` losses of `rate` over `least` seconds each. */
  function Losses(n: nat, rate: real, least: real): real { n as real * Product(rate, least) }

  lemma OneMoreLoss(n: nat, rate: real, least: real)
    ensures Losses(n + 1, rate, least) == Losses(n, rate, least) + Product(rate, least)
    ensures Losses(0, rate, least) == 0.0
  {
  }

  lemma LargerAllowance(rate: real, dt: real, least: real)
    requires rate > 0.0 && dt >= least > 0.0
    ensures Product(rate, dt) >= Product(rate, least) > 0.0
  {
  }

  lemma SlowsBy(norm: Norm, v: Vec, rate: real, dt: real, least: real, bound: real, n: nat)
    requires Euclidean(norm) && rate > 0.0 && dt >= least > 0.0
    requires norm(v) <= Max(0.0, bound - Losses(n, rate, least))
    ensures norm(MoveToward(norm, v, ZERO, Product(rate, dt))) <= Max(0.0, bound - Losses(n + 1, rate, least))
  {
    hide Euclidean;
    LargerAllowance(rate, dt, least);
    OneMoreLoss(n, rate, least);
    hide Losses;
    hide Product;
    MoveCloses(norm, v, ZERO, Product(rate, dt));
    hide MoveToward;
    Negated(norm, v);
    Negated(norm, MoveToward(norm, v, ZERO, Product(rate, dt)));
  }

  lemma Negated(norm: Norm, v: Vec)
    requires Euclidean(norm)
    ensures norm(Sub(ZERO, v)) == norm(v)
  {
    ScaledNorm(norm, v, -1.0);
    assert Scale(v, -1.0) == Sub(ZERO, v);
  }

  /** While holding, each tick of at least `least` seconds takes its full share off both speeds. */
  lemma {:induction false} HoldingSlowsDown(lim: Limits, origin: Pose, s: Ramp, dts: seq<real>, least: real)
    requires lim.Valid() && s.wantLinear == ZERO && s.wantAngular == ZERO
    requires least > 0.0 && (forall i :: 0 <= i < |dts| ==> dts[i] >= least)
    requires Live(lim, origin, s, Ticks(dts)).verdict.Accepted?
    ensures Slowed(lim, s, Live(lim, origin, s, Ticks(dts)).state, |dts|, least)
  {
    if |dts| > 0 {
      var n := |dts| - 1;
      assert Ticks(dts)[..n] == Ticks(dts[..n]) && Ticks(dts)[n] == Tick(dts[n]);
      HoldingSlowsDown(lim, origin, s, dts[..n], least);
      var before := Live(lim, origin, s, Ticks(dts[..n])).state;
      assert Live(lim, origin, s, Ticks(dts)).state == LiveStep(lim, origin, before, dts[n]).state;
      hide Live;
      SlowedOnce(lim, origin, s, before, n, dts[n], least);
      hide Slowed;
    } else {
      OneMoreLoss(0, lim.maxAcceleration, least);
      OneMoreLoss(0, lim.maxAngularAcceleration, least);
    }
  }

  ghost predicate Slowed(lim: Limits, s: Ramp, r: Ramp, n: nat, least: real) {
    && r.wantLinear == ZERO && r.wantAngular == ZERO
    && lim.norm(r.linear) <= Max(0.0, lim.norm(s.linear) - Losses(n, lim.maxAcceleration, least))
    && lim.norm(r.angular) <= Max(0.0, lim.norm(s.angular) - Losses(n, lim.maxAngularAcceleration, least))
  }

  lemma SlowedOnce(lim: Limits, origin: Pose, s: Ramp, before: Ramp, n: nat, dt: real, least: real)
    requires lim.Valid() && Slowed(lim, s, before, n, least) && dt >= least > 0.0
    ensures Slowed(lim, s, LiveStep(lim, origin, before, dt).state, n + 1, least)
  {
    hide Euclidean;
    SlowsBy(lim.norm, before.linear, lim.maxAcceleration, dt, least, lim.norm(s.linear), n);
    SlowsBy(lim.norm, before.angular, lim.maxAngularAcceleration, dt, least, lim.norm(s.angular), n);
    hide MoveToward;
    hide NextPose;
    hide Losses;
    hide Product;
  }

  predicate Stopped(lim: Limits, s: Ramp) {
    && lim.norm(s.linear) < STOPPED && lim.norm(s.angular) < STOPPED
    && lim.norm(s.wantLinear) < STOPPED && lim.norm(s.wantAngular) < STOPPED
  }

  /** From any state within limits, holding for `n` ticks of at least `least` seconds stops the ramp
      exactly, once `n` such ticks can shed both velocity limits. */
  lemma HoldStops(lim: Limits, origin: Pose, s: Ramp, dts: seq<real>, least: real)
    requires lim.Valid() && Bounded(lim, origin, s)
    requires least > 0.0 && (forall i :: 0 <= i < |dts| ==> dts[i] >= least)
    requires Losses(|dts|, lim.maxAcceleration, least) >= lim.maxVelocity
    requires Losses(|dts|, lim.maxAngularAcceleration, least) >= lim.maxAngularVelocity
    requires Live(lim, origin, Held(s), Ticks(dts)).verdict.Accepted?
    ensures var r := Live(lim, origin, Held(s), Ticks(dts)).state;
      r.linear == ZERO && r.angular == ZERO && Stopped(lim, r)
  {
    hide Euclidean;
    HoldingSlowsDown(lim, origin, Held(s), dts, least);
    var r := Live(lim, origin, Held(s), Ticks(dts)).state;
    hide Live;
    hide Losses;
    hide Radius;
    hide Turn;
    hide Dot;
    AtMostZero(lim.norm, r.linear);
    AtMostZero(lim.norm, r.angular);
    AtMostZero(lim.norm, ZERO);
  }

  lemma AtMostZero(norm: Norm, v: Vec)
    requires Euclidean(norm) && (v == ZERO || norm(v) <= 0.0)
    ensures v == ZERO && norm(v) == 0.0
  {
    hide Euclidean;
    NormOfZero(norm);
    NonNegativeNorm(norm, v);
    hide Dot;
    if v != ZERO { ZeroNorm(norm, v); }
  }

  // ---- The live environment -----------------------------------------------------------

  class FrankaEefPolicyEnv {
    const lim: Limits
    var origin: Pose
    var command: Pose
    var linear: Vec
    var angular: Vec
    var wantLinear: Vec
    var wantAngular: Vec

    function State(): Ramp
      reads this
    {
      Ramp(command, linear, angular, wantLinear, wantAngular)
    }

    constructor (lim: Limits, initial: Pose)
      ensures this.lim == lim && origin == initial && State() == AtRest(initial)
    {
      this.lim := lim;
      origin, command := initial, initial;
      linear, angular, wantLinear, wantAngular := ZERO, ZERO, ZERO, ZERO;
    }

    method ResetFromState(pose: Pose)
      modifies this
      ensures origin == pose && State() == AtRest(pose)
    {
      origin, command := pose, pose;
      linear, angular := ZERO, ZERO;
      wantLinear, wantAngular := ZERO, ZERO;
    }

    method SetPolicyAction(deltaXyz: Vec, deltaTurn: Vec) returns (safeXyz: Vec, safeTurn: Vec)
      requires lim.Valid()
      modifies this`wantLinear, this`wantAngular
      ensures State() == Acted(lim, old(State()), deltaXyz, deltaTurn)
      ensures lim.norm(wantLinear) <= lim.maxVelocity && lim.norm(wantAngular) <= lim.maxAngularVelocity
      ensures wantLinear == Scale(safeXyz, 1.0 / lim.PolicyDt()) && wantAngular == Scale(safeTurn, 1.0 / lim.PolicyDt())
    {
      hide Euclidean;
      WantedWithin(lim, deltaXyz, lim.maxVelocity);
      WantedWithin(lim, deltaTurn, lim.maxAngularVelocity);
      safeXyz := ClipNorm(lim.norm, deltaXyz, lim.maxVelocity / lim.policyHz);
      safeTurn := ClipNorm(lim.norm, deltaTurn, lim.maxAngularVelocity / lim.policyHz);
      hide ClipNorm;
      wantLinear := Scale(safeXyz, 1.0 / lim.PolicyDt());
      wantAngular := Scale(safeTurn, 1.0 / lim.PolicyDt());
    }

    method SetHoldAction()
      modifies this`wantLinear, this`wantAngular
      ensures State() == Held(old(State()))
    {
      wantLinear := ZERO;
      wantAngular := ZERO;
    }

    method IsStopped() returns (stopped: bool)
      ensures stopped == Stopped(lim, State())
    {
      stopped := lim.norm(linear) < STOPPED && lim.norm(angular) < STOPPED
              && lim.norm(wantLinear) < STOPPED && lim.norm(wantAngular) < STOPPED;
    }

    method StepCommand(dt: real) returns (verdict: Verdict)
      modifies this`command, this`linear, this`angular
      ensures LiveStep(lim, origin, old(State()), dt) == Stepped(State(), verdict)
    {
      linear := MoveToward(lim.norm, linear, wantLinear, Product(lim.maxAcceleration, dt));
      angular := MoveToward(lim.norm, angular, wantAngular, Product(lim.maxAngularAcceleration, dt));
      hide MoveToward;
      hide Product;
      hide Scale;
      hide Add;
      hide Sub;
      var nextXyz := Add(command.xyz, Scale(linear, dt));
      var nextRotation := lim.turn(command.rotation, Scale(angular, dt));
      var radius := lim.norm(Sub(nextXyz, origin.xyz));
      if radius > lim.maxRadius {
        return RadiusExceeded;
      }
      var rotationRadius := lim.angle(origin.rotation, nextRotation);
      if rotationRadius > lim.maxTurn {
        return TurnExceeded;
      }
      command := Pose(nextXyz, nextRotation);
      return Accepted;
    }
  }

  // ---- The dry run --------------------------------------------------------------------

  const CONTROL_DT := 0.001

  /** What the policy is asked with: the commanded pose, the elapsed time and the policy step. */
  type Policy = (Pose, real, nat) -> (Vec, Vec)

  function Elapsed(events: seq<Event>): real {
    if |events| == 0 then 0.0 else
    Elapsed(events[..|events| - 1]) + (if events[|events| - 1].Tick? then events[|events| - 1].dt else 0.0)
  }

  /** Control ticks still needed to fill a remaining time. */
  function TicksLeft(remaining: real): nat {
    if remaining <= 0.0 then 0 else (remaining * 1000.0).Floor + 1
  }

  lemma TickTaken(remaining: real)
    requires remaining > 0.0
    ensures TicksLeft(remaining - Min(CONTROL_DT, remaining)) < TicksLeft(remaining)
  {
  }

  function Acts(events: seq<Event>): nat {
    if |events| == 0 then 0 else Acts(events[..|events| - 1]) + (if events[|events| - 1].Act? then 1 else 0)
  }

  /** The next policy time, one policy period per action taken. */
  function NextPolicyTime(lim: Limits, acts: nat): real
    requires lim.policyHz > 0.0
  {
    acts as real * lim.PolicyDt()
  }

  ghost predicate Due(lim: Limits, events: seq<Event>)
    requires lim.policyHz > 0.0
  {
    Elapsed(events) + 0.000000000001 >= NextPolicyTime(lim, Acts(events))
  }

  ghost predicate JustActed(events: seq<Event>) { |events| > 0 && events[|events| - 1].Act? }

  /** The rollout's schedule: until `duration` the policy is asked once before each control tick that
      finds it due, then one hold and only ticks; each tick is the control period or what is left. */
  ghost predicate Scheduled(lim: Limits, start: Pose, policy: Policy, duration: real, settleTime: real, events: seq<Event>)
    requires lim.policyHz > 0.0
  {
    |events| == 0 ||
    (&& Scheduled(lim, start, policy, duration, settleTime, events[..|events| - 1])
     && Fits(lim, start, policy, duration, settleTime, events[..|events| - 1], events[|events| - 1]))
  }

  /** Whether the schedule allows `next` after the events `before`. */
  ghost predicate Fits(lim: Limits, start: Pose, policy: Policy, duration: real, settleTime: real, before: seq<Event>, next: Event)
    requires lim.policyHz > 0.0
  {
    match next
    case Act(deltaXyz, deltaTurn) =>
      && HoldStill !in before && !JustActed(before) && Due(lim, before)
      && (deltaXyz, deltaTurn) == policy(DryAfter(lim, start, before).dry.state.pose, Elapsed(before), Acts(before))
    case HoldStill => HoldStill !in before && Elapsed(before) == duration
    case Tick(dt) =>
      if HoldStill in before then dt == Min(CONTROL_DT, settleTime - (Elapsed(before) - duration)) else
      dt == Min(CONTROL_DT, duration - Elapsed(before)) && (JustActed(before) || !Due(lim, before))
  }

  class DryRunner {
    const lim: Limits
    const start: Pose
    var command: Pose
    var linear: Vec
    var angular: Vec
    var wantLinear: Vec
    var wantAngular: Vec
    var seenRadius: real
    var seenTurn: real

    function State(): Dry
      reads this
    {
      Dry(Ramp(command, linear, angular, wantLinear, wantAngular), seenRadius, seenTurn)
    }

    constructor (lim: Limits, start: Pose)
      ensures this.lim == lim && this.start == start && State() == Dry(AtRest(start), 0.0, 0.0)
    {
      this.lim, this.start := lim, start;
      command := start;
      linear, angular, wantLinear, wantAngular := ZERO, ZERO, ZERO, ZERO;
      seenRadius, seenTurn := 0.0, 0.0;
    }

    method IntegrateStep(dt: real) returns (verdict: Verdict)
      modifies this`command, this`linear, this`angular, this`seenRadius, this`seenTurn
      ensures DryStep(lim, start, old(State()), dt) == DryStepped(State(), verdict)
    {
      linear := MoveToward(lim.norm, linear, wantLinear, Product(lim.maxAcceleration, dt));
      angular := MoveToward(lim.norm, angular, wantAngular, Product(lim.maxAngularAcceleration, dt));
      hide MoveToward;
      hide Product;
      hide Scale;
      hide Add;
      hide Sub;
      command := Pose(Add(command.xyz, Scale(linear, dt)), lim.turn(command.rotation, Scale(angular, dt)));
      seenRadius := Max(seenRadius, lim.norm(Sub(command.xyz, start.xyz)));
      seenTurn := Max(seenTurn, lim.angle(start.rotation, command.rotation));
      if seenRadius > lim.maxRadius {
        return RadiusExceeded;
      }
      if seenTurn > lim.maxTurn {
        return TurnExceeded;
      }
      return Accepted;
    }

    ghost predicate Follows(events: seq<Event>)
      requires lim.policyHz > 0.0
      reads this
    {
      TimeForward(events) && DryAfter(lim, start, events) == DryRun(State(), Accepted, |events|)
    }

    method ActOn(policy: Policy, elapsed: real, policyStep: nat, ghost events: seq<Event>) returns (ghost extended: seq<Event>)
      requires lim.Valid() && Follows(events)
      modifies this`wantLinear, this`wantAngular
      ensures Follows(extended) && Elapsed(extended) == Elapsed(events) && Acts(extended) == Acts(events) + 1
      ensures extended == Extended(events, ActFrom(policy(DryAfter(lim, start, events).dry.state.pose, elapsed, policyStep)))
    {
      var action := policy(command, elapsed, policyStep);
      hide Wanted;
      hide Euclidean;
      wantLinear := Wanted(lim, action.0, lim.maxVelocity);
      wantAngular := Wanted(lim, action.1, lim.maxAngularVelocity);
      extended := Extended(events, ActFrom(action));
    }

    method HoldOn(ghost events: seq<Event>) returns (ghost extended: seq<Event>)
      requires lim.Valid() && Follows(events)
      modifies this`wantLinear, this`wantAngular
      ensures Follows(extended) && Elapsed(extended) == Elapsed(events)
      ensures extended == Extended(events, HoldStill)
      ensures wantLinear == ZERO == wantAngular
    {
      hide Euclidean;
      wantLinear, wantAngular := ZERO, ZERO;
      extended := Extended(events, HoldStill);
    }

    method Advance(dt: real, ghost events: seq<Event>) returns (verdict: Verdict, ghost extended: seq<Event>)
      requires lim.Valid() && Follows(events) && dt >= 0.0
      modifies this`command, this`linear, this`angular, this`seenRadius, this`seenTurn
      ensures TimeForward(extended) && Elapsed(extended) == Elapsed(events) + dt && Acts(extended) == Acts(events)
      ensures extended == Extended(events, Tick(dt))
      ensures DryAfter(lim, start, extended) == DryRun(State(), verdict, |extended|)
    {
      hide Euclidean;
      hide DryStep;
      verdict := IntegrateStep(dt);
      extended := Extended(events, Tick(dt));
    }

    /** The whole dry run: policy ticks for `duration`, then a ramp down for at most `settleTime`. A
        live run that is sent the same events ends in the same state with the same verdict. */
    method SimulateRollout(policy: Policy, duration: real, settleTime: real) returns (verdict: Verdict, ghost events: seq<Event>)
      requires lim.Valid() && duration > 0.0 && settleTime >= 0.0
      requires State() == Dry(AtRest(start), 0.0, 0.0)
      modifies this
      ensures TimeForward(events) && Scheduled(lim, start, policy, duration, settleTime, events)
      ensures Agree(lim, start, Live(lim, start, AtRest(start), events), DryRun(State(), verdict, |events|), events)
      ensures verdict.Accepted? ==>
        Elapsed(events) == duration + settleTime || (duration <= Elapsed(events) <= duration + settleTime && Stopped(lim, State().state))
    {
      hide Euclidean;
      hide DryAfter;
      hide Agree;
      hide TicksLeft;
      hide Scheduled;
      hide Acts;
      hide Elapsed;
      hide NextPolicyTime;
      hide Extended;
      hide Wanted;
      events := [];
      StartsAtRest(lim, start);
      ghost var before := events;
      var policyStep := 0;
      var nextPolicyTime, elapsed := 0.0, 0.0;
      while elapsed < duration
        invariant elapsed <= duration && Follows(events) && Elapsed(events) == elapsed
        invariant Scheduled(lim, start, policy, duration, settleTime, events)
        invariant HoldStill !in events && !JustActed(events)
        invariant Acts(events) == policyStep && nextPolicyTime == NextPolicyTime(lim, policyStep)
        decreases TicksLeft(duration - elapsed)
      {
        if elapsed + 0.000000000001 >= nextPolicyTime {
          before := events;
          events := ActOn(policy, elapsed, policyStep, events);
          ScheduleExtends(lim, start, policy, duration, settleTime, before, events);
          policyStep := policyStep + 1;
          nextPolicyTime := nextPolicyTime + lim.PolicyDt();
          NextPeriod(lim, policyStep);
        }
        var dt := Min(CONTROL_DT, duration - elapsed);
        before := events;
        verdict, events := Advance(dt, events);
        ScheduleExtends(lim, start, policy, duration, settleTime, before, events);
        if !verdict.Accepted? {
          DryPredictsLive(lim, start, events);
          return;
        }
        TickTaken(duration - elapsed);
        elapsed := elapsed + dt;
      }
      before := events;
      events := HoldOn(events);
      ScheduleExtends(lim, start, policy, duration, settleTime, before, events);
      var settled := 0.0;
      while settled < settleTime && (lim.norm(linear) >= STOPPED || lim.norm(angular) >= STOPPED)
        invariant 0.0 <= settled <= settleTime && Follows(events) && Elapsed(events) == duration + settled
        invariant wantLinear == ZERO == wantAngular
        invariant Scheduled(lim, start, policy, duration, settleTime, events) && HoldStill in events
        decreases TicksLeft(settleTime - settled)
      {
        var dt := Min(CONTROL_DT, settleTime - settled);
        before := events;
        verdict, events := Advance(dt, events);
        ScheduleExtends(lim, start, policy, duration, settleTime, before, events);
        if !verdict.Accepted? {
          DryPredictsLive(lim, start, events);
          return;
        }
        TickTaken(settleTime - settled);
        settled := settled + dt;
      }
      DryPredictsLive(lim, start, events);
      NormOfZero(lim.norm);
      verdict := Accepted;
    }
  }

  lemma ScheduleExtends(lim: Limits, start: Pose, policy: Policy, duration: real, settleTime: real, before: seq<Event>, events: seq<Event>)
    requires lim.policyHz > 0.0 && Scheduled(lim, start, policy, duration, settleTime, before)
    requires |events| == |before| + 1 && events[..|before|] == before
    requires Fits(lim, start, policy, duration, settleTime, before, events[|before|])
    ensures Scheduled(lim, start, policy, duration, settleTime, events)
  {
  }

  lemma NextPeriod(lim: Limits, acts: nat)
    requires lim.policyHz > 0.0 && acts > 0
    ensures NextPolicyTime(lim, acts) == NextPolicyTime(lim, acts - 1) + lim.PolicyDt()
  {
  }

  lemma StartsAtRest(lim: Limits, start: Pose)
    requires lim.Valid()
    ensures forall policy, duration, settleTime :: Scheduled(lim, start, policy, duration, settleTime, [])
    ensures Acts([]) == 0 && NextPolicyTime(lim, 0) == 0.0
    ensures DryAfter(lim, start, []) == DryRun(Dry(AtRest(start), 0.0, 0.0), Accepted, 0) && Elapsed([]) == 0.0
  {
  }

  function ActFrom(action: (Vec, Vec)): Event { Act(action.0, action.1) }

  ghost function Extended(events: seq<Event>, e: Event): (r: seq<Event>)
    ensures |r| == |events| + 1 && r[..|r| - 1] == events && r[|r| - 1] == e
    ensures forall f :: f in r <==> f in events || f == e
  {
    events + [e]
  }
}
