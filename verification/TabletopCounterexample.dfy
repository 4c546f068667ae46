/** One concrete run up to a current-volume capture, and two things that the next tick does: a visual
    one moves the arm, an occluded one loses its clearance-lift flag when it is asked for again. */
module TabletopCounterexample {
  import opened Wrappers
  import opened JointMath
  import opened TabletopModel
  import opened TabletopSafety
  import opened TabletopTicks
  import opened TabletopInvariant
  import opened TabletopRuns
  import Ik = PoseIk

  const FIST: Hand := [0, 0, 0, 0, 0, 0]
  const CURLED: Hand := [1, 0, 0, 0, 0, 0]

  function Still(): Ik.Problem { Ik.Problem(q => Ik.Converged) }

  /** Solved by one correction that moves every joint by `x`. */
  function Moved(x: real): Ik.Problem { Ik.Problem((q: Joints) => if q[0] == x then Ik.Converged else Ik.Correction(Even(x))) }

  /** A catch index of 2, a closure to 4, a lift to 5, and a curled hand at sample 3 that touches the
      table unless the arm is raised. */
  function Example(): Bundle {
    Bundle(
      Config(2, 4, 5, 6, 1, true, true, true, 0.1, 0.1, 0.05, 0.05, 1.0, 0.5, 0.1, 0.1, 0.04, 0.2, 0.005, 0.6),
      Even(0.0), seq(6, i => Even(0.0)), [FIST, FIST, FIST, CURLED, FIST, FIST], Even(-1.0), Even(1.0),
      Geometry((p, q) => Some(0.0), (q: Joints, h: Hand) => if h[0] == 1 && q[0] == 0.0 then -0.01 else 0.05, q => 1.0,
               (q, r) => Moved(0.05), q => Still()))
  }

  const NEAR := ContactEvidence(0.0, 0.0, 0.0, 0.1, 0.05, false, false)

  /** An object inside the measured open-hand volume at 0.1 m/s along the track, still more than a
      tight tolerance away from where the closed hand would meet it, whose intercept solves to
      `solver`. */
  function Seen(solver: Ik.Problem): Observation {
    Observation(true, true, true, 0.0, 0.0, s => Still(), s => solver,
                GateFacts(true, false, true, false, false, true, true, true, true, false), NEAR, Some(q => 0.05))
  }

  /** The contact numbers and the gate's facts come from one velocity and one fingertip clearance. */
  predicate Coherent(b: Bundle, obs: Observation) {
    var slow, fast := 0.005, b.cfg.adaptiveSpeedMax + 0.000001;
    && obs.contact.speed >= 0.0
    && (obs.gate.speedAlong ==> obs.contact.speed >= slow)
    && (obs.gate.inVolume || obs.gate.degradedFit ==> slow <= obs.contact.speed <= fast)
    && (obs.gate.stationary ==> obs.contact.speed < 0.02)
    && (obs.gate.geometrySafe ==> obs.contact.tip >= b.cfg.minFingertip)
  }

  /** What the proofs below need of that bundle. */
  ghost predicate Shaped(b: Bundle) {
    && b.Valid()
    && b.cfg.catchIndex == 2 && b.cfg.closureEnd == 4 && b.cfg.liftEnd == 5 && b.cfg.steps == 6 && b.cfg.preshapeStep == 1
    && b.cfg.movingCapture && b.cfg.mpcCapture && b.cfg.collisionReplan
    && b.cfg.approachStep == b.cfg.maxTargetStep == 0.1 && b.cfg.maxCorrectionStep == 0.05 && b.cfg.filterAlpha == 1.0
    && b.cfg.maxPositionXY == 0.1 && b.cfg.maxPositionZ == 0.04 && b.cfg.minFingertip == 0.005 && b.cfg.maxOrientation == 0.2
    && b.CorrectionLimit() == 0.4 && b.ClosureSlew() == 0.05 && b.LastStart() == 2
    && b.home == Even(0.0) && b.ReferenceGrasp() == Even(0.0) && b.ReferenceApproach() == Even(0.0)
    && b.lower == Even(-1.0) && b.upper == Even(1.0)
    && |b.hands| == 6 && b.hands[0] == b.hands[1] == b.hands[2] == FIST && b.hands[3] == CURLED
  }

  ghost predicate SafeAt(b: Bundle, x: real) {
    && b.geometry.orientation(Even(x), Even(0.0)) == Some(0.0) && b.geometry.palm(Even(x)) == 1.0
    && b.geometry.fingertip(Even(x), FIST) == 0.05
  }

  ghost predicate TouchesUnlessRaised(b: Bundle) {
    && SafeAt(b, 0.0) && SafeAt(b, 0.05)
    && b.geometry.fingertip(Even(0.0), CURLED) == -0.01 && b.geometry.fingertip(Even(0.05), CURLED) == 0.05
    && b.geometry.raisePalm(Even(0.0), 0.016) == Moved(0.05)
  }

  /** The bundle is one the decoder accepts, and the observations are coherent. */
  lemma ExampleIsAccepted(solver: Ik.Problem)
    ensures Example().Valid() && Example().Decoded() && Coherent(Example(), Seen(solver))
  {
    hide Even;
    hide Moved;
  }

  lemma ExampleShape()
    ensures Shaped(Example()) && TouchesUnlessRaised(Example())
  {
    hide Moved;
    EvenHead(0.0);
    EvenHead(0.05);
    hide Even;
  }

  lemma EvenHead(x: real)
    ensures Even(x)[0] == x
  {
  }

  // ---- The vectors --------------------------------------------------------------------

  lemma EvenMoves(x: real)
    requires 0.0 <= x <= 0.05
    ensures SlewEach(Even(0.0), Even(x), 0.1) == Even(x) && SlewEach(Even(0.0), Even(x), 0.05) == Even(x)
    ensures Plus(Even(0.0), Even(x)) == Even(x) && Minus(Even(x), Even(0.0)) == Even(x)
    ensures Along(Even(0.0), Even(x), 1.0) == Even(x)
    ensures Within(Even(x), Even(0.0), 0.1) && InBox(Even(x), Even(-1.0), Even(1.0))
  {
    var step := Along(Even(0.0), Even(x), 1.0);
    forall i | 0 <= i < DOF ensures step[i] == x {
      assert Times(1.0, Minus(Even(x), Even(0.0)))[i] == x;
    }
  }

  lemma EvenWithin(x: real, limit: real)
    requires 0.0 <= x <= limit
    ensures Within(Even(x), Even(0.0), limit)
  {
  }

  lemma MovedSolves(x: real)
    requires x == 0.0 || x == 0.05
    ensures Ik.Solve(Moved(x), Even(-1.0), Even(1.0), Even(0.0), Ik.REFINED_PASSES) == Ik.Solved(Even(x))
  {
    hide Ik.SolveFrom;
    assert Ik.SeedAccepted(Even(0.0), Even(-1.0), Even(1.0));
    SolvedFromZero(x);
  }

  lemma SolvedFromZero(x: real)
    requires x == 0.0 || x == 0.05
    ensures Ik.SolveFrom(Moved(x), Even(-1.0), Even(1.0), Even(0.0), Ik.REFINED_PASSES) == Ik.Solved(Even(x))
  {
    hide MaxAbs;
    if x == 0.05 {
      assert Ik.Capped(Even(x)) == Even(x);
      assert Ik.Advance(Even(0.0), Even(x), Even(-1.0), Even(1.0)) == Even(x);
    }
  }

  // ---- One visual tick and its commit -------------------------------------------------

  /** A tracked draft that the first check accepts, followed by its commit. */
  lemma TickThenCommit(b: Bundle, calls: seq<Call>, c: Committed, sequence: int, obs: Observation, d: Draft)
    requires b.Valid() && Run(b, calls).s == State(c, None) && Indexed(b, c)
    requires SequenceInTemplate(b, sequence) && obs.wellFormed && DraftFor(b, c, sequence - 1, obs) == Drafted(d)
    requires InTemplate(b, d.template) && !d.captureOnSuccess
    requires Validate(b, d.check, c.target, d.nominal, d.target, HandAt(b, d.template)).Safe?
    ensures Stage(b, c, sequence, d).Planned?
    ensures Run(b, calls + [NormalTick(sequence, obs), Commit(sequence)]).s == State(CommitOf(b, c, Stage(b, c, sequence, d).p), None)
  {
    hide Run;
    hide NormalPlan;
    hide DraftFor;
    hide Validate;
    hide StateOk;
    hide CommitOf;
    SafeDraftIsStaged(b, c, sequence, obs, d);
    Appended(b, calls, NormalTick(sequence, obs));
    var ticked := calls + [NormalTick(sequence, obs)];
    Appended(b, ticked, Commit(sequence));
    assert ticked + [Commit(sequence)] == calls + [NormalTick(sequence, obs), Commit(sequence)];
  }

  lemma Appended(b: Bundle, calls: seq<Call>, call: Call)
    requires b.Valid()
    ensures Run(b, calls + [call]).s == StateAfter(b, Run(b, calls).s, call)
  {
    assert (calls + [call])[..|calls + [call]| - 1] == calls;
    hide Apply;
    hide StateOk;
  }

  lemma SafeDraftIsStaged(b: Bundle, c: Committed, sequence: int, obs: Observation, d: Draft)
    requires b.Valid() && Indexed(b, c) && DraftFor(b, c, sequence - 1, obs) == Drafted(d) && InTemplate(b, d.template)
    requires !d.captureOnSuccess && Validate(b, d.check, c.target, d.nominal, d.target, HandAt(b, d.template)).Safe?
    ensures Stage(b, c, sequence, d).Planned? && NormalPlan(b, c, sequence, obs) == Stage(b, c, sequence, d)
    ensures Stage(b, c, sequence, d).p.sequence == sequence && Stage(b, c, sequence, d).p.target == d.target
  {
    hide DraftFor;
    hide Validate;
    hide Rungs;
    hide FirstBackoff;
  }

  /** An arm at rest at zero that tracks a goal of `x`. */
  ghost predicate AtZero(c: Committed) {
    c.nominal == Even(0.0) && c.correction == Even(0.0) && c.target == Even(0.0) && c.goal == Even(0.0)
  }

  lemma FirstScaleReaches(b: Bundle, c: Committed, solver: real -> Ik.Problem, scales: seq<real>, q: Joints)
    requires b.Valid() && scales != []
    requires Ik.Solve(solver(scales[0]), b.lower, b.upper, c.goal, Ik.REFINED_PASSES) == Ik.Solved(q)
    requires Within(q, b.ReferenceGrasp(), b.CorrectionLimit() + ROUNDOFF)
    ensures FirstReachable(b, c, solver, scales) == Reached(q)
  {
    hide Ik.Solve;
    hide Within;
  }

  lemma TracksGoal(b: Bundle, c: Committed, x: real)
    requires x == 0.0 || x == 0.05
    requires Shaped(b) && AtZero(c) && (c.height == None || c.height == Some(0.0))
    ensures LockedHeight(b, c, 0.0) == 0.0
    ensures RawGoal(b, c, Seen(Moved(x)), 0.0) == Reached(Even(x))
    ensures FilteredGoal(b, c, Even(x)) == Even(x)
  {
    hide Ik.Solve;
    hide Within;
    hide SlewEach;
    hide Along;
    hide Even;
    hide Moved;
    hide FirstReachable;
    EvenMoves(x);
    MovedSolves(x);
    EvenWithin(x, 0.4 + ROUNDOFF);
    FirstScaleReaches(b, c, Seen(Moved(x)).interceptSolver, CandidateScales(b, 0.0), Even(x));
  }

  lemma DraftsTarget(b: Bundle, c: Committed, x: real)
    requires x == 0.0 || x == 0.05
    requires Shaped(b) && AtZero(c)
    ensures SlewEach(c.nominal, b.ReferenceApproach(), 0.1) == Even(0.0)
    ensures ApproachTarget(b, c, Even(0.0), Even(x)) == Even(x)
    ensures ClosureTarget(b, c, Even(x)) == Even(x)
  {
    hide SlewEach;
    hide Plus;
    hide Minus;
    hide Even;
    EvenMoves(0.0);
    EvenMoves(x);
  }

  /** The envelopes accept all but an unraised target with the curled hand. */
  lemma EnvelopesAt(b: Bundle, x: real, hand: Hand)
    requires x == 0.0 || x == 0.05
    requires Shaped(b) && TouchesUnlessRaised(b) && (hand == FIST || hand == CURLED)
    ensures SafeTarget(b, Even(0.0), Even(0.0), Even(x), hand) == if hand == CURLED && x == 0.0 then ClearanceConflict(-0.01) else Safe
  {
    hide Even;
    hide Within;
    hide InBox;
    hide Moved;
    EvenMoves(x);
    EvenWithin(x, 0.1 + ROUNDOFF);
  }

  lemma AcceptsTarget(b: Bundle, check: Check, x: real, hand: Hand)
    requires x == 0.0 || x == 0.05
    requires Shaped(b) && TouchesUnlessRaised(b)
    requires check == PlainCheck || check == ClosureCheck(MeasuredTips(Seen(Still()).measuredTips)) || check == ClosureCheck(OpenHand)
    requires hand == FIST || (hand == CURLED && x == 0.05)
    ensures Validate(b, check, Even(0.0), Even(0.0), Even(x), hand).Safe?
  {
    hide Even;
    hide SafeTarget;
    hide TouchesUnlessRaised;
    EnvelopesAt(b, x, hand);
    EnvelopesAt(b, x, FIST);
  }

  // ---- The run ------------------------------------------------------------------------

  /** Committed after one open-hand sample, then after a current-volume capture. */
  function Opened(): Committed {
    Committed(0, 0, Approach, 0, -1, -1, Even(0.0), Even(0.0), Even(0.0), Even(0.0), None, None, Some(0.0),
              true, false, false, false, 1, false, false, Some(NEAR.(geometrySafe := true)), 0, None)
  }

  function Captured(): Committed {
    Committed(1, 2, Closure, 1, 0, -1, Even(0.0), Even(0.0), Even(0.0), Even(0.0), None, None, Some(0.0),
              true, true, true, false, 2, false, false, Some(NEAR.(preshapeReady := true, geometrySafe := true)), 0, None)
  }

  lemma FirstDraft(b: Bundle) returns (d: Draft)
    requires Shaped(b)
    ensures Indexed(b, Initial(b)) && DraftFor(b, Initial(b), 0, Seen(Moved(0.0))) == Drafted(d)
    ensures d.template == 0 && !d.captureOnSuccess && d.check == PlainCheck && d.target == d.nominal == Even(0.0)
    ensures Stage(b, Initial(b), 1, d).Planned? && CommitOf(b, Initial(b), Stage(b, Initial(b), 1, d).p) == Opened()
  {
    hide RawGoal;
    hide FilteredGoal;
    hide SlewEach;
    hide ApproachTarget;
    hide ClosureTarget;
    hide Moved;
    hide Minus;
    assert Zero() == Even(0.0);
    hide Even;
    EvenMoves(0.0);
    TracksGoal(b, Initial(b), 0.0);
    DraftsTarget(b, Initial(b), 0.0);
    d := DraftFor(b, Initial(b), 0, Seen(Moved(0.0))).d;
  }

  lemma SecondDraft(b: Bundle) returns (d: Draft)
    requires Shaped(b)
    ensures Indexed(b, Opened()) && DraftFor(b, Opened(), 1, Seen(Moved(0.0))) == Drafted(d)
    ensures d.template == 2 && !d.captureOnSuccess && d.check == ClosureCheck(MeasuredTips(Seen(Still()).measuredTips))
    ensures d.target == d.nominal == Even(0.0)
    ensures Stage(b, Opened(), 2, d).Planned? && CommitOf(b, Opened(), Stage(b, Opened(), 2, d).p) == Captured()
  {
    hide RawGoal;
    hide FilteredGoal;
    hide SlewEach;
    hide ApproachTarget;
    hide ClosureTarget;
    hide Moved;
    hide Minus;
    hide Even;
    EvenMoves(0.0);
    TracksGoal(b, Opened(), 0.0);
    DraftsTarget(b, Opened(), 0.0);
    d := DraftFor(b, Opened(), 1, Seen(Moved(0.0))).d;
  }

  lemma ThirdDraft(b: Bundle) returns (d: Draft)
    requires Shaped(b)
    ensures Indexed(b, Captured()) && DraftFor(b, Captured(), 2, Seen(Moved(0.05))) == Drafted(d)
    ensures d.template == 3 && !d.captureOnSuccess && d.check == ClosureCheck(MeasuredTips(Seen(Still()).measuredTips))
    ensures d.nominal == Even(0.0) && d.target == Even(0.05)
  {
    hide RawGoal;
    hide FilteredGoal;
    hide SlewEach;
    hide ApproachTarget;
    hide ClosureTarget;
    hide Moved;
    hide Even;
    TracksGoal(b, Captured(), 0.05);
    DraftsTarget(b, Captured(), 0.05);
    d := DraftFor(b, Captured(), 2, Seen(Moved(0.05))).d;
  }

  /** Two visual ticks, each committed. */
  function Prefix(): seq<Call> {
    [NormalTick(1, Seen(Moved(0.0))), Commit(1)] + [NormalTick(2, Seen(Moved(0.0))), Commit(2)]
  }

  lemma PrefixCaptures(b: Bundle)
    requires Shaped(b) && TouchesUnlessRaised(b)
    ensures Run(b, Prefix()).s == State(Captured(), None)
  {
    hide Even;
    hide Moved;
    hide Run;
    hide DraftFor;
    hide Validate;
    hide Stage;
    hide CommitOf;
    hide TouchesUnlessRaised;
    InitialRun(b);
    var seen := Seen(Moved(0.0));
    var first := [NormalTick(1, seen), Commit(1)];
    var d := FirstDraft(b);
    AcceptsTarget(b, d.check, 0.0, FIST);
    TickThenCommit(b, [], Initial(b), 1, seen, d);
    assert [] + first == first;
    var e := SecondDraft(b);
    AcceptsTarget(b, e.check, 0.0, FIST);
    TickThenCommit(b, first, Opened(), 2, seen, e);
  }

  lemma InitialRun(b: Bundle)
    requires b.Valid()
    ensures Run(b, []).s == State(Initial(b), None)
  {
  }

  /** After that run a visual tick publishes an arm target moved by 0.05 rad in every joint, although
      the capture it follows was a current-volume one. */
  lemma VisualTickMovesHeldArm()
    ensures Example().Valid() && Example().Decoded() && forall solver :: Coherent(Example(), Seen(solver))
    ensures var s := Run(Example(), Prefix()).s; var reply := ReplyTo(Example(), s, NormalTick(3, Seen(Moved(0.05))));
      && s.pending.None? && s.c.phase == Closure && s.c.currentVolume && s.c.target == Even(0.0)
      && reply.Published? && reply.output.target == Even(0.05) != s.c.target
  {
    ExampleShape();
    forall solver ensures Example().Decoded() && Coherent(Example(), Seen(solver)) {
      ExampleIsAccepted(solver);
    }
    ExampleIsAccepted(Still());
    hide Example;
    hide Coherent;
    PrefixCaptures(Example());
    NextTickMoves(Example());
    assert Even(0.05)[0] != Even(0.0)[0];
    hide Run;
    hide ReplyTo;
  }

  lemma NextTickMoves(b: Bundle)
    requires Shaped(b) && TouchesUnlessRaised(b) && Run(b, Prefix()).s == State(Captured(), None)
    ensures var reply := ReplyTo(b, Run(b, Prefix()).s, NormalTick(3, Seen(Moved(0.05))));
      reply.Published? && reply.output.target == Even(0.05)
  {
    hide Even;
    hide Moved;
    hide Run;
    hide DraftFor;
    hide Validate;
    hide StateOk;
    hide NormalPlan;
    hide TouchesUnlessRaised;
    var d := ThirdDraft(b);
    AcceptsTarget(b, d.check, 0.05, CURLED);
    SafeDraftIsStaged(b, Captured(), 3, Seen(Moved(0.05)), d);
    hide Stage;
  }

  lemma OccludedRaises(b: Bundle)
    requires Shaped(b) && TouchesUnlessRaised(b)
    ensures Indexed(b, Captured())
    ensures var plan := OccludedPlan(b, Captured(), 3, true);
      plan.Planned? && plan.raised && plan.p.target == Even(0.05) && plan.p.template == 3 && plan.p.sequence == 3
  {
    hide Within;
    hide InBox;
    hide Ik.Solve;
    hide Minus;
    hide Moved;
    hide OccludedVerdict;
    hide RaisedTarget;
    var c := Captured();
    HeldVerdict(b);
    MovedSolves(0.05);
    RaiseMoves(b);
    AcceptsTarget(b, ClosureCheck(OpenHand), 0.05, CURLED);
    RaisedVerdict(b);
    hide Even;
    hide Validate;
    hide TouchesUnlessRaised;
  }

  lemma HeldVerdict(b: Bundle)
    requires Shaped(b) && TouchesUnlessRaised(b)
    ensures OccludedVerdict(b, Captured(), Even(0.0), Even(0.0)) == ClearanceConflict(-0.01)
  {
    hide Even;
    hide SafeTarget;
    hide TouchesUnlessRaised;
    EnvelopesAt(b, 0.0, CURLED);
  }

  lemma RaiseMoves(b: Bundle)
    requires Shaped(b) && TouchesUnlessRaised(b)
    ensures RaisedTarget(b, Even(0.0), -0.01) == Ik.Solved(Even(0.05)) && LiftBounded(b, -0.01)
  {
    hide Ik.Solve;
    hide Even;
    hide Moved;
    MovedSolves(0.05);
  }

  lemma RaisedVerdict(b: Bundle)
    requires Shaped(b) && TouchesUnlessRaised(b)
    ensures OccludedVerdict(b, Captured(), Even(0.0), Even(0.05)).Safe?
  {
    hide Even;
    hide SafeClosureTarget;
    hide Moved;
    hide TouchesUnlessRaised;
    AcceptsTarget(b, ClosureCheck(OpenHand), 0.05, CURLED);
  }

  /** After that run an occluded tick is published as a clearance lift, and asking for the same
      sequence again publishes the same command without that flag. */
  lemma RaisedFlagIsLost()
    ensures Example().Valid() && Example().Decoded() && forall solver :: Coherent(Example(), Seen(solver))
    ensures var s := Run(Example(), Prefix()).s; var tick, again := OccludedTick(3, true), NormalTick(3, Seen(Moved(0.0)));
      var first := ReplyTo(Example(), s, tick); var second := ReplyTo(Example(), StateAfter(Example(), s, tick), again);
      && first.Published? && first.output.raised
      && second.Published? && !second.output.raised && second.output == first.output.(raised := false)
  {
    ExampleShape();
    forall solver ensures Example().Decoded() && Coherent(Example(), Seen(solver)) {
      ExampleIsAccepted(solver);
    }
    ExampleIsAccepted(Still());
    hide Example;
    hide Coherent;
    PrefixCaptures(Example());
    RepeatLosesFlag(Example());
    hide Run;
    hide ReplyTo;
    hide StateAfter;
  }

  lemma RepeatLosesFlag(b: Bundle)
    requires Shaped(b) && TouchesUnlessRaised(b) && Run(b, Prefix()).s == State(Captured(), None)
    ensures var s := Run(b, Prefix()).s; var tick, again := OccludedTick(3, true), NormalTick(3, Seen(Moved(0.0)));
      var first := ReplyTo(b, s, tick); var second := ReplyTo(b, StateAfter(b, s, tick), again);
      && first.Published? && first.output.raised
      && second.Published? && !second.output.raised && second.output == first.output.(raised := false)
  {
    hide Even;
    hide Moved;
    hide Run;
    hide StateOk;
    hide OccludedPlan;
    hide NormalPlan;
    hide TouchesUnlessRaised;
    OccludedRaises(b);
  }
}
