/** The calibrated-open fallback for a missing hand, and the stable reacquisition that ends it. */
module NoHandOpen {
  import opened Wrappers
  import opened Scalars

  const AXES := 6

  datatype Policy = Disable | Open

  /** `selected` holds the selected axis numbers. */
  datatype Settings = Settings(
    policy: Policy,
    selected: set<nat>,
    fallbackDelay: real,
    requireDepth: bool,
    maxFrameGap: real,
    maxTargetDelta: int,
    framesToArm: nat
  ) {
    predicate Valid() { fallbackDelay > 0.0 && 1 <= framesToArm <= 60 }
  }

  /** One camera frame as the control loop sees it; `accepted` is what the stream would answer if this
      frame's hand targets were submitted. */
  datatype Frame = Frame(
    capturedAt: real,
    detected: bool,
    depthInRange: bool,
    targets: Option<seq<int>>,
    everActive: bool,
    accepted: bool
  ) {
    predicate Trusted() { detected && depthInRange }
    /** The loop computes six masked targets for every detection. */
    predicate WellFormed() { detected ==> targets.Some? && |targets.value| == AXES }
  }

  datatype Choice = Mano | FallbackOpen | Nothing

  datatype Reply = Chose(choice: Choice) | MissingTargets | WrongTargetCount

  datatype Control = Control(
    fallbackActive: bool,
    lastValid: Option<real>,
    count: nat,
    lastCapture: Option<real>,
    lastTargets: Option<seq<int>>,
    releasePending: bool
  )

  const START := Control(false, None, 0, None, None, false)

  // ---- One frame ----------------------------------------------------------------------

  function Reset(c: Control): Control {
    c.(count := 0, lastCapture := None, lastTargets := None, releasePending := false)
  }

  predicate GapOk(cfg: Settings, before: Option<real>, after: real) {
    before.None? || 0.0 <= after - before.value <= cfg.maxFrameGap
  }

  predicate DeltaOk(cfg: Settings, before: Option<seq<int>>, after: seq<int>) {
    before.None? ||
    forall i :: 0 <= i < AXES && i < |before.value| && i < |after| && i in cfg.selected ==>
      Distance(before.value[i], after[i]) <= cfg.maxTargetDelta
  }

  function Choose(cfg: Settings, c: Control, f: Frame): (Control, Reply) {
    if cfg.policy.Disable? then
      (c, Chose(if f.detected && (f.depthInRange || !cfg.requireDepth) then Mano else Nothing))
    else if !f.Trusted() then
      var reset := Reset(c);
      if reset.fallbackActive then (reset, Chose(FallbackOpen))
      else if f.everActive && c.lastValid.Some? && f.capturedAt - c.lastValid.value >= cfg.fallbackDelay then
        (reset.(fallbackActive := true), Chose(FallbackOpen))
      else (reset, Chose(Nothing))
    else if f.targets.None? then (c, MissingTargets)
    else if |f.targets.value| != AXES then (c, WrongTargetCount)
    else
      var seen := c.(lastValid := Some(f.capturedAt));
      if !c.fallbackActive then (seen, Chose(Mano)) else
      var linked := GapOk(cfg, c.lastCapture, f.capturedAt) && DeltaOk(cfg, c.lastTargets, f.targets.value);
      var counted := seen.(count := if linked then c.count + 1 else 1,
                           lastCapture := Some(f.capturedAt), lastTargets := f.targets);
      if counted.count >= cfg.framesToArm then (counted.(releasePending := true), Chose(Mano))
      else (counted, Chose(FallbackOpen))
  }

  function Note(c: Control, accepted: bool): Control {
    if !c.releasePending then c
    else if accepted then Reset(c.(fallbackActive := false))
    else Reset(c)
  }

  /** What the control loop does with one frame: the stream's answer is noted whenever hand targets
      were chosen. */
  function Protocol(cfg: Settings, c: Control, f: Frame): Control {
    var (next, reply) := Choose(cfg, c, f);
    if reply == Chose(Mano) then Note(next, f.accepted) else next
  }

  function After(cfg: Settings, frames: seq<Frame>): Control {
    if |frames| == 0 then START else Protocol(cfg, After(cfg, frames[..|frames| - 1]), frames[|frames| - 1])
  }

  /** The control state before frame `n`, and the choice made on it. */
  function At(cfg: Settings, frames: seq<Frame>, n: nat): Control
    requires n <= |frames|
  {
    After(cfg, frames[..n])
  }

  function ChoiceAt(cfg: Settings, frames: seq<Frame>, n: nat): Reply
    requires n < |frames|
  {
    Choose(cfg, At(cfg, frames, n), frames[n]).1
  }

  lemma AtSteps(cfg: Settings, frames: seq<Frame>, n: nat)
    requires n < |frames|
    ensures At(cfg, frames, n + 1) == Protocol(cfg, At(cfg, frames, n), frames[n])
  {
    assert frames[..n + 1][..n] == frames[..n];
  }

  // ---- Entering the fallback ----------------------------------------------------------

  /** Frame `j` is the last one before `n` with a trusted hand. */
  predicate LastTrusted(frames: seq<Frame>, j: nat, n: nat)
    requires n <= |frames|
  {
    j < n && frames[j].Trusted() && forall i :: j < i < n ==> !frames[i].Trusted()
  }

  ghost predicate AllWellFormed(frames: seq<Frame>) {
    forall i :: 0 <= i < |frames| ==> frames[i].WellFormed()
  }

  /** The remembered capture time is that of the last trusted frame, if there was one. */
  ghost predicate RemembersLast(c: Control, frames: seq<Frame>, n: nat)
    requires n <= |frames|
  {
    if c.lastValid.None? then forall i :: 0 <= i < n ==> !frames[i].Trusted()
    else exists j: nat :: LastTrusted(frames, j, n) && c.lastValid.value == frames[j].capturedAt
  }

  lemma {:induction false} LastValidIsLast(cfg: Settings, frames: seq<Frame>, n: nat)
    requires cfg.policy.Open? && AllWellFormed(frames) && n <= |frames|
    ensures RemembersLast(At(cfg, frames, n), frames, n)
  {
    if n > 0 {
      LastValidIsLast(cfg, frames, n - 1);
      AtSteps(cfg, frames, n - 1);
      hide At;
      if frames[n - 1].Trusted() {
        assert LastTrusted(frames, n - 1, n);
      } else if At(cfg, frames, n - 1).lastValid.Some? {
        var j: nat :| LastTrusted(frames, j, n - 1) && At(cfg, frames, n - 1).lastValid.value == frames[j].capturedAt;
        assert LastTrusted(frames, j, n);
      }
    }
  }

  /** The fallback is entered on frame `n` exactly when that frame has no trusted hand, the stream has
      been active, and the last trusted frame is at least the full delay old. */
  lemma EntersIff(cfg: Settings, frames: seq<Frame>, n: nat)
    requires cfg.policy.Open? && AllWellFormed(frames) && n < |frames| && !At(cfg, frames, n).fallbackActive
    ensures At(cfg, frames, n + 1).fallbackActive <==>
      && !frames[n].Trusted() && frames[n].everActive
      && exists j: nat :: LastTrusted(frames, j, n) && frames[n].capturedAt - frames[j].capturedAt >= cfg.fallbackDelay
  {
    LastValidIsLast(cfg, frames, n);
    AtSteps(cfg, frames, n);
    hide At;
    forall j: nat, k: nat | LastTrusted(frames, j, n) && LastTrusted(frames, k, n) ensures j == k {
      assert !(j < k) && !(k < j);
    }
  }

  /** The entry condition of frame `n`, read from the recording. */
  ghost predicate GoneTooLong(cfg: Settings, frames: seq<Frame>, n: nat)
    requires n < |frames|
  {
    && !frames[n].Trusted() && frames[n].everActive
    && exists j: nat :: LastTrusted(frames, j, n) && frames[n].capturedAt - frames[j].capturedAt >= cfg.fallbackDelay
  }

  /** Outside the fallback a trusted hand is always followed, the fallback is answered exactly on the
      frame that enters it, and every other frame is answered with nothing. */
  lemma ChoiceOutsideFallback(cfg: Settings, frames: seq<Frame>, n: nat)
    requires cfg.policy.Open? && AllWellFormed(frames) && n < |frames| && !At(cfg, frames, n).fallbackActive
    ensures ChoiceAt(cfg, frames, n) ==
      Chose(if frames[n].detected && frames[n].depthInRange then Mano else if GoneTooLong(cfg, frames, n) then FallbackOpen else Nothing)
    ensures At(cfg, frames, n + 1).fallbackActive <==> GoneTooLong(cfg, frames, n)
  {
    EntersIff(cfg, frames, n);
    AtSteps(cfg, frames, n);
    hide At;
  }

  /** Inside it an untrusted frame keeps the hand open, and a trusted one opens or follows. */
  lemma ChoiceInsideFallback(cfg: Settings, frames: seq<Frame>, n: nat)
    requires cfg.policy.Open? && AllWellFormed(frames) && n < |frames| && At(cfg, frames, n).fallbackActive
    ensures ChoiceAt(cfg, frames, n) == Chose(FallbackOpen) || (frames[n].Trusted() && ChoiceAt(cfg, frames, n) == Chose(Mano))
  {
    hide At;
  }

  /** A frame without six targets is refused exactly when they are needed, and then nothing changes. */
  lemma RefusedIff(cfg: Settings, c: Control, f: Frame)
    ensures var (next, reply) := Choose(cfg, c, f); var needed := cfg.policy.Open? && f.Trusted();
      && (reply == MissingTargets <==> needed && f.targets.None?)
      && (reply == WrongTargetCount <==> needed && f.targets.Some? && |f.targets.value| != AXES)
      && (!reply.Chose? ==> next == c)
  {
  }

  /** With the policy disabled the state never changes, the fallback is never chosen, and the hand is
      followed exactly when it is detected at a depth in range or no depth is asked for. */
  lemma {:induction false} DisabledNeverFallsBack(cfg: Settings, frames: seq<Frame>, n: nat)
    requires cfg.policy.Disable? && n <= |frames|
    ensures At(cfg, frames, n) == START
    ensures n < |frames| ==>
      var f := frames[n];
      ChoiceAt(cfg, frames, n) == Chose(if f.detected && (f.depthInRange || !cfg.requireDepth) then Mano else Nothing)
  {
    if n > 0 {
      DisabledNeverFallsBack(cfg, frames, n - 1);
      AtSteps(cfg, frames, n - 1);
    }
  }

  // ---- Leaving it ---------------------------------------------------------------------

  /** Two frames close enough in time and in every selected target. */
  predicate Linked(cfg: Settings, before: Frame, after: Frame)
    requires before.targets.Some? && after.targets.Some?
  {
    && 0.0 <= after.capturedAt - before.capturedAt <= cfg.maxFrameGap
    && forall i :: 0 <= i < AXES && i < |before.targets.value| && i < |after.targets.value| && i in cfg.selected ==>
         -cfg.maxTargetDelta <= after.targets.value[i] - before.targets.value[i] <= cfg.maxTargetDelta
  }

  /** Frames `from` up to `to` all show a trusted hand, each linked to the one before. */
  ghost predicate Stable(cfg: Settings, frames: seq<Frame>, from: nat, to: nat)
    requires from <= to <= |frames| && AllWellFormed(frames)
  {
    && (forall i :: from <= i < to ==> frames[i].Trusted())
    && (forall i :: from < i < to ==> Linked(cfg, frames[i - 1], frames[i]))
  }

  /** Frames `from` up to `to` were all answered with the calibrated-open targets. */
  ghost predicate KeptOpen(cfg: Settings, frames: seq<Frame>, from: nat, to: nat)
    requires from <= to <= |frames|
  {
    forall i :: from <= i < to ==> ChoiceAt(cfg, frames, i) == Chose(FallbackOpen)
  }

  ghost predicate StableOpen(cfg: Settings, frames: seq<Frame>, from: nat, to: nat)
    requires from <= to <= |frames| && AllWellFormed(frames)
  {
    Stable(cfg, frames, from, to) && KeptOpen(cfg, frames, from, to)
  }

  /** The counter is the length of the longest stable run of frames, all kept open, that ends before
      frame `n`. */
  ghost predicate CountsStableRun(cfg: Settings, frames: seq<Frame>, n: nat)
    requires n <= |frames| && AllWellFormed(frames)
  {
    var c := At(cfg, frames, n);
    && c.count <= n && !c.releasePending && (!c.fallbackActive ==> c.count == 0)
    && (c.count > 0 ==> c.count < cfg.framesToArm)
    && StableOpen(cfg, frames, n - c.count, n)
    && c.lastCapture == (if c.count == 0 then None else Some(frames[n - 1].capturedAt))
    && c.lastTargets == (if c.count == 0 then None else frames[n - 1].targets)
    && (forall from :: 0 <= from < n - c.count ==> !StableOpen(cfg, frames, from, n))
  }

  lemma {:induction false} CountIsStableRun(cfg: Settings, frames: seq<Frame>, n: nat)
    requires cfg.policy.Open? && AllWellFormed(frames) && n <= |frames|
    ensures CountsStableRun(cfg, frames, n)
  {
    if n > 0 {
      CountIsStableRun(cfg, frames, n - 1);
      CountSteps(cfg, frames, n - 1);
    }
  }

  lemma CountSteps(cfg: Settings, frames: seq<Frame>, n: nat)
    requires cfg.policy.Open? && AllWellFormed(frames) && n < |frames| && CountsStableRun(cfg, frames, n)
    ensures CountsStableRun(cfg, frames, n + 1)
  {
    var c, c' := At(cfg, frames, n), At(cfg, frames, n + 1);
    AtSteps(cfg, frames, n);
    hide At;
    var m := n + 1;
    forall from | 0 <= from < m - c'.count
      ensures !StableOpen(cfg, frames, from, m)
    {
      if StableOpen(cfg, frames, from, m) { ShorterStableOpen(cfg, frames, from, m); }
    }
    hide AllWellFormed;
  }

  lemma ShorterStableOpen(cfg: Settings, frames: seq<Frame>, from: nat, to: nat)
    requires AllWellFormed(frames) && from < to <= |frames| && StableOpen(cfg, frames, from, to)
    ensures StableOpen(cfg, frames, from, to - 1)
    ensures frames[to - 1].Trusted() && ChoiceAt(cfg, frames, to - 1) == Chose(FallbackOpen)
    ensures from < to - 1 ==> Linked(cfg, frames[to - 2], frames[to - 1])
  {
  }

  /** While the fallback is active, a trusted frame is answered with the hand's own targets exactly
      when it completes a stable run of the required length of which every earlier frame was still
      kept open. */
  lemma ReleasesIff(cfg: Settings, frames: seq<Frame>, n: nat)
    requires cfg.policy.Open? && AllWellFormed(frames) && n < |frames|
    requires At(cfg, frames, n).fallbackActive && frames[n].Trusted() && cfg.Valid()
    ensures ChoiceAt(cfg, frames, n) == Chose(Mano) <==>
      && cfg.framesToArm <= n + 1
      && Stable(cfg, frames, n + 1 - cfg.framesToArm, n + 1)
      && KeptOpen(cfg, frames, n + 1 - cfg.framesToArm, n)
  {
    CountIsStableRun(cfg, frames, n);
    var c, k := At(cfg, frames, n), cfg.framesToArm;
    hide At;
    if k <= n + 1 && Stable(cfg, frames, n + 1 - k, n + 1) && KeptOpen(cfg, frames, n + 1 - k, n) {
      assert StableOpen(cfg, frames, n + 1 - k, n);
      assert k > 1 ==> Linked(cfg, frames[n - 1], frames[n]);
    }
  }

  /** The fallback is left exactly on a frame so released that the stream accepts; a release the
      stream rejects leaves it active with the count back at zero. */
  lemma LeavesIff(cfg: Settings, frames: seq<Frame>, n: nat)
    requires cfg.policy.Open? && AllWellFormed(frames) && n < |frames| && At(cfg, frames, n).fallbackActive
    ensures !At(cfg, frames, n + 1).fallbackActive <==> ChoiceAt(cfg, frames, n) == Chose(Mano) && frames[n].accepted
    ensures ChoiceAt(cfg, frames, n) == Chose(Mano) || !frames[n].Trusted() ==> At(cfg, frames, n + 1).count == 0
  {
    AtSteps(cfg, frames, n);
    CountIsStableRun(cfg, frames, n);
    hide At;
  }

  // ---- The controller -----------------------------------------------------------------

  class NoHandOpenController {
    const cfg: Settings
    var fallbackActive: bool
    var lastValid: Option<real>
    var count: nat
    var lastCapture: Option<real>
    var lastTargets: Option<seq<int>>
    var releasePending: bool

    function State(): Control
      reads this
    {
      Control(fallbackActive, lastValid, count, lastCapture, lastTargets, releasePending)
    }

    constructor (cfg: Settings)
      requires cfg.Valid()
      ensures this.cfg == cfg && State() == START
    {
      this.cfg := cfg;
      fallbackActive, lastValid := false, None;
      count, lastCapture, lastTargets, releasePending := 0, None, None, false;
    }

    method ResetReacquisition()
      modifies this
      ensures State() == Reset(old(State()))
    {
      count := 0;
      lastCapture, lastTargets := None, None;
      releasePending := false;
    }

    method NoteManoSubmitResult(accepted: bool)
      modifies this
      ensures State() == Note(old(State()), accepted)
    {
      if !releasePending {
        return;
      }
      if accepted {
        fallbackActive := false;
        ResetReacquisition();
      } else {
        ResetReacquisition();
      }
    }

    /** Scans the selected axes for one that moved too far. */
    method WithinDelta(targets: seq<int>) returns (ok: bool)
      requires |targets| == AXES && (lastTargets.Some? ==> |lastTargets.value| == AXES)
      ensures ok == DeltaOk(cfg, lastTargets, targets)
    {
      if lastTargets.None? {
        return true;
      }
      var i := 0;
      while i < AXES
        invariant 0 <= i <= AXES
        invariant forall j :: 0 <= j < i && j in cfg.selected ==> Distance(lastTargets.value[j], targets[j]) <= cfg.maxTargetDelta
      {
        if i in cfg.selected && Distance(lastTargets.value[i], targets[i]) > cfg.maxTargetDelta {
          return false;
        }
        i := i + 1;
      }
      return true;
    }

    method ChooseSource(f: Frame) returns (reply: Reply)
      requires lastTargets.Some? ==> |lastTargets.value| == AXES
      modifies this
      ensures (State(), reply) == Choose(cfg, old(State()), f)
      ensures lastTargets.Some? ==> |lastTargets.value| == AXES
    {
      if cfg.policy.Disable? {
        var usable := f.detected && (f.depthInRange || !cfg.requireDepth);
        return Chose(if usable then Mano else Nothing);
      }
      if !(f.detected && f.depthInRange) {
        ResetReacquisition();
        if fallbackActive {
          return Chose(FallbackOpen);
        }
        if f.everActive && lastValid.Some? && f.capturedAt - lastValid.value >= cfg.fallbackDelay {
          fallbackActive := true;
          return Chose(FallbackOpen);
        }
        return Chose(Nothing);
      }
      if f.targets.None? {
        return MissingTargets;
      }
      if |f.targets.value| != AXES {
        return WrongTargetCount;
      }
      lastValid := Some(f.capturedAt);
      if !fallbackActive {
        return Chose(Mano);
      }
      var withinGap := GapOk(cfg, lastCapture, f.capturedAt);
      var withinDelta := WithinDelta(f.targets.value);
      count := if withinGap && withinDelta then count + 1 else 1;
      lastCapture := Some(f.capturedAt);
      lastTargets := f.targets;
      if count >= cfg.framesToArm {
        releasePending := true;
        return Chose(Mano);
      }
      return Chose(FallbackOpen);
    }

    /** The control loop's calls over a whole recording. */
    method RunProtocol(frames: seq<Frame>) returns (replies: seq<Reply>)
      requires State() == START && AllWellFormed(frames)
      modifies this
      ensures State() == After(cfg, frames)
      ensures |replies| == |frames| && forall i :: 0 <= i < |frames| ==> replies[i] == ChoiceAt(cfg, frames, i)
    {
      replies := [];
      var n := 0;
      while n < |frames|
        invariant n <= |frames| == |frames| && |replies| == n
        invariant State() == At(cfg, frames, n) && (lastTargets.Some? ==> |lastTargets.value| == AXES)
        invariant forall i :: 0 <= i < n ==> replies[i] == ChoiceAt(cfg, frames, i)
      {
        AtSteps(cfg, frames, n);
        var reply := ChooseSource(frames[n]);
        replies := replies + [reply];
        if reply == Chose(Mano) {
          NoteManoSubmitResult(frames[n].accepted);
        }
        n := n + 1;
      }
      assert frames[..n] == frames;
    }
  }
}
