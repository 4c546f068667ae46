/** Whole runs of the planner: any interleaving of ticks, commits, discards and feedback. */
module TabletopRuns {
  import opened Wrappers
  import opened JointMath
  import opened TabletopModel
  import opened TabletopSafety
  import opened TabletopTicks
  import opened TabletopInvariant
  import MinimumJerk

  /** A state together with what was committed so far and how often contact took over. */
  datatype Session = Session(s: State, log: seq<Committed>, contacts: nat)

  function Start(b: Bundle): Session
    requires b.Valid()
  {
    Session(State(Initial(b), None), [], 0)
  }

  ghost function Next(b: Bundle, z: Session, call: Call): Session
    requires b.Valid() && StateOk(b, z.s)
  {
    StateIsIndexed(b, z.s);
    var r := Apply(b, z.s, call);
    Session(r.s,
            if call.Commit? && r.reply.Done? then z.log + [r.s.c] else z.log,
            z.contacts + (if !z.s.c.forceContact && r.s.c.forceContact then 1 else 0))
  }

  ghost function StateAfter(b: Bundle, s: State, call: Call): (s': State)
    requires b.Valid() && StateOk(b, s)
    ensures StateOk(b, s')
  {
    StateIsIndexed(b, s);
    ApplyKeepsState(b, s, call);
    Apply(b, s, call).s
  }

  ghost function ReplyTo(b: Bundle, s: State, call: Call): Reply
    requires b.Valid() && StateOk(b, s)
  {
    StateIsIndexed(b, s);
    Apply(b, s, call).reply
  }

  ghost function Run(b: Bundle, calls: seq<Call>): (z: Session)
    requires b.Valid()
    ensures StateOk(b, z.s)
  {
    if calls == [] then InitialOk(b); Start(b)
    else
      var before := Run(b, calls[..|calls| - 1]);
      StateIsIndexed(b, before.s);
      ApplyKeepsState(b, before.s, calls[|calls| - 1]);
      Next(b, before, calls[|calls| - 1])
  }

  // ---- What the log of commits satisfies ----------------------------------------------

  /** The arm target a commit started from. */
  function TargetBefore(b: Bundle, log: seq<Committed>, i: nat): Joints
    requires i <= |log|
  {
    if i == 0 then b.home else log[i - 1].target
  }

  ghost predicate EntryOk(b: Bundle, log: seq<Committed>, i: nat)
    requires b.Valid() && i < |log|
  {
    && CommittedOk(b, log[i])
    && InTemplate(b, log[i].template)
    && Follows(b, if i == 0 then -1 else log[i - 1].template, log[i].template)
    && Enveloped(b, TargetBefore(b, log, i), log[i].nominal, log[i].target, HandAt(b, log[i].template))
    && (i > 0 ==> !(log[i - 1].orientationHold && log[i].orientationHold))
    && (i > 0 ==> log[i].height == log[0].height)
    && (log[i].template < b.cfg.catchIndex ==> log[i].index < b.LastStart())
    && 0 <= log[i].index < b.cfg.steps
  }

  /** The state in hand continues the last log entry; only contact may have been added to it. */
  ghost predicate Continues(b: Bundle, z: Session)
    requires b.Valid()
  {
    && (z.log == [] ==> z.s.c.template == -1 && z.s.c.target == b.home)
    && (z.log != [] ==>
          var last := z.log[|z.log| - 1];
          && z.s.c.template == last.template && z.s.c.target == last.target && z.s.c.nominal == last.nominal
          && z.s.c.orientationHold == last.orientationHold && z.s.c.index == last.index
          && z.s.c.height == z.log[0].height && z.s.c.complete == last.complete)
    && z.contacts == (if z.s.c.forceContact then 1 else 0)
    && (z.s.pending.Some? ==> 0 <= z.s.pending.value.index < b.cfg.steps)
  }

  ghost predicate HistoryOk(b: Bundle, z: Session)
    requires b.Valid()
  {
    StateOk(b, z.s) && Continues(b, z) && forall i :: 0 <= i < |z.log| ==> EntryOk(b, z.log, i)
  }

  /** The entry a commit appends. */
  lemma NewEntryOk(b: Bundle, z: Session)
    requires b.Valid() && HistoryOk(b, z) && z.s.pending.Some?
    ensures EntryOk(b, z.log + [CommitOf(b, z.s.c, z.s.pending.value)], |z.log|)
  {
    hide CommittedOk;
    hide Enveloped;
    hide Follows;
    var n := |z.log|;
    TemplateStartsAbsent(b, z);
    if n > 0 {
      assert EntryOk(b, z.log, n - 1) && EntryOk(b, z.log, 0);
    }
  }

  lemma OldEntriesOk(b: Bundle, z: Session, entry: Committed)
    requires b.Valid() && HistoryOk(b, z)
    ensures forall i :: 0 <= i < |z.log| ==> EntryOk(b, z.log + [entry], i)
  {
    hide CommittedOk;
    hide Enveloped;
    hide Follows;
    forall i | 0 <= i < |z.log| ensures EntryOk(b, z.log + [entry], i) {
      assert EntryOk(b, z.log, i);
    }
  }

  lemma CommitContinues(b: Bundle, z: Session)
    requires b.Valid() && HistoryOk(b, z) && z.s.pending.Some?
    ensures var entry := CommitOf(b, z.s.c, z.s.pending.value);
      Continues(b, Session(State(entry, None), z.log + [entry], z.contacts))
      && entry.forceContact == z.s.c.forceContact
  {
    TemplateStartsAbsent(b, z);
    assert ProposalOk(b, z.s.c, z.s.pending.value);
    hide CommittedOk;
    hide EntryOk;
    hide Enveloped;
    hide Follows;
  }

  lemma CommitExtendsHistory(b: Bundle, z: Session, sequence: int)
    requires b.Valid() && HistoryOk(b, z)
    ensures HistoryOk(b, Next(b, z, Commit(sequence)))
  {
    hide StateOk;
    hide EntryOk;
    StateIsIndexed(b, z.s);
    ApplyKeepsState(b, z.s, Commit(sequence));
    if AfterCommit(b, z.s, sequence).reply.Done? {
      NewEntryOk(b, z);
      OldEntriesOk(b, z, CommitOf(b, z.s.c, z.s.pending.value));
      CommitContinues(b, z);
    }
    hide Continues;
  }

  lemma TemplateStartsAbsent(b: Bundle, z: Session)
    requires b.Valid() && HistoryOk(b, z)
    ensures z.log != [] ==> z.s.c.template >= 0 && z.s.c.height.Some?
  {
    if z.log != [] {
      assert EntryOk(b, z.log, |z.log| - 1);
    }
    hide CommandEnveloped;
    hide GoalReserved;
    hide Enveloped;
  }

  lemma TickKeepsHistory(b: Bundle, z: Session, call: Call)
    requires b.Valid() && HistoryOk(b, z) && !call.Commit?
    ensures HistoryOk(b, Next(b, z, call))
  {
    hide StateOk;
    hide EntryOk;
    hide Apply;
    StateIsIndexed(b, z.s);
    ApplyKeepsState(b, z.s, call);
    TickOnlyStages(b, z.s, call);
  }

  /** Apart from commits, a call changes at most the pending slot, the remembered feedback sample,
      and, on contact, the phase with its capture evidence. */
  ghost predicate SameCommand(before: Committed, after: Committed) {
    && after.template == before.template && after.target == before.target && after.nominal == before.nominal
    && after.orientationHold == before.orientationHold && after.index == before.index
    && after.height == before.height && after.complete == before.complete
    && after.evidence == before.evidence
    && (before.forceContact ==> after.forceContact)
    && (!after.forceContact ==> after.phase == before.phase)
  }

  ghost predicate OnlyStages(b: Bundle, s: State, after: State) {
    && SameCommand(s.c, after.c)
    && (after.pending.Some? ==> after.pending == s.pending || 0 <= after.pending.value.index < b.cfg.steps)
  }

  lemma NormalOnlyStages(b: Bundle, s: State, sequence: int, obs: Observation)
    requires b.Valid() && Indexed(b, s.c) && (s.pending.Some? ==> ProposalIndexed(b, s.pending.value))
    ensures OnlyStages(b, s, AfterNormal(b, s, sequence, obs).s)
  {
    PlansCarryTheirSequence(b, s.c, sequence, obs);
    NormalPlanIndexed(b, s.c, sequence, obs);
    hide NormalPlan;
  }

  lemma BlindOnlyStages(b: Bundle, s: State, sequence: int, reasonAllowed: bool)
    requires b.Valid() && Indexed(b, s.c)
    ensures OnlyStages(b, s, AfterOccluded(b, s, sequence, reasonAllowed).s)
    ensures OnlyStages(b, s, AfterFrozen(b, s, sequence, reasonAllowed).s)
  {
    OccludedPlanIndexed(b, s.c, sequence, reasonAllowed);
    FrozenPlanIndexed(b, s.c, sequence, reasonAllowed);
    BlindPlansCarryTheirSequence(b, s.c, sequence, reasonAllowed);
    hide OccludedPlan;
    hide FrozenPlan;
  }

  lemma ContactKeepsCommand(c: Committed, lift: Joints)
    ensures SameCommand(c, ContactState(c, lift))
  {
  }

  lemma MemoryKeepsCommand(c: Committed, f: Feedback)
    requires UsableFeedback(f)
    ensures SameCommand(c, Remembered(c, f))
  {
  }

  lemma FeedbackOnlyStages(b: Bundle, s: State, sequence: int, f: Feedback)
    ensures OnlyStages(b, s, AfterHandFeedback(b, s, sequence, f).s)
  {
    hide ContactFires;
    hide GraspLift;
    hide Remembered;
    hide ContactState;
    if UsableFeedback(f) {
      MemoryKeepsCommand(s.c, f);
      var lift := GraspLift(b, s.c.target);
      if lift.Solved? {
        ContactKeepsCommand(Remembered(s.c, f), lift.q);
      }
    }
    hide UsableFeedback;
  }

  lemma TickOnlyStages(b: Bundle, s: State, call: Call)
    requires b.Valid() && !call.Commit?
    requires Indexed(b, s.c) && (s.pending.Some? ==> ProposalIndexed(b, s.pending.value))
    ensures OnlyStages(b, s, Apply(b, s, call).s)
  {
    hide AfterNormal;
    hide AfterOccluded;
    hide AfterFrozen;
    hide AfterHandFeedback;
    match call
    case NormalTick(sequence, obs) => NormalOnlyStages(b, s, sequence, obs);
    case OccludedTick(sequence, reasonAllowed) => BlindOnlyStages(b, s, sequence, reasonAllowed);
    case FrozenTick(sequence, reasonAllowed) => BlindOnlyStages(b, s, sequence, reasonAllowed);
    case Discard(sequence) =>
    case HandFeedback(sequence, f) => FeedbackOnlyStages(b, s, sequence, f);
  }

  lemma PlansCarryTheirSequence(b: Bundle, c: Committed, sequence: int, obs: Observation)
    requires b.Valid() && Indexed(b, c)
    ensures var plan := NormalPlan(b, c, sequence, obs);
      plan.Planned? ==> plan.p.sequence == sequence && plan.p.index == sequence - 1
  {
  }

  /** What a blind tick carries over into its proposal. */
  ghost predicate CarriesOver(c: Committed, sequence: int, plan: Plan) {
    plan.Planned? ==>
      && plan.p.sequence == sequence && plan.p.index == sequence - 1
      && plan.p.fullOccluded == c.fullOccluded && plan.p.currentVolume == c.currentVolume
      && plan.p.phase != Approach
  }

  lemma StagedOccludedCarriesOver(b: Bundle, c: Committed, sequence: int, nominal: Joints, target: Joints, raised: bool)
    requires b.Valid()
    ensures CarriesOver(c, sequence, StageOccluded(b, c, sequence, nominal, target, raised))
  {
    hide GraspLift;
  }

  lemma OccludedCarriesOver(b: Bundle, c: Committed, sequence: int, reasonAllowed: bool)
    requires b.Valid() && Indexed(b, c)
    ensures CarriesOver(c, sequence, OccludedPlan(b, c, sequence, reasonAllowed))
  {
    hide CarriesOver;
    hide StageOccluded;
    hide OccludedVerdict;
    hide OccludedTarget;
    hide OccludedNominal;
    hide RaisedTarget;
    if OccludedAdmissible(b, c, reasonAllowed) && ClosureConsistent(b, c) {
      var nominal, target := OccludedNominal(b, c), OccludedTarget(b, c);
      var v := OccludedVerdict(b, c, nominal, target);
      StagedOccludedCarriesOver(b, c, sequence, nominal, target, false);
      if v.ClearanceConflict? && RaisedTarget(b, c.target, v.clearance).Solved? {
        StagedOccludedCarriesOver(b, c, sequence, c.nominal, RaisedTarget(b, c.target, v.clearance).q, true);
      }
    }
    RefusedCarriesNothing(c, sequence, OccludedPlan(b, c, sequence, reasonAllowed));
  }

  lemma RefusedCarriesNothing(c: Committed, sequence: int, plan: Plan)
    ensures !plan.Planned? ==> CarriesOver(c, sequence, plan)
  {
  }

  lemma FrozenCarriesOver(b: Bundle, c: Committed, sequence: int, reasonAllowed: bool)
    requires b.Valid() && Indexed(b, c)
    ensures CarriesOver(c, sequence, FrozenPlan(b, c, sequence, reasonAllowed))
  {
    hide SafeTarget;
    hide Along;
    hide MinimumJerk.Blend;
  }

  lemma BlindPlansCarryTheirSequence(b: Bundle, c: Committed, sequence: int, reasonAllowed: bool)
    requires b.Valid() && Indexed(b, c)
    ensures CarriesOver(c, sequence, OccludedPlan(b, c, sequence, reasonAllowed))
    ensures CarriesOver(c, sequence, FrozenPlan(b, c, sequence, reasonAllowed))
  {
    hide CarriesOver;
    hide OccludedPlan;
    hide FrozenPlan;
    OccludedCarriesOver(b, c, sequence, reasonAllowed);
    FrozenCarriesOver(b, c, sequence, reasonAllowed);
  }

  /** Every run, however ticks, commits, discards, failures and feedback interleave, keeps the
      phase and index invariant, envelopes every commit against the one before, never spends two
      orientation holds in a row, locks the table height, and lets contact take over at most once. */
  lemma {:induction false} EveryRunKeepsHistory(b: Bundle, calls: seq<Call>)
    requires b.Valid()
    ensures HistoryOk(b, Run(b, calls))
  {
    if calls == [] {
      InitialOk(b);
    } else {
      var before := Run(b, calls[..|calls| - 1]);
      var call := calls[|calls| - 1];
      EveryRunKeepsHistory(b, calls[..|calls| - 1]);
      hide HistoryOk;
      if call.Commit? {
        CommitExtendsHistory(b, before, call.sequence);
      } else {
        TickKeepsHistory(b, before, call);
      }
    }
  }

  /** On every run a committed lift or hold, whether its capture was seen, occluded or felt, has a lift
      target that meets the palm lift from its capture. */
  lemma EveryLiftLifts(b: Bundle, calls: seq<Call>, i: nat)
    requires b.Valid() && i < |Run(b, calls).log|
    ensures var c := Run(b, calls).log[i];
      c.phase == Lift || c.phase == Hold ==>
        c.capture.Some? && c.lift.Some? && b.geometry.graspLift(c.capture.value).probe(c.lift.value).Converged?
  {
    hide Run;
    EveryRunKeepsHistory(b, calls);
    assert EntryOk(b, Run(b, calls).log, i);
    hide StateOk;
    hide Continues;
    hide PhaseIndices;
    hide Enveloped;
    hide Follows;
  }
}
