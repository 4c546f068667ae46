/** Main results about whole planner runs. */
module TabletopTheorems {
  import opened JointMath
  import opened TabletopModel
  import opened TabletopSafety
  import opened TabletopTicks
  import opened TabletopInvariant
  import opened TabletopRuns

  // ---- Hand template order ------------------------------------------------------------

  function Templates(log: seq<Committed>): seq<int> {
    seq(|log|, i requires 0 <= i < |log| => log[i].template)
  }

  /** The template committed `k` commits after the first closing sample. */
  function AfterCapture(b: Bundle, k: nat): int {
    if k <= b.cfg.liftEnd - b.cfg.catchIndex then b.cfg.catchIndex + k else b.cfg.steps - 1
  }

  /** `first` splits the committed templates: open-hand indices that never decrease before it, and
      from it on every index from the catch index to the lift end, once each and in order, followed
      only by the final hold sample. */
  ghost predicate SplitAt(b: Bundle, t: seq<int>, first: nat) {
    && first <= |t|
    && (forall i :: 0 <= i < first ==> 0 <= t[i] < b.cfg.catchIndex)
    && (forall i, j :: 0 <= i <= j < first ==> t[i] <= t[j])
    && (forall i :: first <= i < |t| ==> t[i] == AfterCapture(b, i - first))
  }

  predicate FollowsAt(b: Bundle, t: seq<int>, i: nat)
    requires i < |t|
  {
    0 <= t[i] < b.cfg.steps && Follows(b, if i == 0 then -1 else t[i - 1], t[i])
  }

  lemma {:induction false} FollowedTemplatesSplit(b: Bundle, t: seq<int>) returns (first: nat)
    requires b.Valid() && forall i :: 0 <= i < |t| ==> FollowsAt(b, t, i)
    ensures SplitAt(b, t, first)
  {
    if t == [] {
      first := 0;
    } else {
      var n := |t| - 1;
      forall i | 0 <= i < n ensures FollowsAt(b, t[..n], i) {
        assert FollowsAt(b, t, i);
      }
      first := FollowedTemplatesSplit(b, t[..n]);
      assert FollowsAt(b, t, n);
      if first == n && t[n] < b.cfg.catchIndex {
        GrowOpen(b, t, n);
        first := n + 1;
      } else {
        GrowClosed(b, t, first);
      }
    }
  }

  lemma GrowOpen(b: Bundle, t: seq<int>, n: nat)
    requires b.Valid() && |t| == n + 1 && SplitAt(b, t[..n], n) && FollowsAt(b, t, n) && t[n] < b.cfg.catchIndex
    ensures SplitAt(b, t, n + 1)
  {
  }

  lemma GrowClosed(b: Bundle, t: seq<int>, first: nat)
    requires b.Valid() && t != [] && SplitAt(b, t[..|t| - 1], first) && FollowsAt(b, t, |t| - 1)
    requires first < |t| - 1 || t[|t| - 1] >= b.cfg.catchIndex
    ensures SplitAt(b, t, first)
  {
  }

  /** What the log entries say once envelopes and evidence are set aside. */
  ghost predicate EntryBasics(b: Bundle, log: seq<Committed>, i: nat)
    requires b.Valid() && i < |log|
  {
    && FollowsAt(b, Templates(log), i)
    && (log[i].template < b.cfg.catchIndex ==> log[i].index < b.LastStart())
    && 0 <= log[i].index < b.cfg.steps
    && (log[i].complete <==> log[i].template == b.cfg.steps - 1)
  }

  lemma RunBasics(b: Bundle, calls: seq<Call>)
    requires b.Valid()
    ensures var z := Run(b, calls);
      && (forall i :: 0 <= i < |z.log| ==> EntryBasics(b, z.log, i))
      && (z.log != [] ==> z.s.c.complete == z.log[|z.log| - 1].complete)
  {
    hide Run;
    hide EntryOk;
    hide EntryBasics;
    hide StateOk;
    EveryRunKeepsHistory(b, calls);
    var z := Run(b, calls);
    forall i | 0 <= i < |z.log| ensures EntryBasics(b, z.log, i) {
      EntryHasBasics(b, z.log, i);
    }
  }

  lemma EntryHasBasics(b: Bundle, log: seq<Committed>, i: nat)
    requires b.Valid() && i < |log| && EntryOk(b, log, i)
    ensures EntryBasics(b, log, i)
  {
  }

  /** For every mixture of visual, occluded and frozen ticks, with discards and contact anywhere:
      the committed hand samples close and lift through the whole template exactly once, in order. */
  lemma TemplateOrder(b: Bundle, calls: seq<Call>) returns (first: nat)
    requires b.Valid()
    ensures SplitAt(b, Templates(Run(b, calls).log), first)
  {
    RunBasics(b, calls);
    hide Run;
    hide FollowsAt;
    var log := Run(b, calls).log;
    forall i | 0 <= i < |Templates(log)| ensures FollowsAt(b, Templates(log), i) {
      assert EntryBasics(b, log, i);
    }
    first := FollowedTemplatesSplit(b, Templates(log));
  }

  // ---- Deadline and completion --------------------------------------------------------

  /** Commits numbered 1, 2, 3, ... */
  ghost predicate Consecutive(log: seq<Committed>) {
    forall i :: 0 <= i < |log| ==> log[i].index == i
  }

  lemma DeadlineArithmetic(b: Bundle, t: seq<int>, first: nat)
    requires b.Valid() && SplitAt(b, t, first) && |t| <= b.cfg.steps
    requires forall i :: 0 <= i < |t| && t[i] < b.cfg.catchIndex ==> i < b.LastStart()
    ensures first <= b.LastStart()
    ensures first + (b.cfg.liftEnd - b.cfg.catchIndex) <= b.cfg.steps - 1
    ensures forall i :: 0 <= i < |t| && t[i] == b.cfg.steps - 1 ==> first + (b.cfg.liftEnd - b.cfg.catchIndex) <= i
    ensures |t| == b.cfg.steps ==>
      first < |t| && (t[|t| - 1] == b.cfg.steps - 1 <==> first < b.LastStart() || b.cfg.liftEnd == b.cfg.steps - 1)
  {
    if first > 0 {
      assert t[first - 1] < b.cfg.catchIndex;
    }
  }

  /** When sequences are committed consecutively, the first closing sample is committed no later
      than the last start, the lift ends inside the template, completion is never reported before the
      lift has ended, and after all N commits it is reported exactly when the hand started closing
      before the deadline or the lift ends on the template's last sample. */
  lemma DeadlineAndCompletion(b: Bundle, calls: seq<Call>) returns (first: nat)
    requires b.Valid() && Consecutive(Run(b, calls).log)
    ensures var z := Run(b, calls); var n := |z.log|;
      && SplitAt(b, Templates(z.log), first)
      && first <= b.LastStart()
      && first + (b.cfg.liftEnd - b.cfg.catchIndex) <= b.cfg.steps - 1
      && n <= b.cfg.steps
      && (forall i :: 0 <= i < n && z.log[i].complete ==> first + (b.cfg.liftEnd - b.cfg.catchIndex) <= i)
      && (n == b.cfg.steps ==>
            first < n && (z.s.c.complete <==> first < b.LastStart() || b.cfg.liftEnd == b.cfg.steps - 1))
  {
    first := TemplateOrder(b, calls);
    RunBasics(b, calls);
    hide Run;
    hide Follows;
    var z := Run(b, calls);
    var t := Templates(z.log);
    forall i | 0 <= i < |t|
      ensures t[i] < b.cfg.catchIndex ==> i < b.LastStart()
      ensures z.log[i].complete <==> t[i] == b.cfg.steps - 1
      ensures i < b.cfg.steps
    {
      assert EntryBasics(b, z.log, i);
    }
    assert t != [] ==> |t| - 1 < b.cfg.steps;
    DeadlineArithmetic(b, t, first);
    hide SplitAt;
    hide EntryBasics;
  }

  /** A committed state past the approach whose remaining closing and lifting samples all fit the
      sequence numbers that are left. */
  ghost predicate OnTime(b: Bundle, c: Committed) {
    c.template <= b.cfg.liftEnd && 0 <= c.sequence && c.sequence + (b.cfg.liftEnd - c.template) <= b.cfg.steps
  }

  /** With consecutive commits every closure or lift, contact's included, is on time. */
  lemma RunsAreOnTime(b: Bundle, calls: seq<Call>)
    requires b.Valid() && Consecutive(Run(b, calls).log)
    requires var c := Run(b, calls).s.c; c.phase == Closure || c.phase == Lift
    ensures OnTime(b, Run(b, calls).s.c)
  {
    hide Run;
    hide HistoryOk;
    hide CommittedOk;
    var z := Run(b, calls);
    var first := DeadlineAndCompletion(b, calls);
    EveryRunKeepsHistory(b, calls);
    RunBasics(b, calls);
    PhaseHasTemplate(b, z.s.c) by { HistoryGivesCommitted(b, z); }
    CommittedSequence(b, z);
    assert EntryBasics(b, z.log, |z.log| - 1);
    LastIsOnTime(b, Templates(z.log), first, z.s.c);
    hide Templates;
  }

  lemma HistoryGivesCommitted(b: Bundle, z: Session)
    requires b.Valid() && HistoryOk(b, z)
    ensures CommittedOk(b, z.s.c)
  {
  }

  lemma LastIsOnTime(b: Bundle, t: seq<int>, first: nat, c: Committed)
    requires b.Valid() && SplitAt(b, t, first) && t != [] && first <= b.LastStart()
    requires c.template == t[|t| - 1] && c.sequence == |t| && b.cfg.catchIndex - 1 <= c.template < b.cfg.liftEnd
    requires c.template < b.cfg.catchIndex ==> |t| - 1 < b.LastStart()
    ensures OnTime(b, c)
  {
    var last := |t| - 1;
    assert first <= last ==> t[last] == AfterCapture(b, last - first);
  }

  lemma PhaseHasTemplate(b: Bundle, c: Committed)
    requires b.Valid() && CommittedOk(b, c) && (c.phase == Closure || c.phase == Lift)
    ensures b.cfg.catchIndex - 1 <= c.template < b.cfg.liftEnd
  {
    hide CommandEnveloped;
    hide GoalReserved;
    hide LiftInMargin;
    hide PhaseEvidence;
  }

  /** The committed sequence and template are those of the last log entry. */
  lemma CommittedSequence(b: Bundle, z: Session)
    requires b.Valid() && HistoryOk(b, z) && z.s.c.template >= 0
    ensures z.log != [] && z.s.c.template == z.log[|z.log| - 1].template && z.s.c.sequence == z.log[|z.log| - 1].index + 1
  {
    hide PhaseIndices;
    hide PhaseEvidence;
    hide LiftInMargin;
    hide CommandEnveloped;
    hide GoalReserved;
    hide EntryOk;
    hide ProposalOk;
  }
}
