/** The longest run of frames without a detection, as the log analyzer finds it in one scan. */
module MissSummary {
  import opened Wrappers

  /** Detected or not, sample time, and frame number. */
  datatype Frame = Frame(detected: bool, time: real, number: int)

  datatype Summary = Summary(
    frames: nat,
    span: real,
    startNumber: Option<int>,
    endNumber: Option<int>,
    leadingCensored: bool,
    trailingCensored: bool
  )

  /** Frames `start` up to, but not with, `end`. */
  datatype Stretch = Stretch(start: nat, end: nat)

  const NO_MISS := Summary(0, 0.0, None, None, false, false)

  predicate Missed(frames: seq<Frame>, start: nat, end: nat) {
    start <= end <= |frames| && forall i :: start <= i < end ==> !frames[i].detected
  }

  /** A non-empty run of missed frames that cannot be extended at either end. */
  predicate Maximal(frames: seq<Frame>, r: Stretch) {
    && r.start < r.end && Missed(frames, r.start, r.end)
    && (r.start > 0 ==> frames[r.start - 1].detected)
    && (r.end < |frames| ==> frames[r.end].detected)
  }

  function Span(frames: seq<Frame>, r: Stretch): real
    requires r.start < r.end <= |frames|
  {
    var span := frames[r.end - 1].time - frames[r.start].time;
    if span > 0.0 then span else 0.0
  }

  function Count(r: Stretch): int { r.end - r.start }

  /** Strictly greater by frame count, then by time span. */
  predicate Outranks(frames: seq<Frame>, p: Stretch, q: Stretch)
    requires p.start < p.end <= |frames| && q.start < q.end <= |frames|
  {
    Count(p) > Count(q) || (Count(p) == Count(q) && Span(frames, p) > Span(frames, q))
  }

  /** The run's own report. */
  function Report(frames: seq<Frame>, r: Stretch): Summary
    requires r.start < r.end <= |frames|
  {
    Summary(r.end - r.start, Span(frames, r), Some(frames[r.start].number), Some(frames[r.end - 1].number),
            r.start == 0, r.end == |frames|)
  }

  /** `best` is the earliest of the highest-ranking maximal runs that end before `limit`. */
  ghost predicate BestBefore(frames: seq<Frame>, limit: nat, best: Option<Stretch>) {
    if best.None? then forall r :: Maximal(frames, r) ==> r.end >= limit
    else
      && Maximal(frames, best.value) && best.value.end < limit
      && forall r :: Maximal(frames, r) && r.end < limit && r != best.value ==> Precedes(frames, best.value, r)
  }

  /** `p` is reported rather than `q`. */
  ghost predicate Precedes(frames: seq<Frame>, p: Stretch, q: Stretch)
    requires p.start < p.end <= |frames| && q.start < q.end <= |frames|
  {
    Outranks(frames, p, q) || (p.start < q.start && !Outranks(frames, q, p))
  }

  lemma NoneEndsHere(frames: seq<Frame>, index: nat, best: Option<Stretch>)
    requires index <= |frames| && BestBefore(frames, index, best)
    requires index == 0 || frames[index - 1].detected || (index < |frames| && !frames[index].detected)
    ensures BestBefore(frames, index + 1, best)
  {
  }

  lemma OneEndsHere(frames: seq<Frame>, index: nat, best: Option<Stretch>, run: Stretch)
    requires index <= |frames| && BestBefore(frames, index, best) && Maximal(frames, run) && run.end == index
    ensures BestBefore(frames, index + 1, if best.None? || Outranks(frames, run, best.value) then Some(run) else best)
  {
  }

  function ReportOf(frames: seq<Frame>, winner: Option<Stretch>): Summary
    requires winner.Some? ==> winner.value.start < winner.value.end <= |frames|
  {
    if winner.None? then NO_MISS else Report(frames, winner.value)
  }

  /** The scan: one pass with the start of the open run and the best run so far. */
  method Summarize(frames: seq<Frame>) returns (summary: Summary)
    ensures exists winner :: BestBefore(frames, |frames| + 1, winner) && summary == ReportOf(frames, winner)
  {
    ghost var winner: Option<Stretch> := None;
    var best: Option<((int, real), Summary)> := None;
    var start: Option<nat> := None;
    var index := 0;
    while index < |frames| + 1
      invariant index <= |frames| + 1
      invariant start.Some? ==> start.value < index <= |frames| && Missed(frames, start.value, index)
      invariant start.Some? && start.value > 0 ==> frames[start.value - 1].detected
      invariant start.None? && 0 < index <= |frames| ==> frames[index - 1].detected
      invariant BestBefore(frames, index, winner)
      invariant best.None? <==> winner.None?
      invariant best.Some? ==> best.value.1 == Report(frames, winner.value) && best.value.0 == (best.value.1.frames, best.value.1.span)
    {
      hide BestBefore;
      var isMiss := index < |frames| && !frames[index].detected;
      if isMiss || start.None? {
        NoneEndsHere(frames, index, winner);
      }
      if isMiss && start.None? {
        start := Some(index);
      }
      if !isMiss && start.Some? {
        ghost var run := Stretch(start.value, index);
        OneEndsHere(frames, index, winner, run);
        var end := index - 1;
        var elapsed := frames[end].time - frames[start.value].time;
        var span := if elapsed > 0.0 then elapsed else 0.0;
        var candidate := Summary(end - start.value + 1, span, Some(frames[start.value].number), Some(frames[end].number),
                                 start.value == 0, end == |frames| - 1);
        var rank := (candidate.frames, candidate.span);
        if best.None? || rank.0 > best.value.0.0 || (rank.0 == best.value.0.0 && rank.1 > best.value.0.1) {
          best := Some((rank, candidate));
          winner := Some(run);
        }
        start := None;
      }
      index := index + 1;
    }
    summary := if best.None? then NO_MISS else best.value.1;
    assert summary == ReportOf(frames, winner);
  }

  /** The report is determined by the frames: there is only one such run. */
  lemma WinnerIsUnique(frames: seq<Frame>, p: Option<Stretch>, q: Option<Stretch>)
    requires BestBefore(frames, |frames| + 1, p) && BestBefore(frames, |frames| + 1, q)
    ensures p == q
  {
  }

  /** What a report tells of its run: the numbers of its first and last frame, that the recording begins
      or ends in it exactly when nothing was detected before or after, and, for times that never go
      back, the longest time between any two of its frames. */
  lemma ReportTells(frames: seq<Frame>, r: Stretch)
    requires Maximal(frames, r)
    ensures var told := Report(frames, r);
      && told.frames > 0 && told.startNumber == Some(frames[r.end - told.frames].number)
      && told.endNumber == Some(frames[r.start + told.frames - 1].number)
      && (told.leadingCensored <==> Missed(frames, 0, r.end)) && (told.trailingCensored <==> Missed(frames, r.start, |frames|))
    ensures (forall i, j :: r.start <= i <= j < r.end ==> frames[i].time <= frames[j].time) ==>
      && (forall i, j :: r.start <= i <= j < r.end ==> frames[j].time - frames[i].time <= Report(frames, r).span)
      && Report(frames, r).span == frames[r.end - 1].time - frames[r.start].time
  {
    var told := Report(frames, r);
    if forall i, j :: r.start <= i <= j < r.end ==> frames[i].time <= frames[j].time {
      forall i, j | r.start <= i <= j < r.end ensures frames[j].time - frames[i].time <= told.span {
        assert frames[r.start].time <= frames[i].time && frames[j].time <= frames[r.end - 1].time;
      }
    }
  }

  /** Every missed frame lies in a maximal run. */
  lemma {:induction false} MissIsInsideMaximal(frames: seq<Frame>, from: nat, to: nat) returns (r: Stretch)
    requires from < to && Missed(frames, from, to)
    ensures Maximal(frames, r) && r.start <= from && to <= r.end
    decreases from + |frames| - to
  {
    if from > 0 && !frames[from - 1].detected {
      r := MissIsInsideMaximal(frames, from - 1, to);
    } else if to < |frames| && !frames[to].detected {
      r := MissIsInsideMaximal(frames, from, to + 1);
    } else {
      r := Stretch(from, to);
    }
  }

  /** No stretch of missed frames, maximal or not, is longer than the one reported, and none is
      reported only when every frame was detected. */
  lemma NoLongerMiss(frames: seq<Frame>, winner: Option<Stretch>, from: nat, to: nat)
    requires BestBefore(frames, |frames| + 1, winner) && from < to && Missed(frames, from, to)
    ensures winner.Some? && to - from <= Count(winner.value)
  {
    var r := MissIsInsideMaximal(frames, from, to);
    assert Maximal(frames, r);
    hide Maximal;
    hide Missed;
  }
}
