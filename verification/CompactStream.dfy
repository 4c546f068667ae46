/** The line-buffered console filter: only complete key lines reach the terminal, however the text is
    cut into writes. */
module CompactStream {
  const BREAK := '\n'

  /** Which lines are shown, and what is written for one: the line, or the line in its color. */
  datatype Filter = Filter(isKey: string -> bool, paint: string -> string)

  // ---- Lines of a text ----------------------------------------------------------------

  predicate NoBreak(text: string) { forall k :: 0 <= k < |text| ==> text[k] != BREAK }

  function FirstBreak(text: string): (i: nat)
    ensures i <= |text| && (forall k :: 0 <= k < i ==> text[k] != BREAK) && (i < |text| ==> text[i] == BREAK)
  {
    if text == [] || text[0] == BREAK then 0 else FirstBreak(text[1..]) + 1
  }

  /** The complete lines of a text, each with its line break, and what follows the last break. */
  datatype Split = Split(lines: seq<string>, pending: string)

  function SplitLines(text: string): Split
    decreases |text|
  {
    var i := FirstBreak(text);
    if i == |text| then Split([], text) else
    var rest := SplitLines(text[i + 1..]);
    Split([text[..i + 1]] + rest.lines, rest.pending)
  }

  function Joined(parts: seq<string>): string {
    if |parts| == 0 then "" else parts[0] + Joined(parts[1..])
  }

  predicate CompleteLine(line: string) {
    |line| > 0 && line[|line| - 1] == BREAK && NoBreak(line[..|line| - 1])
  }

  ghost predicate IsSplit(text: string, s: Split) {
    && (forall k :: 0 <= k < |s.lines| ==> CompleteLine(s.lines[k]))
    && NoBreak(s.pending) && text == Joined(s.lines) + s.pending
  }

  lemma {:induction false} SplitLinesSplits(text: string)
    ensures IsSplit(text, SplitLines(text))
    decreases |text|
  {
    var i := FirstBreak(text);
    if i < |text| {
      SplitLinesSplits(text[i + 1..]);
      PrependLine(text, i, SplitLines(text[i + 1..]));
    } else {
      assert text == "" + text;
    }
    hide FirstBreak;
  }

  lemma PrependLine(text: string, i: nat, rest: Split)
    requires i < |text| && text[i] == BREAK && NoBreak(text[..i]) && IsSplit(text[i + 1..], rest)
    ensures IsSplit(text, Split([text[..i + 1]] + rest.lines, rest.pending))
  {
    var line, lines := text[..i + 1], [text[..i + 1]] + rest.lines;
    assert line[..i] == text[..i];
    assert lines[1..] == rest.lines;
    assert Joined(lines) == line + Joined(rest.lines);
    assert text == line + (Joined(rest.lines) + rest.pending);
    assert line + (Joined(rest.lines) + rest.pending) == line + Joined(rest.lines) + rest.pending;
    hide Joined;
    hide NoBreak;
  }

  lemma BreakIsFirst(line: string, rest: string)
    requires CompleteLine(line)
    ensures FirstBreak(line + rest) == |line| - 1
  {
    var text, n := line + rest, |line| - 1;
    assert text[n] == BREAK;
    forall k | 0 <= k < n ensures text[k] != BREAK {
      assert text[k] == line[..n][k];
    }
  }

  /** There is only one way to cut a text into complete lines and a rest without a break. */
  lemma {:induction false} SplitIsUnique(text: string, s: Split)
    requires IsSplit(text, s)
    ensures s == SplitLines(text)
    decreases |s.lines|
  {
    if |s.lines| == 0 {
      assert text == s.pending;
    } else {
      var line, rest := s.lines[0], Joined(s.lines[1..]) + s.pending;
      assert text == line + rest;
      BreakIsFirst(line, rest);
      assert text[..|line|] == line && text[|line|..] == rest;
      SplitIsUnique(rest, Split(s.lines[1..], s.pending));
      assert s.lines == [line] + s.lines[1..];
    }
  }

  lemma Regrouped(p: string, q: string, r: string)
    ensures p + (q + r) == p + q + r
  {
  }

  lemma {:induction false} JoinedConcat(a: seq<string>, b: seq<string>)
    ensures Joined(a + b) == Joined(a) + Joined(b)
  {
    if |a| == 0 {
      assert a + b == b;
    } else {
      JoinedConcat(a[1..], b);
      assert (a + b)[1..] == a[1..] + b && (a + b)[0] == a[0];
      Regrouped(a[0], Joined(a[1..]), Joined(b));
    }
  }

  lemma Regroup(lines: seq<string>, pending: string, b: string, more: seq<string>, rest: string)
    requires pending + b == Joined(more) + rest
    ensures Joined(lines) + pending + b == Joined(lines + more) + rest
  {
    JoinedConcat(lines, more);
    var p, q := Joined(lines), Joined(more);
    assert p + pending + b == p + (pending + b);
    assert p + q + rest == p + (q + rest);
  }

  /** Splitting a text piece by piece, carrying the rest of one piece into the next, splits the whole. */
  lemma SplitConcat(a: string, b: string)
    ensures var first := SplitLines(a); var second := SplitLines(first.pending + b);
      SplitLines(a + b) == Split(first.lines + second.lines, second.pending)
  {
    var first := SplitLines(a);
    var second := SplitLines(first.pending + b);
    SplitLinesSplits(a);
    SplitLinesSplits(first.pending + b);
    hide SplitLines;
    Regroup(first.lines, first.pending, b, second.lines, second.pending);
    hide Joined;
    hide CompleteLine;
    SplitIsUnique(a + b, Split(first.lines + second.lines, second.pending));
  }

  // ---- What is shown ------------------------------------------------------------------

  function Emitted(f: Filter, line: string): string {
    if f.isKey(line) then f.paint(line) else ""
  }

  function Shown(f: Filter, lines: seq<string>): string {
    if |lines| == 0 then "" else Emitted(f, lines[0]) + Shown(f, lines[1..])
  }

  lemma {:induction false} ShownConcat(f: Filter, a: seq<string>, b: seq<string>)
    ensures Shown(f, a + b) == Shown(f, a) + Shown(f, b)
  {
    hide Emitted;
    if |a| == 0 {
      assert a + b == b;
    } else {
      ShownConcat(f, a[1..], b);
      assert (a + b)[1..] == a[1..] + b && (a + b)[0] == a[0];
      Regrouped(Emitted(f, a[0]), Shown(f, a[1..]), Shown(f, b));
    }
  }

  /** All lines of a text, a last line without a break being given one. */
  function AllLines(text: string): seq<string> {
    var s := SplitLines(text);
    s.lines + (if s.pending == "" then [] else [s.pending + [BREAK]])
  }

  /** The key lines among some lines, in order. */
  function KeyLines(f: Filter, lines: seq<string>): seq<string> {
    if |lines| == 0 then [] else (if f.isKey(lines[0]) then [lines[0]] else []) + KeyLines(f, lines[1..])
  }

  function Painted(f: Filter, lines: seq<string>): seq<string> { seq(|lines|, i requires 0 <= i < |lines| => f.paint(lines[i])) }

  /** Only key lines are shown, each painted once, in order. */
  lemma {:induction false} ShownIsKeyLines(f: Filter, lines: seq<string>)
    ensures Shown(f, lines) == Joined(Painted(f, KeyLines(f, lines)))
    ensures forall k :: 0 <= k < |KeyLines(f, lines)| ==> f.isKey(KeyLines(f, lines)[k])
  {
    if |lines| > 0 {
      ShownIsKeyLines(f, lines[1..]);
      var rest := KeyLines(f, lines[1..]);
      if f.isKey(lines[0]) {
        assert Painted(f, [lines[0]] + rest)[1..] == Painted(f, rest);
      } else {
        assert [] + rest == rest && "" + Shown(f, lines[1..]) == Shown(f, lines[1..]);
      }
    }
  }

  // ---- Runs of the stream -------------------------------------------------------------

  datatype Stream = Stream(target: string, buffer: string)

  datatype Call = Write(text: string) | Flush

  /** All complete lines of the buffer filtered out to the target. */
  function Drained(f: Filter, s: Stream): Stream {
    var cut := SplitLines(s.buffer);
    Stream(s.target + Shown(f, cut.lines), cut.pending)
  }

  function Written(f: Filter, s: Stream, text: string): Stream { Drained(f, Stream(s.target, s.buffer + text)) }

  function Closed(f: Filter, s: Stream): Stream {
    if s.buffer == "" then s else Stream(s.target + Emitted(f, s.buffer + [BREAK]), "")
  }

  function After(f: Filter, s: Stream, calls: seq<Call>): Stream {
    if |calls| == 0 then s else
    var before := After(f, s, calls[..|calls| - 1]);
    if calls[|calls| - 1].Write? then Written(f, before, calls[|calls| - 1].text) else before
  }

  /** The text of all writes, in order. */
  function TextOf(calls: seq<Call>): string {
    if |calls| == 0 then "" else
    TextOf(calls[..|calls| - 1]) + (if calls[|calls| - 1].Write? then calls[|calls| - 1].text else "")
  }

  lemma {:induction false} AfterIsSplit(f: Filter, calls: seq<Call>)
    ensures var cut := SplitLines(TextOf(calls));
      After(f, Stream("", ""), calls) == Stream(Shown(f, cut.lines), cut.pending)
  {
    if |calls| > 0 {
      var n := |calls| - 1;
      AfterIsSplit(f, calls[..n]);
      var cut := SplitLines(TextOf(calls[..n]));
      if calls[n].Write? {
        SplitConcat(TextOf(calls[..n]), calls[n].text);
        ShownConcat(f, cut.lines, SplitLines(cut.pending + calls[n].text).lines);
      } else {
        assert TextOf(calls) == TextOf(calls[..n]);
      }
      hide SplitLines;
      hide Shown;
    }
  }

  /** However a text is cut into writes and wherever flushes fall, closing leaves the same output: the
      key lines of the whole text, in order, each once. */
  lemma OutputDependsOnTextOnly(f: Filter, calls: seq<Call>)
    ensures Closed(f, After(f, Stream("", ""), calls)) == Stream(Joined(Painted(f, KeyLines(f, AllLines(TextOf(calls))))), "")
  {
    ShownIsKeyLines(f, AllLines(TextOf(calls)));
    hide Joined;
    hide Painted;
    hide KeyLines;
    AfterIsSplit(f, calls);
    var cut := SplitLines(TextOf(calls));
    ShownConcat(f, cut.lines, [cut.pending + [BREAK]]);
    assert Shown(f, [cut.pending + [BREAK]]) == Emitted(f, cut.pending + [BREAK]) + "";
    assert cut.lines + [] == cut.lines;
    hide SplitLines;
  }

  /** Nothing of an unfinished line is shown before it is finished or the stream is closed. */
  lemma PendingIsWithheld(f: Filter, calls: seq<Call>, tail: string)
    requires NoBreak(tail)
    ensures After(f, Stream("", ""), calls + [Write(tail)]).target == After(f, Stream("", ""), calls).target
  {
    var s := After(f, Stream("", ""), calls);
    assert (calls + [Write(tail)])[..|calls + [Write(tail)]| - 1] == calls;
    AfterIsSplit(f, calls);
    SplitLinesSplits(TextOf(calls));
    hide After;
    SplitIsUnique(s.buffer + tail, Split([], s.buffer + tail));
    hide SplitLines;
  }

  // ---- The stream ---------------------------------------------------------------------

  class CompactStream {
    const filter: Filter
    var target: string
    var buffer: string

    function State(): Stream
      reads this
    {
      Stream(target, buffer)
    }

    constructor (filter: Filter)
      ensures this.filter == filter && State() == Stream("", "")
    {
      this.filter := filter;
      target, buffer := "", "";
    }

    method Emit(line: string)
      modifies this`target
      ensures target == old(target) + Emitted(filter, line)
    {
      if !filter.isKey(line) {
        return;
      }
      target := target + filter.paint(line);
    }

    method Write(text: string) returns (count: nat)
      modifies this
      ensures State() == Written(filter, old(State()), text) && count == |text|
    {
      buffer := buffer + text;
      ghost var goal := Drained(filter, State());
      hide *;
      while BREAK in buffer
        invariant Drained(filter, State()) == goal
        decreases |buffer|
      {
        WritesFirstLine(filter, State());
        var i := FirstBreak(buffer);
        var line := buffer[..i];
        buffer := buffer[i + 1..];
        Emit(line + [BREAK]);
      }
      WritesNothing(filter, State());
      count := |text|;
    }

    method ClosePending()
      modifies this
      ensures State() == Closed(filter, old(State()))
    {
      if buffer != "" {
        Emit(buffer + [BREAK]);
        buffer := "";
      }
    }
  }

  /** Writing out the first complete line of the buffer leaves the rest to be written. */
  lemma WritesFirstLine(f: Filter, s: Stream)
    requires BREAK in s.buffer
    ensures var i := FirstBreak(s.buffer);
      && i < |s.buffer|
      && Drained(f, s) == Drained(f, Stream(s.target + Emitted(f, s.buffer[..i] + [BREAK]), s.buffer[i + 1..]))
  {
    var i := FirstBreak(s.buffer);
    assert s.buffer[..i + 1] == s.buffer[..i] + [BREAK];
    var line, rest := s.buffer[..i] + [BREAK], SplitLines(s.buffer[i + 1..]);
    assert ([line] + rest.lines)[1..] == rest.lines;
    assert Shown(f, [line] + rest.lines) == Emitted(f, line) + Shown(f, rest.lines);
    assert s.target + (Emitted(f, line) + Shown(f, rest.lines)) == s.target + Emitted(f, line) + Shown(f, rest.lines);
  }

  lemma WritesNothing(f: Filter, s: Stream)
    requires BREAK !in s.buffer
    ensures Drained(f, s) == s
  {
  }
}
