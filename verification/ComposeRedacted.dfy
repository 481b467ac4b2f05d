/**
  What the lines of a reader's output are: each a redacted line of the text, cut where it
  is too long, in the order of the text; and which lines are missing.
 */
module ComposeRedacted {
  import opened ComposeFailures
  import opened ComposeLines
  import opened ComposeMemory

  const TRUNCATION := " [truncated]"

  /** `part` is `s`, or its first `limit` characters and the mark if it is longer than that. */
  ghost predicate CutTo(s: string, limit: nat, part: string) {
    if |s| <= limit then part == s else part == s[..limit] + TRUNCATION
  }

  /** `shown` is what redaction makes of the line: both are cut, the line before it is redacted. */
  ghost predicate RedactedAs(redact: string -> string, line: string, shown: string) {
    exists part :: CutTo(line, 3988, part) && CutTo(redact(part), 4000, shown)
  }

  lemma ShownIsRedacted(redact: string -> string, line: string)
    ensures RedactedAs(redact, line, Shown(redact, line))
    ensures forall shown :: RedactedAs(redact, line, shown) ==> shown == Shown(redact, line)
  {
    assert CutTo(line, 3988, Truncated(line));
    assert CutTo(redact(Truncated(line)), 4000, Shown(redact, line));
    forall shown | RedactedAs(redact, line, shown)
      ensures shown == Shown(redact, line)
    {
      var part :| CutTo(line, 3988, part) && CutTo(redact(part), 4000, shown);
      assert part == Truncated(line);
    }
  }

  /** The lines `from` on that redaction leaves something of are `places`, in order, and `kept` is what it leaves. */
  ghost predicate KeepsLines(redact: string -> string, lines: seq<string>, from: nat, places: seq<nat>, kept: seq<string>) {
    && |places| == |kept|
    && (forall j :: 0 <= j < |places| ==> from <= places[j] < |lines|)
    && (forall i, j :: 0 <= i < j < |places| ==> places[i] < places[j])
    && (forall j :: 0 <= j < |places| ==> kept[j] != "" && RedactedAs(redact, lines[places[j]], kept[j]))
    && (forall i :: from <= i < |lines| && i !in places ==> RedactedAs(redact, lines[i], ""))
  }

  lemma {:induction false} RememberedLines(redact: string -> string, lines: seq<string>) returns (places: seq<nat>)
    ensures KeepsLines(redact, lines, 0, places, Remembered(redact, lines))
  {
    if lines == [] {
      places := [];
    } else {
      var last := |lines| - 1;
      var before := RememberedLines(redact, lines[..last]);
      ShownIsRedacted(redact, lines[last]);
      places := if Shown(redact, lines[last]) == "" then before else before + [last];
      OneMoreLine(redact, lines, before, Remembered(redact, lines[..last]), places, Remembered(redact, lines));
    }
  }

  lemma OneMoreLine(redact: string -> string, lines: seq<string>, before: seq<nat>, kept: seq<string>, places: seq<nat>, now: seq<string>)
    requires lines != [] && KeepsLines(redact, lines[..|lines| - 1], 0, before, kept)
    requires var shown := Shown(redact, lines[|lines| - 1]);
             && RedactedAs(redact, lines[|lines| - 1], shown)
             && (if shown == "" then places == before && now == kept else places == before + [|lines| - 1] && now == kept + [shown])
    ensures KeepsLines(redact, lines, 0, places, now)
  {
    var last := |lines| - 1;
    forall i | 0 <= i < |lines| && i !in places
      ensures RedactedAs(redact, lines[i], "")
    {
      if i < last {
        assert i !in before && lines[..last][i] == lines[i];
      } else {
        assert Shown(redact, lines[last]) != "" ==> last in places;
      }
    }
    forall j | 0 <= j < |before|
      ensures before[j] < last && RedactedAs(redact, lines[before[j]], kept[j])
    {
      assert lines[..last][before[j]] == lines[before[j]];
    }
  }

  /**
    The tail holds, in the order of the text, what redaction leaves of its lines: all but
    those it leaves nothing of, or the last 200 if there are more.
  */
  ghost predicate TailOf(redact: string -> string, lines: seq<string>, tail: seq<string>) {
    && |tail| <= 200
    && exists from, places :: KeepsLines(redact, lines, from, places, tail) && (|tail| < 200 ==> from == 0)
  }

  lemma TailIsRedacted(redact: string -> string, lines: seq<string>)
    ensures TailOf(redact, lines, Last(TAIL_LINES, Remembered(redact, lines)))
  {
    var all := Remembered(redact, lines);
    var places := RememberedLines(redact, lines);
    if |all| > 200 {
      var k := |all| - 200;
      LastLines(redact, lines, places, all, k);
      assert Last(TAIL_LINES, all) == all[k..];
    } else {
      assert Last(TAIL_LINES, all) == all;
    }
  }

  lemma LastLines(redact: string -> string, lines: seq<string>, places: seq<nat>, all: seq<string>, k: nat)
    requires KeepsLines(redact, lines, 0, places, all) && k < |all|
    ensures KeepsLines(redact, lines, places[k], places[k..], all[k..])
  {
    var last := places[k..];
    forall i | places[k] <= i < |lines| && i !in last
      ensures RedactedAs(redact, lines[i], "")
    {
      forall j | 0 <= j < |places|
        ensures places[j] != i
      {
        if j >= k {
          assert last[j - k] == places[j];
        }
      }
    }
  }

  /** A line of the output before the tail: a phrase that stands for its failure, or a redacted line. */
  ghost predicate SignalOf(book: Phrasebook, redact: string -> string, lines: seq<string>, line: string) {
    || (exists f: Failure :: f != Transient && line == Canonical(book, f))
    || (exists i :: 0 <= i < |lines| && RedactedAs(redact, lines[i], line))
  }

  lemma SignalsAreRedacted(book: Phrasebook, redact: string -> string, m: Memory)
    requires MemoryOk(book, redact, m)
    ensures forall line :: line in SignalLines(m.signals, m.tail) ==> line !in m.tail && SignalOf(book, redact, m.lines, line)
    ensures |SignalLines(m.signals, m.tail)| <= |m.signals|
  {
    SignalLinesFrom(m.signals, m.tail);
    var places := RememberedLines(redact, m.lines);
    forall line | line in SignalLines(m.signals, m.tail)
      ensures line !in m.tail && SignalOf(book, redact, m.lines, line)
    {
      var i :| 0 <= i < |m.signals| && m.signals[i].line == line;
      assert m.signals[i] in m.signals;
      if line in Remembered(redact, m.lines) {
        var j :| 0 <= j < |places| && Remembered(redact, m.lines)[j] == line;
        assert RedactedAs(redact, m.lines[places[j]], line);
      }
    }
  }

  lemma {:induction false} SignalLinesFrom(signals: seq<Signal>, tail: seq<string>)
    ensures |SignalLines(signals, tail)| <= |signals|
    ensures forall line :: line in SignalLines(signals, tail) ==>
              line !in tail && exists i :: 0 <= i < |signals| && signals[i].line == line
  {
    if signals != [] {
      var last := |signals| - 1;
      SignalLinesFrom(signals[..last], tail);
      forall line | line in SignalLines(signals, tail)
        ensures line !in tail && exists i :: 0 <= i < |signals| && signals[i].line == line
      {
        if line in SignalLines(signals[..last], tail) {
          var i :| 0 <= i < last && signals[..last][i].line == line;
          assert signals[i].line == line;
        }
      }
    }
  }

  /**
    The output of a whole text is the lines of its signals, at most three, none of which
    stands in the tail, and then the tail, with newlines between; and all of them are
    redacted lines of the text, or phrases that stand for a failure.
  */
  ghost predicate OutputOf(book: Phrasebook, redact: string -> string, lines: seq<string>, tail: seq<string>, output: string) {
    exists before :: OutputWith(book, redact, lines, before, tail, output)
  }

  ghost predicate OutputWith(book: Phrasebook, redact: string -> string, lines: seq<string>, before: seq<string>, tail: seq<string>, output: string) {
    && |before| <= 3 && output == Join(before + tail)
    && forall line :: line in before ==> line !in tail && SignalOf(book, redact, lines, line)
  }

  lemma OutputIsRedacted(book: Phrasebook, redact: string -> string, events: seq<Event>, m: Memory)
    requires GoodBook(book) && m == Replay(ByPhrases(book), redact, events) && m.lines == Lines(m.text)
    ensures TailOf(redact, Lines(m.text), m.tail)
    ensures OutputOf(book, redact, Lines(m.text), m.tail, Rendered(m.signals, m.tail))
  {
    ReplayOk(book, redact, events);
    AtMostThree(m.signals);
    TailIsRedacted(redact, m.lines);
    SignalsAreRedacted(book, redact, m);
    assert OutputWith(book, redact, m.lines, SignalLines(m.signals, m.tail), m.tail, Rendered(m.signals, m.tail));
  }

  // ---- The lines of a text ------------------------------------------------------------------------

  /** A text is its lines, each but perhaps the last followed by a newline or a carriage return, which no line holds. */
  lemma LinesAreTheText(text: string) returns (breaks: seq<char>, left: string)
    ensures forall c :: c in breaks ==> c == '\n' || c == '\r'
    ensures forall line :: line in Lines(text) ==> '\n' !in line && '\r' !in line
    ensures |breaks| <= |Lines(text)| && Lines(text)[|breaks|..] == (if left == "" then [] else [left])
    ensures Woven(Lines(text)[..|breaks|], breaks) + left == text
  {
    left := Left("", text);
    breaks := LinesRebuildText("", text);
    LinesInText("", text);
    assert "" + text == text;
    assert Lines(text)[..|breaks|] == Completed("", text);
  }

  // ---- Joined lines ---------------------------------------------------------------------------------

  /** Joined lines without breaks, none of them empty, are read back as they were. */
  lemma {:induction false} JoinedLinesAreRead(lines: seq<string>)
    requires forall line :: line in lines ==> line != "" && '\n' !in line && '\r' !in line
    ensures Lines(Join(lines)) == lines
  {
    if |lines| > 1 {
      forall line | line in lines[1..]
        ensures line in lines
      {
      }
      JoinedLinesAreRead(lines[1..]);
      assert lines[0] in lines;
      FirstLineIsRead(lines[0], Join(lines[1..]));
      assert lines == [lines[0]] + lines[1..];
    } else if |lines| == 1 {
      assert lines[0] in lines;
      ReadWithin("", lines[0]);
      assert "" + lines[0] == lines[0];
    }
  }

  lemma FirstLineIsRead(line: string, rest: string)
    requires '\n' !in line && '\r' !in line
    ensures Lines(line + ['\n'] + rest) == [line] + Lines(rest)
  {
    var s := line + ['\n'] + rest;
    ReadToBreak("", s, |line|);
    assert s[..|line|] == line && s[|line| + 1..] == rest && "" + line == line;
    assert [line] + Completed("", rest) + (if Left("", rest) == "" then [] else [Left("", rest)]) == [line] + Lines(rest);
  }
}
