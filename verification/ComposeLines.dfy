/** The lines of a text, as splitting it at every line feed and carriage return gives them. */
module ComposeLines {
  import opened ComposeFailures

  /** The lines completed by reading `s` when `pending` is the unfinished line before it. */
  function Completed(pending: string, s: string): seq<string>
    decreases |s|
  {
    if s == "" then []
    else if IsBreak(s[0]) then [pending] + Completed("", s[1..])
    else Completed(pending + [s[0]], s[1..])
  }

  /** The unfinished line after reading `s`. */
  function Left(pending: string, s: string): string
    decreases |s|
  {
    if s == "" then pending
    else if IsBreak(s[0]) then Left("", s[1..])
    else Left(pending + [s[0]], s[1..])
  }

  /** All lines of a text that has ended. */
  function Lines(text: string): seq<string> {
    Completed("", text) + if Left("", text) == "" then [] else [Left("", text)]
  }

  lemma {:induction false} ReadOn(pending: string, s: string, t: string)
    ensures Completed(pending, s + t) == Completed(pending, s) + Completed(Left(pending, s), t)
    ensures Left(pending, s + t) == Left(Left(pending, s), t)
    decreases |s|
  {
    if s == "" {
      assert s + t == t;
    } else {
      assert (s + t)[0] == s[0] && (s + t)[1..] == s[1..] + t;
      if IsBreak(s[0]) {
        ReadOn("", s[1..], t);
      } else {
        ReadOn(pending + [s[0]], s[1..], t);
      }
    }
  }

  /** Text without a break only lengthens the unfinished line. */
  lemma {:induction false} ReadWithin(pending: string, s: string)
    requires forall i :: 0 <= i < |s| ==> !IsBreak(s[i])
    ensures Completed(pending, s) == [] && Left(pending, s) == pending + s
    decreases |s|
  {
    if s == "" {
      assert pending + s == pending;
    } else {
      ReadWithin(pending + [s[0]], s[1..]);
      assert pending + [s[0]] + s[1..] == pending + s;
    }
  }

  lemma ReadToBreak(pending: string, s: string, i: nat)
    requires i < |s| && IsBreak(s[i]) && forall j :: 0 <= j < i ==> !IsBreak(s[j])
    ensures Completed(pending, s) == [pending + s[..i]] + Completed("", s[i + 1..])
    ensures Left(pending, s) == Left("", s[i + 1..])
  {
    ReadWithin(pending, s[..i]);
    ReadOn(pending, s[..i], s[i..]);
    assert s == s[..i] + s[i..] && s[i..][1..] == s[i + 1..];
  }

  /** Lines each followed by its break. */
  function Woven(lines: seq<string>, breaks: seq<char>): string
    requires |lines| == |breaks|
  {
    if lines == [] then "" else lines[0] + [breaks[0]] + Woven(lines[1..], breaks[1..])
  }

  /** The lines, with the breaks that ended them and the unfinished line, are the text itself. */
  lemma {:induction false} LinesRebuildText(pending: string, s: string) returns (breaks: seq<char>)
    ensures |breaks| == |Completed(pending, s)| && forall c :: c in breaks ==> IsBreak(c)
    ensures Woven(Completed(pending, s), breaks) + Left(pending, s) == pending + s
    decreases |s|
  {
    if s == "" {
      breaks := [];
    } else if IsBreak(s[0]) {
      var more := LinesRebuildText("", s[1..]);
      breaks := [s[0]] + more;
      RebuildFirst(pending, s, more);
    } else {
      breaks := LinesRebuildText(pending + [s[0]], s[1..]);
      assert (pending + [s[0]]) + s[1..] == pending + s;
    }
  }

  lemma RebuildFirst(pending: string, s: string, more: seq<char>)
    requires s != "" && IsBreak(s[0]) && |more| == |Completed("", s[1..])|
    requires Woven(Completed("", s[1..]), more) + Left("", s[1..]) == "" + s[1..]
    ensures |Completed(pending, s)| == |more| + 1
    ensures Woven(Completed(pending, s), [s[0]] + more) + Left(pending, s) == pending + s
  {
    var lines, left := Completed("", s[1..]), Left("", s[1..]);
    WovenFirst(pending, s[0], lines, more);
    assert Woven(lines, more) + left == s[1..];
    assert pending + [s[0]] + Woven(lines, more) + left == pending + ([s[0]] + (Woven(lines, more) + left));
    assert [s[0]] + s[1..] == s;
  }

  lemma WovenFirst(line: string, c: char, lines: seq<string>, breaks: seq<char>)
    requires |lines| == |breaks|
    ensures Woven([line] + lines, [c] + breaks) == line + [c] + Woven(lines, breaks)
  {
    assert ([line] + lines)[1..] == lines && ([c] + breaks)[1..] == breaks;
  }

  /** Every line stands in the text, and none holds a break. */
  lemma {:induction false} LinesInText(pending: string, s: string)
    requires forall i :: 0 <= i < |pending| ==> !IsBreak(pending[i])
    ensures forall line :: line in Completed(pending, s) + [Left(pending, s)] ==>
              Part(line, pending + s) && forall i :: 0 <= i < |line| ==> !IsBreak(line[i])
    decreases |s|
  {
    if s == "" {
      assert PartAt(pending, pending + s, 0);
    } else if IsBreak(s[0]) {
      LinesInText("", s[1..]);
      assert PartAt(pending, pending + s, 0);
      forall line | Part(line, "" + s[1..])
        ensures Part(line, pending + s)
      {
        var k :| 0 <= k <= |s[1..]| && PartAt(line, "" + s[1..], k);
        assert (pending + s)[|pending| + 1 + k..][..|line|] == s[1..][k..][..|line|];
        assert PartAt(line, pending + s, |pending| + 1 + k);
      }
    } else {
      LinesInText(pending + [s[0]], s[1..]);
      assert pending + [s[0]] + s[1..] == pending + s;
    }
  }

  function Find(s: string, c: char): (i: int)
    ensures -1 <= i < |s|
    ensures i < 0 ==> c !in s
    ensures i >= 0 ==> s[i] == c && c !in s[..i]
  {
    if s == "" then -1
    else if s[0] == c then 0
    else
      var i := Find(s[1..], c);
      assert i >= 0 ==> s[..i + 1] == [s[0]] + s[1..][..i];
      if i < 0 then -1 else i + 1
  }

  /** The position of the first break, or -1. */
  function LineBoundary(s: string): (i: int)
    ensures -1 <= i < |s|
    ensures i >= 0 ==> IsBreak(s[i])
    ensures forall j :: 0 <= j < (if i < 0 then |s| else i) ==> !IsBreak(s[j])
  {
    var newline, carriageReturn := Find(s, '\n'), Find(s, '\r');
    assert newline >= 0 ==> forall j :: 0 <= j < newline ==> s[..newline][j] == s[j];
    assert carriageReturn >= 0 ==> forall j :: 0 <= j < carriageReturn ==> s[..carriageReturn][j] == s[j];
    if newline < 0 then carriageReturn
    else if carriageReturn < 0 || newline < carriageReturn then newline
    else carriageReturn
  }
}
