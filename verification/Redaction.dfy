/**
  Redaction of log messages after recognized prefixes: the rules for values, the pass as
  a loop over the message, and the proof that redacting twice changes nothing more.
*/
module Redaction {
  import opened PrefixPass
  import opened SecretPrefixes
  import opened Sequences
  import opened ValueScanner

  const REDACTED := "[REDACTED]"

  function ScalarLength(s: string): (n: nat)
    ensures n <= |s| && (n < |s| ==> IsStop(s[n]))
  {
    if s == "" || IsStop(s[0]) then 0 else 1 + ScalarLength(s[1..])
  }

  /** How much of `s`, the text after a prefix, is its value. */
  function ValueLength(s: string): (n: nat)
    ensures n <= |s|
  {
    if StartsValue(s, 0) then Enter([], s, 0) else ScalarLength(s)
  }

  /** What a value is replaced with: quotes stay, brackets and scalars go. */
  function Replacement(s: string): (shown: string)
    ensures shown != ""
  {
    if s != "" && IsQuote(s[0]) then InQuotes(s[0])
    else if StartsEscaped(s, 0) then InEscapedQuotes(s[1])
    else REDACTED
  }

  /** The pass after the prefixes that `m` recognizes. */
  function LogRules(m: Matcher): Rules {
    Pass((alnum, s) => PrefixEnd(m, alnum, s), ValueLength, Replacement, REDACTED)
  }

  // ---- The rules are faithful ----------------------------------------------------------------

  lemma FindIsStable(m: Matcher, alnum: bool, s: string, tail: string)
    ensures StableAt(LogRules(m), alnum, s, tail)
  {
    match PrefixEnd(m, alnum, s)
    case None =>
    case Some(n) =>
      assert (s[..n] + tail)[..n] == s[..n];
      if AddsNoSpace(s, s[..n] + tail, n) {
        SearchStays(m, alnum, s, s[..n] + tail, n);
      }
  }

  lemma MarkIsNoLetter(c: char)
    requires IsMark(c)
    ensures !IsAlnum(c)
  {
  }

  /** Where no prefix starts it does not matter what stands before. */
  lemma NothingStartsAtStop(m: Matcher, alnum: bool, s: string)
    requires AtStop(s)
    ensures PrefixEnd(m, alnum, s) == PrefixEnd(m, false, s)
  {
    NoPrefixAtStop(m, s);
  }

  /** After a value it does not matter which character it ended in. */
  lemma EndDoesNotMatter(m: Matcher, s: string)
    requires ValueLength(s) > 0
    ensures var n := ValueLength(s);
            PrefixEnd(m, IsAlnum(s[n - 1]), s[n..]) == PrefixEnd(m, false, s[n..])
  {
    var n := ValueLength(s);
    if StartsValue(s, 0) && n < |s| {
      EnterEndsInMark([], s, 0);
      MarkIsNoLetter(s[n - 1]);
    } else {
      NothingStartsAtStop(m, IsAlnum(s[n - 1]), s[n..]);
    }
  }

  /** Shown text that reads as one whole value, whatever follows. */
  ghost predicate ReadsAsValue(shown: string, rest: string) {
    StartsValue(shown + rest, 0) && Enter([], shown + rest, 0) == |shown|
  }

  lemma PrintedReads(v: Value, rest: string)
    requires ValueOk(v)
    ensures ReadsAsValue(Print(v), rest)
  {
    assert At(Print(v) + rest, 0, Print(v));
    ScanInvertsPrint(v, [], Print(v) + rest, 0);
  }

  function InQuotes(q: char): string {
    [q] + REDACTED + [q]
  }

  function InEscapedQuotes(q: char): string {
    ['\\', q] + REDACTED + ['\\', q]
  }

  lemma QuotedReads(q: char, rest: string)
    requires IsQuote(q)
    ensures ReadsAsValue(InQuotes(q), rest)
  {
    var v := Str(q, seq(|REDACTED|, i requires 0 <= i < |REDACTED| => Char(REDACTED[i])));
    PrintPlainTokens(REDACTED, v.tokens);
    assert Print(v) == InQuotes(q);
    PrintedReads(v, rest);
  }

  lemma EscapedReads(q: char, rest: string)
    requires IsQuote(q)
    ensures ReadsAsValue(InEscapedQuotes(q), rest)
  {
    var v := EscapedStr(q, seq(|REDACTED|, i requires 0 <= i < |REDACTED| => Run(0, REDACTED[i])));
    PrintPlainRuns(REDACTED, v.runs);
    assert Print(v) == InEscapedQuotes(q);
    PrintedReads(v, rest);
  }

  lemma ReadBackOf(m: Matcher, shown: string, rest: string)
    requires ReadsAsValue(shown, rest) && shown != "" && shown[0] != REDACTED[0]
    requires Replacement(shown + rest) == shown && !IsAlnum(shown[|shown| - 1])
    ensures ReadBack(LogRules(m), shown, rest)
  {
    assert (shown + rest)[0] == shown[0];
  }

  lemma QuotedReadBack(m: Matcher, q: char, rest: string)
    requires IsQuote(q)
    ensures ReadBack(LogRules(m), InQuotes(q), rest)
  {
    QuotedReads(q, rest);
    assert (InQuotes(q) + rest)[0] == q;
    ReadBackOf(m, InQuotes(q), rest);
  }

  lemma EscapedReadBack(m: Matcher, q: char, rest: string)
    requires IsQuote(q)
    ensures ReadBack(LogRules(m), InEscapedQuotes(q), rest)
  {
    EscapedReads(q, rest);
    assert (InEscapedQuotes(q) + rest)[0] == '\\' && (InEscapedQuotes(q) + rest)[1] == q;
    ReadBackOf(m, InEscapedQuotes(q), rest);
  }

  lemma {:induction false} PrintPlainTokens(text: string, tokens: seq<Token>)
    requires |tokens| == |text| && forall i :: 0 <= i < |text| ==> tokens[i] == Char(text[i])
    ensures PrintTokens(tokens) == text
  {
    if text != "" {
      PrintPlainTokens(text[1..], tokens[1..]);
    }
  }

  lemma {:induction false} PrintPlainRuns(text: string, runs: seq<Run>)
    requires |runs| == |text| && forall i :: 0 <= i < |text| ==> runs[i] == Run(0, text[i])
    ensures PrintRuns(runs) == text
  {
    if text != "" {
      PrintPlainRuns(text[1..], runs[1..]);
    }
  }

  lemma ValuesAreReadBack(m: Matcher, s: string, rest: string)
    ensures ValueRulesAt(LogRules(m), s, rest)
  {
    if ValueLength(s) > 0 {
      EndDoesNotMatter(m, s);
      ShownIsReadBack(m, s, rest);
    }
  }

  lemma ShownIsReadBack(m: Matcher, s: string, rest: string)
    requires s != ""
    ensures Replacement(s) == REDACTED || ReadBack(LogRules(m), Replacement(s), rest)
    ensures !IsSpace(Replacement(s)[0])
  {
    if IsQuote(s[0]) {
      QuotedReadBack(m, s[0], rest);
    } else if StartsEscaped(s, 0) {
      EscapedReadBack(m, s[1], rest);
    }
  }

  lemma NoValueByFirst(m: Matcher, s: string, t: string)
    ensures NoValueAt(LogRules(m), s, t)
  {
  }

  lemma LogRulesAreFaithful(m: Matcher)
    ensures Faithful(LogRules(m))
  {
    forall alnum, s, tail
      ensures StableAt(LogRules(m), alnum, s, tail)
    {
      FindIsStable(m, alnum, s, tail);
    }
    forall s, rest
      ensures ValueRulesAt(LogRules(m), s, rest)
    {
      ValuesAreReadBack(m, s, rest);
    }
    forall s, t
      ensures NoValueAt(LogRules(m), s, t)
    {
      NoValueByFirst(m, s, t);
    }
  }

  /** Redacting assignments, or flags, a second time changes nothing. */
  lemma RedactionIsIdempotent(m: Matcher, s: string)
    ensures Redact(LogRules(m), false, Redact(LogRules(m), false, s)) == Redact(LogRules(m), false, s)
  {
    LogRulesAreFaithful(m);
    RedactTwice(LogRules(m), false, s);
  }

  /** A message in which no prefix starts is left alone. */
  lemma NoPrefixNoChange(m: Matcher, s: string)
    requires forall i :: 0 <= i < |s| ==> !PrefixAt(m, false, s, i)
    ensures Redact(LogRules(m), false, s) == s
  {
    SearchIsLeftmost(m, false, s);
  }

  // ---- The pass as a loop ------------------------------------------------------------------------

  ghost predicate AlnumBefore(message: string, position: nat)
    requires position <= |message|
  {
    position > 0 && IsAlnum(message[position - 1])
  }

  /** What is still to be rendered from `position` on. */
  ghost function Remaining(r: Rules, message: string, position: nat): string
    requires position <= |message|
  {
    Redact(r, AlnumBefore(message, position), message[position..])
  }

  /** Rules that treat values as log redaction does, after the matches of any pattern. */
  ghost predicate ForLogs(r: Rules) {
    r.length == ValueLength && r.shown == Replacement && r.mark == REDACTED
  }

  method RedactPrefixedValues(r: Rules, message: string) returns (rendered: string)
    requires ForLogs(r)
    ensures rendered == Redact(r, false, message)
  {
    rendered := "";
    var position := 0;
    ghost var goal := Redact(r, false, message);
    assert message[0..] == message;
    var found := NextPrefix(r, message, position);
    while found.Some?
      invariant position <= |message|
      invariant goal == rendered + Remaining(r, message, position)
      invariant found.None? ==> Remaining(r, message, position) == message[position..]
      invariant found.Some? ==> PrefixEndsAt(r, message, position, found.value)
      decreases |message| - position
    {
      ghost var before, todo := rendered, Remaining(r, message, position);
      var shown;
      position, shown := RedactPiece(r, message, position, found.value);
      rendered := rendered + shown;
      Appended(goal, before, todo, shown, Remaining(r, message, position));
      found := NextPrefix(r, message, position);
    }
    rendered := rendered + message[position..];
  }

  lemma Appended(goal: string, before: string, todo: string, shown: string, left: string)
    requires goal == before + todo && todo == shown + left
    ensures goal == (before + shown) + left
  {
  }

  /** The leftmost match of the pattern from `from` on ends at `end`. */
  ghost predicate PrefixEndsAt(r: Rules, message: string, from: nat, end: nat) {
    from < end <= |message| && r.find(AlnumBefore(message, from), message[from..]) == Some(end - from)
  }

  /** The text up to the end of a prefix, and what is shown for the value after it. */
  method RedactPiece(r: Rules, message: string, from: nat, start: nat) returns (position: nat, shown: string)
    requires ForLogs(r) && PrefixEndsAt(r, message, from, start)
    ensures start <= position <= |message|
    ensures Remaining(r, message, from) == shown + Remaining(r, message, position)
  {
    ghost var todo := RedactValue(r, AlnumBefore(message, start), message[start..]);
    var value;
    RemainingAfterPrefix(r, message, from, start);
    position, value := RedactValueAt(r, message, start);
    shown := message[from..start] + value;
    Appended(message[from..start] + todo, message[from..start], todo, value, Remaining(r, message, position));
  }

  /** Where the next prefix ends; the search sees the character before its start. */
  method NextPrefix(r: Rules, message: string, from: nat) returns (end: Option<nat>)
    requires from <= |message|
    ensures end.None? ==> Remaining(r, message, from) == message[from..]
    ensures end.Some? ==> PrefixEndsAt(r, message, from, end.value)
  {
    var found := r.find(from > 0 && IsAlnum(message[from - 1]), message[from..]);
    assert Matched(found, message[from..]);
    end := if found.None? then None else Some(from + found.value);
  }

  /** What is shown for the text between `start`, where a prefix ended, and `position`. */
  method RedactValueAt(r: Rules, message: string, start: nat) returns (position: nat, shown: string)
    requires ForLogs(r) && start <= |message|
    ensures start <= position <= |message|
    ensures RedactValue(r, AlnumBefore(message, start), message[start..])
            == shown + Remaining(r, message, position)
  {
    if REDACTED <= message[start..] {
      RemainingAfterMark(r, message, start);
      return start + |REDACTED|, REDACTED;
    }
    if start >= |message| {
      return start, "";
    }
    position, shown := RedactUnmarkedAt(r, message, start);
  }

  method RedactUnmarkedAt(r: Rules, message: string, start: nat) returns (position: nat, shown: string)
    requires ForLogs(r) && start < |message| && !(r.mark <= message[start..])
    ensures start <= position <= |message|
    ensures RedactValue(r, AlnumBefore(message, start), message[start..])
            == shown + Remaining(r, message, position)
  {
    position, shown := ReplaceValue(message, start);
    if position == start {
      shown := "";
    } else {
      RemainingAfterValue(r, message, start, position);
    }
  }

  /** The end and the replacement of the value at `start`. */
  method ReplaceValue(message: string, start: nat) returns (end: nat, replacement: string)
    requires start < |message|
    ensures end == start + ValueLength(message[start..]) && end <= |message|
    ensures replacement == Replacement(message[start..])
  {
    var first := message[start];
    ghost var s := message[start..];
    assert Suffix(message, start, s) && s[0] == first && (|s| > 1 ==> s[1] == message[start + 1]);
    if StartsValue(message, start) {
      end := StructuredValueEnd(message, start);
      StartShifts(message, start, s, 0);
      EnterShifts([], message, start, s, 0);
      replacement := if IsQuote(first) then InQuotes(first)
                     else if IsOpener(first) then REDACTED
                     else InEscapedQuotes(message[start + 1]);
    } else {
      StartShifts(message, start, s, 0);
      end := ScalarEnd(message, start);
      replacement := REDACTED;
    }
  }

  method ScalarEnd(message: string, start: nat) returns (end: nat)
    requires start <= |message|
    ensures end == start + ScalarLength(message[start..]) && end <= |message|
  {
    end := start;
    while end < |message| && !IsStop(message[end])
      invariant start <= end <= |message|
      invariant start + ScalarLength(message[start..]) == end + ScalarLength(message[end..])
    {
      assert message[end..][1..] == message[end + 1..];
      end := end + 1;
    }
  }

  lemma RemainingAfterPrefix(r: Rules, message: string, position: nat, start: nat)
    requires position < start <= |message|
    requires r.find(AlnumBefore(message, position), message[position..]) == Some(start - position)
    ensures Remaining(r, message, position)
            == message[position..start] + RedactValue(r, AlnumBefore(message, start), message[start..])
  {
    var s, n := message[position..], start - position;
    assert s[..n] == message[position..start] && s[n..] == message[start..] && s[n - 1] == message[start - 1];
  }

  lemma RemainingAfterMark(r: Rules, message: string, start: nat)
    requires start <= |message| && r.mark <= message[start..] && !IsAlnum(r.mark[|r.mark| - 1])
    ensures RedactValue(r, AlnumBefore(message, start), message[start..]) == r.mark + Remaining(r, message, start + |r.mark|)
  {
    var s, n := message[start..], |r.mark|;
    assert s[n..] == message[start + n..] && s[n - 1] == r.mark[n - 1] == message[start + n - 1];
  }

  lemma RemainingAfterValue(r: Rules, message: string, start: nat, end: nat)
    requires start < end <= |message| && !(r.mark <= message[start..]) && end == start + r.length(message[start..])
    ensures RedactValue(r, AlnumBefore(message, start), message[start..]) == r.shown(message[start..]) + Remaining(r, message, end)
  {
    var s, n := message[start..], end - start;
    assert s[n..] == message[end..] && s[n - 1] == message[end - 1];
  }
}
