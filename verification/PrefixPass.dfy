/**
  The prefix pass of redaction, for any rules: after every match of a prefix pattern the
  value is replaced. It keeps the other text, in order, and a second pass changes nothing.
*/
module PrefixPass {
  import opened Sequences

  /** White space of a pattern: the blank, tab to carriage return, the information separators, and the wider blanks of Unicode. */
  predicate IsSpace(c: char) {
    || c == ' ' || '\t' <= c <= '\r' || '\U{1C}' <= c <= '\U{1F}' || c == '\U{85}' || c == '\U{A0}' || c == '\U{1680}'
    || '\U{2000}' <= c <= '\U{200A}' || c == '\U{2028}' || c == '\U{2029}' || c == '\U{202F}' || c == '\U{205F}' || c == '\U{3000}'
  }

  /** The letters that `[a-z]` matches when case is ignored: those of ASCII, and four that fold into them. */
  predicate IsLetter(c: char) { 'a' <= c <= 'z' || 'A' <= c <= 'Z' || FoldsToAscii(c) }

  /** The capital I with a dot and the small one without, the long s, and the Kelvin sign. */
  predicate FoldsToAscii(c: char) { c == '\U{130}' || c == '\U{131}' || c == '\U{17F}' || c == '\U{212A}' }

  predicate IsAlnum(c: char) { IsLetter(c) || '0' <= c <= '9' }

  /** Characters that end an unquoted value. */
  predicate IsStop(c: char) { c in " \t\r\n,;&}])" }

  ghost predicate AtStop(s: string) { s == "" || IsStop(s[0]) }

  /**
    `find` gives where the leftmost match of the pattern in a text ends; its flag says
    whether a letter or digit stands before the text. `length` and `shown` are for the
    value a text begins with, and `mark` stands for a value already redacted.
  */
  datatype Pass = Pass(find: (bool, string) -> Option<nat>, length: string -> nat, shown: string -> string, mark: string)

  ghost predicate Bounded(r: Pass) {
    && r.mark != ""
    && (forall alnum, s :: Matched(r.find(alnum, s), s))
    && (forall s :: r.length(s) <= |s|)
  }

  ghost predicate Matched(end: Option<nat>, s: string) {
    end.Some? ==> 0 < end.value <= |s|
  }

  type Rules = r: Pass | Bounded(r) witness Pass((alnum, s) => None, s => 0, s => "", "-")

  function Redact(r: Rules, alnum: bool, s: string): string
    decreases |s|, 1
  {
    match r.find(alnum, s)
    case None => s
    case Some(n) => s[..n] + RedactValue(r, IsAlnum(s[n - 1]), s[n..])
  }

  /** `s` follows a prefix. */
  function RedactValue(r: Rules, alnum: bool, s: string): string
    decreases |s|, 2
  {
    if r.mark <= s then r.mark + Redact(r, false, s[|r.mark|..])
    else
      var n := r.length(s);
      if n == 0 then Redact(r, alnum, s) else r.shown(s) + Redact(r, IsAlnum(s[n - 1]), s[n..])
  }

  // ---- Redacting twice ---------------------------------------------------------------------

  /** A match is not disturbed by other text after it, as long as no further space follows it. */
  ghost predicate StableAt(r: Rules, alnum: bool, s: string, tail: string) {
    match r.find(alnum, s)
    case None => true
    case Some(n) =>
      (tail != "" && IsSpace(tail[0]) ==> n < |s| && IsSpace(s[n])) ==> r.find(alnum, s[..n] + tail) == Some(n)
  }

  /** A shown value is read as that same value again, and ends in no letter or digit. */
  ghost predicate ReadBack(r: Rules, shown: string, rest: string) {
    && !(r.mark <= shown + rest) && r.length(shown + rest) == |shown| && r.shown(shown + rest) == shown
    && shown != "" && !IsAlnum(shown[|shown| - 1])
  }

  ghost predicate ValueRulesAt(r: Rules, s: string, rest: string) {
    var n := r.length(s);
    n > 0 ==>
      && r.find(IsAlnum(s[n - 1]), s[n..]) == r.find(false, s[n..])
      && (r.shown(s) == r.mark || ReadBack(r, r.shown(s), rest))
      && r.shown(s) != "" && !IsSpace(r.shown(s)[0])
  }

  /** Whether a text begins with no value at all depends on its first character alone. */
  ghost predicate NoValueAt(r: Rules, s: string, t: string) {
    r.length(s) == 0 && !(r.mark <= s) && SameStart(s, t) ==> r.length(t) == 0 && !(r.mark <= t)
  }

  ghost predicate SameStart(s: string, t: string) {
    (s == "" <==> t == "") && (s != "" && t != "" ==> s[0] == t[0])
  }

  /** The rules under which a second pass changes nothing. */
  ghost predicate Faithful(r: Rules) {
    && !IsSpace(r.mark[0])
    && (forall alnum, s, tail :: StableAt(r, alnum, s, tail))
    && (forall s, rest :: ValueRulesAt(r, s, rest))
    && (forall s, t :: NoValueAt(r, s, t))
  }

  lemma StartKept(r: Rules, alnum: bool, s: string)
    ensures SameStart(s, Redact(r, alnum, s))
  {
    assert Matched(r.find(alnum, s), s);
  }

  lemma MarkTwice(r: Rules, alnum: bool, rest: string)
    ensures RedactValue(r, alnum, r.mark + rest) == r.mark + Redact(r, false, rest)
  {
    assert (r.mark + rest)[|r.mark|..] == rest;
  }

  lemma ShownTwice(r: Rules, alnum: bool, shown: string, rest: string)
    requires ReadBack(r, shown, rest)
    ensures RedactValue(r, alnum, shown + rest) == shown + Redact(r, false, rest)
  {
    var s := shown + rest;
    assert s[|shown|..] == rest && s[|shown| - 1] == shown[|shown| - 1];
  }

  /** What follows a replaced value is redacted the same whichever character the value ended in. */
  lemma EndForgotten(r: Rules, s: string)
    requires ValueRulesAt(r, s, "") && r.length(s) > 0
    ensures Redact(r, IsAlnum(s[r.length(s) - 1]), s[r.length(s)..]) == Redact(r, false, s[r.length(s)..])
  {
  }

  lemma SpaceKept(r: Rules, alnum: bool, s: string)
    requires Faithful(r)
    ensures var shown := RedactValue(r, alnum, s);
            shown != "" && IsSpace(shown[0]) ==> s != "" && IsSpace(s[0])
  {
    StartKept(r, alnum, s);
    assert ValueRulesAt(r, s, "");
  }

  /** Redacting a redacted text changes nothing. */
  lemma {:induction false} RedactTwice(r: Rules, alnum: bool, s: string)
    requires Faithful(r)
    ensures Redact(r, alnum, Redact(r, alnum, s)) == Redact(r, alnum, s)
    decreases |s|, 1
  {
    assert Matched(r.find(alnum, s), s);
    match r.find(alnum, s)
    case None =>
    case Some(n) =>
      var before := IsAlnum(s[n - 1]);
      ValueTwice(r, before, s[n..]);
      SpaceKept(r, before, s[n..]);
      FoundAgain(r, alnum, s, n, RedactValue(r, before, s[n..]));
  }

  lemma FoundAgain(r: Rules, alnum: bool, s: string, n: nat, shown: string)
    requires Faithful(r) && r.find(alnum, s) == Some(n) && 0 < n <= |s|
    requires shown != "" && IsSpace(shown[0]) ==> s[n..] != "" && IsSpace(s[n..][0])
    ensures Redact(r, alnum, s[..n] + shown) == s[..n] + RedactValue(r, IsAlnum(s[n - 1]), shown)
  {
    var t := s[..n] + shown;
    assert StableAt(r, alnum, s, shown);
    assert t[..n] == s[..n] && t[n..] == shown && t[n - 1] == s[n - 1];
  }

  lemma {:induction false} ValueTwice(r: Rules, alnum: bool, s: string)
    requires Faithful(r)
    ensures RedactValue(r, alnum, RedactValue(r, alnum, s)) == RedactValue(r, alnum, s)
    decreases |s|, 2
  {
    var n := r.length(s);
    if r.mark <= s {
      var rest := s[|r.mark|..];
      RedactTwice(r, false, rest);
      MarkTwice(r, alnum, Redact(r, false, rest));
    } else if n == 0 {
      RedactTwice(r, alnum, s);
      StartKept(r, alnum, s);
      assert NoValueAt(r, s, Redact(r, alnum, s));
    } else {
      var rest := Redact(r, false, s[n..]);
      assert ValueRulesAt(r, s, "") && ValueRulesAt(r, s, rest);
      EndForgotten(r, s);
      RedactTwice(r, false, s[n..]);
      ShownOrMarkTwice(r, alnum, r.shown(s), rest);
    }
  }

  lemma ShownOrMarkTwice(r: Rules, alnum: bool, shown: string, rest: string)
    requires shown == r.mark || ReadBack(r, shown, rest)
    ensures RedactValue(r, alnum, shown + rest) == shown + Redact(r, false, rest)
  {
    if shown == r.mark {
      MarkTwice(r, alnum, rest);
    } else {
      ShownTwice(r, alnum, shown, rest);
    }
  }

  // ---- What a pass keeps ------------------------------------------------------------------

  /** Text that is kept, then the value after it and what is shown instead. */
  datatype Span = Span(kept: string, secret: string, shown: string)

  function Source(spans: seq<Span>): string {
    if spans == [] then "" else spans[0].kept + (spans[0].secret + Source(spans[1..]))
  }

  function Rendered(spans: seq<Span>): string {
    if spans == [] then "" else spans[0].kept + (spans[0].shown + Rendered(spans[1..]))
  }

  /** A value is shown as the mark, or as its replacement; no value is shown as nothing. */
  ghost predicate Hidden(r: Rules, span: Span) {
    || (span.secret == "" && span.shown == "")
    || (span.secret == r.mark && span.shown == r.mark)
    || (exists s :: 0 < r.length(s) <= |s| && span.secret == s[..r.length(s)] && span.shown == r.shown(s))
  }

  /** The value at the start of `s`, what is shown for it, and the text after it. */
  lemma FirstValue(r: Rules, alnum: bool, s: string) returns (span: Span, after: bool, left: string)
    ensures span.kept == "" && s == span.secret + left && Hidden(r, span)
    ensures RedactValue(r, alnum, s) == span.shown + Redact(r, after, left)
  {
    var n := r.length(s);
    if r.mark <= s {
      return Span("", r.mark, r.mark), false, s[|r.mark|..];
    } else if n == 0 {
      return Span("", "", ""), alnum, s;
    } else {
      return Span("", s[..n], r.shown(s)), IsAlnum(s[n - 1]), s[n..];
    }
  }

  lemma SpanFirst(span: Span, more: seq<Span>, tail: string)
    ensures Source([span] + more) + tail == span.kept + (span.secret + (Source(more) + tail))
    ensures Rendered([span] + more) + tail == span.kept + (span.shown + (Rendered(more) + tail))
  {
    assert ([span] + more)[1..] == more;
  }

  /**
    A pass splits the text into kept pieces and values. It renders every kept piece,
    in order, and hides every value.
  */
  lemma {:induction false} KeptInOrder(r: Rules, alnum: bool, s: string) returns (spans: seq<Span>, tail: string)
    ensures s == Source(spans) + tail
    ensures Redact(r, alnum, s) == Rendered(spans) + tail
    ensures forall span :: span in spans ==> Hidden(r, span)
    decreases |s|
  {
    assert Matched(r.find(alnum, s), s);
    match r.find(alnum, s)
    case None => return [], s;
    case Some(n) =>
      var value, after, left := FirstValue(r, IsAlnum(s[n - 1]), s[n..]);
      assert |left| < |s|;
      var more;
      more, tail := KeptInOrder(r, after, left);
      spans := KeptFirst(r, alnum, s, n, value, after, left, more, tail);
  }

  lemma KeptFirst(r: Rules, alnum: bool, s: string, n: nat, value: Span, after: bool, left: string, more: seq<Span>, tail: string)
    returns (spans: seq<Span>)
    requires r.find(alnum, s) == Some(n) && 0 < n <= |s|
    requires value.kept == "" && s[n..] == value.secret + left && Hidden(r, value)
    requires RedactValue(r, IsAlnum(s[n - 1]), s[n..]) == value.shown + Redact(r, after, left)
    requires left == Source(more) + tail && Redact(r, after, left) == Rendered(more) + tail
    requires forall span :: span in more ==> Hidden(r, span)
    ensures s == Source(spans) + tail && Redact(r, alnum, s) == Rendered(spans) + tail
    ensures forall span :: span in spans ==> Hidden(r, span)
  {
    var first := value.(kept := s[..n]);
    spans := [first] + more;
    SpanFirst(first, more, tail);
    assert s == s[..n] + s[n..];
  }
}
