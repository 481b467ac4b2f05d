/**
  What redaction does to a message, written out: which keys it knows, and what is shown
  for the value after one.
 */
module RedactedValues {
  import opened PrefixPass
  import opened Redaction
  import opened SecretKeys
  import opened SecretPrefixes
  import opened Sequences
  import opened ValueScanner

  // ---- Unquoted values ------------------------------------------------------------------------

  /** The characters that end an unquoted value. */
  predicate EndsValue(c: char) {
    c == ' ' || c == '\t' || c == '\r' || c == '\n' || c == ',' || c == ';' || c == '&' || c == '}' || c == ']' || c == ')'
  }

  /** Text that is one unquoted value: no character ends it, and it begins with no quote and no bracket. */
  predicate IsPlainValue(v: string) {
    && v != "" && (forall c :: c in v ==> !EndsValue(c))
    && v[0] !in "\"'[{(" && !(|v| > 1 && v[0] == '\\' && v[1] in "\"'")
  }

  lemma {:induction false} PlainLength(v: string, rest: string)
    requires (forall c :: c in v ==> !EndsValue(c)) && (rest == "" || EndsValue(rest[0]))
    ensures ScalarLength(v + rest) == |v|
  {
    if v == "" {
      assert v + rest == rest;
    } else {
      assert v[0] in v && (v + rest)[1..] == v[1..] + rest;
      forall c | c in v[1..]
        ensures c in v
      {
      }
      PlainLength(v[1..], rest);
    }
  }

  lemma PlainIsNoStart(v: string, rest: string)
    requires IsPlainValue(v) && (rest == "" || EndsValue(rest[0]))
    ensures !StartsValue(v + rest, 0) && !(REDACTED <= v + rest)
  {
    var s := v + rest;
    assert s[0] == v[0];
    if |v| > 1 {
      assert s[1] == v[1];
    } else if rest != "" {
      assert s[1] == rest[0];
    }
  }

  /**
    After a prefix, an unquoted value, which goes up to the first character that ends it
    or to the end, is replaced as a whole, and the rest is redacted on its own.
  */
  lemma PlainValueIsHidden(m: Matcher, alnum: bool, head: string, v: string, rest: string)
    requires IsPlainValue(v) && (rest == "" || EndsValue(rest[0]))
    requires PrefixEnd(m, alnum, head + (v + rest)) == Some(|head|)
    ensures Redact(LogRules(m), alnum, head + (v + rest))
            == head + ("[REDACTED]" + Redact(LogRules(m), IsAlnum(v[|v| - 1]), rest))
  {
    var s := v + rest;
    PlainLength(v, rest);
    PlainIsNoStart(v, rest);
    ShownFor(m, alnum, head, s, |v|, REDACTED);
    assert s[|v|..] == rest && s[|v| - 1] == v[|v| - 1];
  }

  lemma RedactAt(r: Rules, alnum: bool, head: string, s: string)
    requires r.find(alnum, head + s) == Some(|head|) && head != ""
    ensures Redact(r, alnum, head + s) == head + RedactValue(r, IsAlnum(head[|head| - 1]), s)
  {
    assert (head + s)[..|head|] == head && (head + s)[|head|..] == s && (head + s)[|head| - 1] == head[|head| - 1];
  }

  lemma ValueAt(r: Rules, alnum: bool, s: string, n: nat)
    requires !(r.mark <= s) && 0 < n <= |s| && r.length(s) == n
    ensures RedactValue(r, alnum, s) == r.shown(s) + Redact(r, IsAlnum(s[n - 1]), s[n..])
  {
  }

  lemma ShownFor(m: Matcher, alnum: bool, head: string, s: string, n: nat, shown: string)
    requires PrefixEnd(m, alnum, head + s) == Some(|head|) && !(REDACTED <= s)
    requires 0 < n <= |s| && ValueLength(s) == n && Replacement(s) == shown
    ensures Redact(LogRules(m), alnum, head + s) == head + (shown + Redact(LogRules(m), IsAlnum(s[n - 1]), s[n..]))
  {
    var r: Rules := LogRules(m);
    RedactAt(r, alnum, head, s);
    ValueAt(r, IsAlnum(head[|head| - 1]), s, n);
  }

  // ---- Quoted and bracketed values --------------------------------------------------------------

  /** What is shown for a value: its quotes stay, brackets go. */
  function ShownOf(v: Value): string {
    match v
    case Str(q, _) => [q] + "[REDACTED]" + [q]
    case EscapedStr(q, _) => ['\\', q] + "[REDACTED]" + ['\\', q]
    case Group(_, _) => "[REDACTED]"
  }

  /** A quoted or bracketed value of any nesting is replaced as a whole. */
  lemma StructuredValueIsHidden(m: Matcher, alnum: bool, head: string, v: Value, rest: string)
    requires ValueOk(v) && !(REDACTED <= Print(v) + rest)
    requires PrefixEnd(m, alnum, head + (Print(v) + rest)) == Some(|head|)
    ensures Print(v) != ""
    ensures Redact(LogRules(m), alnum, head + (Print(v) + rest))
            == head + (ShownOf(v) + Redact(LogRules(m), IsAlnum(Print(v)[|Print(v)| - 1]), rest))
  {
    var s, n := Print(v) + rest, |Print(v)|;
    PrintedReads(v, rest);
    PrintedShown(v, rest);
    ShownFor(m, alnum, head, s, n, ShownOf(v));
    assert s[n..] == rest && s[n - 1] == Print(v)[n - 1];
  }

  lemma PrintedShown(v: Value, rest: string)
    requires ValueOk(v)
    ensures Replacement(Print(v) + rest) == ShownOf(v)
  {
    var s := Print(v) + rest;
    match v
    case Str(q, _) =>
      assert s[0] == q;
      assert [q] + REDACTED + [q] == InQuotes(q);
    case EscapedStr(q, _) =>
      assert s[0] == '\\' && s[1] == q;
      assert ['\\', q] + REDACTED + ['\\', q] == InEscapedQuotes(q);
    case Group(open, _) =>
      assert s[0] == open;
  }

  // ---- Keys ---------------------------------------------------------------------------------------

  /** The words with these joints between them. */
  function Joined(words: seq<string>, joints: seq<string>): string
    requires |words| == |joints| + 1
  {
    if joints == [] then words[0] else words[0] + (joints[0] + Joined(words[1..], joints[1..]))
  }

  /** Nothing, an underscore or a dash. */
  predicate AreJoints(joints: seq<string>) {
    forall j :: 0 <= j < |joints| ==> joints[j] == "" || joints[j] == "_" || joints[j] == "-"
  }

  ghost predicate SpeltWith(words: seq<string>, plural: bool, s: string, joints: seq<string>) {
    && |words| == |joints| + 1 && AreJoints(joints)
    && (s == Joined(words, joints) || (plural && s == Joined(words, joints) + "s"))
  }

  /** A key is spelt by its words, each two of them joined directly, by `_` or by `-`, and by an `s` at the end if it has a plural. */
  lemma {:induction false} SpeltByJoints(words: seq<string>, plural: bool, s: string) returns (joints: seq<string>)
    requires words != [] && Spells(words, plural, s)
    ensures SpeltWith(words, plural, s, joints)
    decreases words
  {
    var rest := s[|words[0]|..];
    assert s == words[0] + rest;
    if |words| == 1 {
      joints := [];
      assert words[0] + "" == words[0];
    } else if Spells(words[1..], plural, rest) {
      var more := SpeltByJoints(words[1..], plural, rest);
      joints := [""] + more;
      JoinedOn(words, "", more, plural, rest);
    } else {
      var more := SpeltByJoints(words[1..], plural, rest[1..]);
      joints := [[rest[0]]] + more;
      assert rest == [rest[0]] + rest[1..];
      JoinedOn(words, [rest[0]], more, plural, rest[1..]);
    }
  }

  lemma JoinedOn(words: seq<string>, joint: string, more: seq<string>, plural: bool, tail: string)
    requires |words| == |more| + 2 && SpeltWith(words[1..], plural, tail, more)
    requires joint == "" || joint == "_" || joint == "-"
    ensures SpeltWith(words, plural, words[0] + (joint + tail), [joint] + more)
  {
    assert ([joint] + more)[1..] == more;
    var inner := Joined(words[1..], more);
    assert Joined(words, [joint] + more) == words[0] + (joint + inner);
    assert words[0] + (joint + (inner + "s")) == (words[0] + (joint + inner)) + "s";
  }

  lemma {:induction false} JointsSpell(words: seq<string>, plural: bool, s: string, joints: seq<string>)
    requires SpeltWith(words, plural, s, joints)
    ensures Spells(words, plural, s)
    decreases words
  {
    if joints == [] {
      assert words[1..] == [];
    } else {
      var inner := Joined(words[1..], joints[1..]);
      var tail := if s == Joined(words, joints) then inner else inner + "s";
      assert s == words[0] + (joints[0] + tail);
      assert s[|words[0]|..] == joints[0] + tail;
      JointsSpell(words[1..], plural, tail, joints[1..]);
      if joints[0] == "" {
        assert joints[0] + tail == tail;
      } else {
        assert (joints[0] + tail)[0] in "_-" && (joints[0] + tail)[1..] == tail;
      }
    }
  }

  // ---- Assignments ---------------------------------------------------------------------------------

  /** A character that can stand in a key: no separator, no quote, no backslash. */
  predicate InKey(c: char) {
    !IsSpace(c) && c != ':' && c != '=' && c != '"' && c != '\'' && c != '\\'
  }

  /** What may stand around a key: nothing, a quote, or an escaped quote. */
  predicate IsKeyQuote(q: string) {
    q == "" || q == "\"" || q == "'" || q == "\\\"" || q == "\\'"
  }

  predicate IsGap(s: string) {
    forall j :: 0 <= j < |s| ==> IsSpace(s[j])
  }

  /**
    The text begins with an assignment, up to `n`: to the key from `a` to `b`, in quotes
    of any kind, with blanks on either side of the `=` or `:` at `d`.
  */
  predicate Assigns(t: string, a: nat, b: nat, c: nat, d: nat, n: nat) {
    && a < b <= c <= d < n <= |t|
    && IsKeyQuote(t[..a]) && IsLetter(t[a]) && (forall j :: a <= j < b ==> InKey(t[j])) && IsKeyQuote(t[b..c])
    && IsGap(t[c..d]) && (t[d] == '=' || t[d] == ':') && IsGap(t[d + 1..n]) && (n < |t| ==> !IsSpace(t[n]))
  }

  predicate NoSeparator(s: string) {
    forall j :: 0 <= j < |s| ==> !IsSeparator(s[j])
  }

  lemma RestHasNone(c: char, rest: string)
    requires NoSeparator([c] + rest)
    ensures NoSeparator(rest) && !IsSeparator(c)
  {
    assert ([c] + rest)[0] == c;
    forall j | 0 <= j < |rest|
      ensures !IsSeparator(rest[j])
    {
      assert rest[j] == ([c] + rest)[j + 1];
    }
  }

  lemma RestIsGap(c: char, rest: string)
    requires IsGap([c] + rest)
    ensures IsGap(rest) && IsSpace(c)
  {
    assert ([c] + rest)[0] == c;
    forall j | 0 <= j < |rest|
      ensures IsSpace(rest[j])
    {
      assert rest[j] == ([c] + rest)[j + 1];
    }
  }

  lemma {:induction false} HeadEndsAt(t: string, h: nat)
    requires h < |t| && NoSeparator(t[..h]) && IsSeparator(t[h])
    ensures HeadLength(t) == h
  {
    if h > 0 {
      assert t[..h] == [t[0]] + t[1..][..h - 1];
      RestHasNone(t[0], t[1..][..h - 1]);
      HeadEndsAt(t[1..], h - 1);
    }
  }

  lemma {:induction false} GapEndsAt(s: string, n: nat)
    requires n <= |s| && IsGap(s[..n]) && (n < |s| ==> !IsSpace(s[n]))
    ensures Spaces(s) == n
  {
    if n > 0 {
      assert s[..n] == [s[0]] + s[1..][..n - 1];
      RestIsGap(s[0], s[1..][..n - 1]);
      GapEndsAt(s[1..], n - 1);
    }
  }

  lemma OpeningDrops(h: string, a: nat)
    requires a < |h| && IsKeyQuote(h[..a]) && IsLetter(h[a])
    ensures DropOpeningQuote(h) == h[a..]
  {
    if a > 0 {
      assert h[..a][0] == h[0] && h[..a][a - 1] == h[a - 1];
    }
  }

  lemma ClosingDrops(h: string, b: nat)
    requires 0 < b <= |h| && InKey(h[b - 1]) && IsKeyQuote(h[b..])
    ensures DropClosingQuote(h) == h[..b]
  {
    if b < |h| {
      assert h[b..][0] == h[b] && h[b..][|h| - b - 1] == h[|h| - 1];
    }
  }

  lemma KeyIsSecret(keys: seq<Key>, i: nat, h: string, a: nat, b: nat)
    requires a < b <= |h| && IsKeyQuote(h[..a]) && IsLetter(h[a]) && InKey(h[b - 1]) && IsKeyQuote(h[b..])
    requires i < |keys| && Spells(keys[i].words, keys[i].plural, Lower(h[a..b]))
    ensures IsHead(Assignment(keys), h)
  {
    OpeningDrops(h, a);
    assert h[a..][b - a..] == h[b..] && h[a..][..b - a] == h[a..b];
    ClosingDrops(h[a..], b - a);
  }

  lemma SignSeparates(keys: seq<Key>, u: string, g: nat, n: nat)
    requires g < n <= |u| && IsGap(u[..g]) && (u[g] == '=' || u[g] == ':') && IsGap(u[g + 1..n]) && (n < |u| ==> !IsSpace(u[n]))
    ensures SeparatorLength(Assignment(keys), u) == Some(n)
  {
    GapEndsAt(u, g);
    assert u[g + 1..][..n - g - 1] == u[g + 1..n];
    GapEndsAt(u[g + 1..], n - g - 1);
  }

  lemma AssignmentHead(t: string, a: nat, b: nat, c: nat, d: nat, n: nat)
    requires Assigns(t, a, b, c, d, n)
    ensures NoSeparator(t[..c]) && IsSeparator(t[c])
  {
    forall j | 0 <= j < c
      ensures !IsSeparator(t[..c][j])
    {
      assert j < a ==> t[..a][j] == t[j];
      assert j >= b ==> t[b..c][j - b] == t[j];
    }
    assert c < d ==> t[c..d][0] == t[c];
  }

  /** Whatever the case of its letters, with any quotes and blanks: an assignment to a known key is a prefix. */
  lemma KeyIsPrefix(keys: seq<Key>, i: nat, t: string, a: nat, b: nat, c: nat, d: nat, n: nat)
    requires Assigns(t, a, b, c, d, n) && i < |keys| && Spells(keys[i].words, keys[i].plural, Lower(t[a..b]))
    ensures PrefixEnd(Assignment(keys), false, t) == Some(n)
  {
    AssignmentHead(t, a, b, c, d, n);
    AssignmentParts(keys, i, t, a, b, c, d, n);
    PrefixOfParts(Assignment(keys), t, c, n);
  }

  lemma AssignmentParts(keys: seq<Key>, i: nat, t: string, a: nat, b: nat, c: nat, d: nat, n: nat)
    requires Assigns(t, a, b, c, d, n) && i < |keys| && Spells(keys[i].words, keys[i].plural, Lower(t[a..b]))
    ensures IsHead(Assignment(keys), t[..c]) && SeparatorLength(Assignment(keys), t[c..]) == Some(n - c)
  {
    TakenSlices(t, a, b, c);
    KeyIsSecret(keys, i, t[..c], a, b);
    DroppedSlices(t, c, d, n);
    SignSeparates(keys, t[c..], d - c, n - c);
  }

  lemma TakenSlices(t: string, a: nat, b: nat, c: nat)
    requires a <= b <= c <= |t|
    ensures t[..c][..a] == t[..a] && t[..c][b..] == t[b..c] && t[..c][a..b] == t[a..b]
  {
  }

  lemma DroppedSlices(t: string, c: nat, d: nat, n: nat)
    requires c <= d < n <= |t|
    ensures t[c..][..d - c] == t[c..d] && t[c..][d - c + 1..n - c] == t[d + 1..n]
  {
  }

  lemma PrefixOfParts(m: Matcher, t: string, h: nat, n: nat)
    requires 0 < h < |t| && h <= n && NoSeparator(t[..h]) && IsSeparator(t[h])
    requires IsHead(m, t[..h]) && SeparatorLength(m, t[h..]) == Some(n - h)
    ensures PrefixEnd(m, false, t) == Some(n)
  {
    HeadEndsAt(t, h);
    PrefixFromParts(m, t, h, n);
    FoundHereAtOnce(m, t, n);
  }

  lemma FoundHereAtOnce(m: Matcher, s: string, n: nat)
    requires s != "" && PrefixHere(m, s) == Some(n)
    ensures PrefixEnd(m, false, s) == Some(n)
  {
  }

  /** So with such a key, an unquoted value is hidden. */
  lemma AssignedValueIsHidden(keys: seq<Key>, i: nat, prefix: string, v: string, rest: string, a: nat, b: nat, c: nat, d: nat)
    requires Assigns(prefix + (v + rest), a, b, c, d, |prefix|)
    requires i < |keys| && Spells(keys[i].words, keys[i].plural, Lower((prefix + (v + rest))[a..b]))
    requires IsPlainValue(v) && (rest == "" || EndsValue(rest[0]))
    ensures var r := LogRules(Assignment(keys));
            Redact(r, false, prefix + (v + rest)) == prefix + ("[REDACTED]" + Redact(r, IsAlnum(v[|v| - 1]), rest))
  {
    KeyIsPrefix(keys, i, prefix + (v + rest), a, b, c, d, |prefix|);
    PlainValueIsHidden(Assignment(keys), false, prefix, v, rest);
  }

  /** The text begins with a flag, up to `n`: `--`, the key up to `b`, and `=` or blanks. */
  predicate Flags(t: string, b: nat, n: nat) {
    && 2 < b < n <= |t| && t[0] == '-' && t[1] == '-' && IsLetter(t[2]) && (forall j :: 2 <= j < b ==> InKey(t[j]))
    && ((n == b + 1 && t[b] == '=') || (IsGap(t[b..n]) && (n < |t| ==> !IsSpace(t[n]))))
  }

  /** A flag of a known key is a prefix likewise. */
  lemma FlagIsPrefix(keys: seq<Key>, i: nat, t: string, b: nat, n: nat)
    requires Flags(t, b, n) && i < |keys| && Spells(keys[i].words, keys[i].plural, Lower(t[2..b]))
    ensures PrefixEnd(Flag(keys), false, t) == Some(n)
  {
    FlagHead(t, b, n);
    FlagIsHead(keys, i, t, b);
    BlankSeparates(keys, t, b, n);
    PrefixOfParts(Flag(keys), t, b, n);
  }

  lemma FlagHead(t: string, b: nat, n: nat)
    requires Flags(t, b, n)
    ensures NoSeparator(t[..b]) && IsSeparator(t[b])
  {
    assert IsGap(t[b..n]) ==> IsSpace(t[b..n][0]);
  }

  lemma FlagIsHead(keys: seq<Key>, i: nat, t: string, b: nat)
    requires 2 < b <= |t| && t[0] == '-' && t[1] == '-' && IsLetter(t[2])
    requires i < |keys| && Spells(keys[i].words, keys[i].plural, Lower(t[2..b]))
    ensures IsHead(Flag(keys), t[..b])
  {
    assert t[..b][..2] == "--" && t[..b][2..] == t[2..b];
  }

  lemma BlankSeparates(keys: seq<Key>, t: string, b: nat, n: nat)
    requires Flags(t, b, n)
    ensures SeparatorLength(Flag(keys), t[b..]) == Some(n - b)
  {
    if !(n == b + 1 && t[b] == '=') {
      assert t[b..][..n - b] == t[b..n] && t[b..n][0] == t[b];
      GapEndsAt(t[b..], n - b);
    }
  }

  lemma PasswordIsKey(t: string)
    requires |t| >= 13 && t[..13] == "\"PassWord\"\t= " && (13 < |t| ==> !IsSpace(t[13]))
    ensures SECRET_KEYS[5] == Key(["password"], true) && Assigns(t, 1, 9, 10, 11, 13)
    ensures Spells(["password"], true, Lower(t[1..9]))
  {
    assert forall j :: 0 <= j < 13 ==> t[j] == t[..13][j];
    assert t[..1] == "\"" && t[9..10] == "\"" && t[10..11] == "\t" && t[12..13] == " ";
    assert Lower(t[1..9]) == "password";
    assert "password"[|"password"|..] == "";
  }

  /** An example with the program's keys: whatever the password, if it is one unquoted value. */
  lemma PasswordIsHidden(v: string)
    requires IsPlainValue(v) && !IsSpace(v[0])
    ensures Redact(LogRules(Assignment(SECRET_KEYS)), false, "\"PassWord\"\t= " + (v + "")) == "\"PassWord\"\t= " + "[REDACTED]"
  {
    var t := "\"PassWord\"\t= " + (v + "");
    assert t[..13] == "\"PassWord\"\t= " && t[13] == v[0];
    PasswordIsKey(t);
    AssignedValueIsHidden(SECRET_KEYS, 5, "\"PassWord\"\t= ", v, "", 1, 9, 10, 11);
    NothingLeft(Assignment(SECRET_KEYS), IsAlnum(v[|v| - 1]));
    assert "[REDACTED]" + "" == "[REDACTED]";
  }

  lemma NothingLeft(m: Matcher, alnum: bool)
    ensures Redact(LogRules(m), alnum, "") == ""
  {
  }
}
