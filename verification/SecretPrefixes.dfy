/**
  The prefixes of secret values that log redaction recognizes: where the leftmost one
  in a text ends, and that the text after it has no say in that.
*/
module SecretPrefixes {
  import opened PrefixPass
  import opened Sequences
  import opened ValueScanner

  // ---- Which text is a recognized prefix ------------------------------------------------

  /** Words that may be joined by `_` or `-`; a `plural` key may also end in `s`. */
  datatype Key = Key(words: seq<string>, plural: bool)

  /** `key: value` and `key=value` assignments, and `--key value` command-line flags. */
  datatype Matcher = Assignment(keys: seq<Key>) | Flag(keys: seq<Key>)

  predicate IsSeparator(c: char) { IsSpace(c) || c == ':' || c == '=' }

  function LowerChar(c: char): char {
    if 'A' <= c <= 'Z' then c - 'A' + 'a'
    else if c == '\U{130}' || c == '\U{131}' then 'i'
    else if c == '\U{17F}' then 's'
    else if c == '\U{212A}' then 'k'
    else c
  }

  function Lower(s: string): string {
    seq(|s|, i requires 0 <= i < |s| => LowerChar(s[i]))
  }

  predicate Spells(words: seq<string>, plural: bool, s: string) {
    if words == [] then s == "" || (plural && s == "s")
    else
      && words[0] <= s
      && var rest := s[|words[0]|..];
         || Spells(words[1..], plural, rest)
         || (|words| > 1 && rest != "" && rest[0] in "_-" && Spells(words[1..], plural, rest[1..]))
  }

  predicate IsSecretKey(keys: seq<Key>, s: string) {
    s != "" && IsLetter(s[0]) && exists i :: 0 <= i < |keys| && Spells(keys[i].words, keys[i].plural, Lower(s))
  }

  /** `s` without an opening, possibly escaped, quote. */
  function DropOpeningQuote(s: string): string {
    if StartsEscaped(s, 0) then s[2..] else if s != "" && IsQuote(s[0]) then s[1..] else s
  }

  function DropClosingQuote(s: string): string {
    if s == "" || !IsQuote(s[|s| - 1]) then s
    else if |s| > 1 && s[|s| - 2] == '\\' then s[..|s| - 2]
    else s[..|s| - 1]
  }

  /** The part of a prefix before its separator. */
  predicate IsHead(m: Matcher, h: string) {
    match m
    case Assignment(keys) => IsSecretKey(keys, DropClosingQuote(DropOpeningQuote(h)))
    case Flag(keys) => |h| > 2 && h[..2] == "--" && IsSecretKey(keys, h[2..])
  }

  /** The length of the text before the first separator. */
  function HeadLength(s: string): (n: nat)
    ensures n <= |s| && (n < |s| ==> IsSeparator(s[n]))
  {
    if s == "" || IsSeparator(s[0]) then 0 else 1 + HeadLength(s[1..])
  }

  function Spaces(s: string): (n: nat)
    ensures n <= |s| && (n < |s| ==> !IsSpace(s[n]))
  {
    if s == "" || !IsSpace(s[0]) then 0 else 1 + Spaces(s[1..])
  }

  /** The length of the separator at the start of `s`. */
  function SeparatorLength(m: Matcher, s: string): (n: Option<nat>)
    ensures n.Some? ==> 0 < n.value <= |s|
  {
    match m
    case Assignment(_) =>
      var k := Spaces(s);
      if k < |s| && (s[k] == ':' || s[k] == '=') then Some(k + 1 + Spaces(s[k + 1..])) else None
    case Flag(_) =>
      if s == "" then None
      else if s[0] == '=' then Some(1)
      else if IsSpace(s[0]) then Some(Spaces(s))
      else None
  }

  /** The length of the prefix at the very start of `s`. */
  function PrefixHere(m: Matcher, s: string): (n: Option<nat>)
    ensures n.Some? ==> 0 < n.value <= |s|
  {
    var h := HeadLength(s);
    if !IsHead(m, s[..h]) then None
    else match SeparatorLength(m, s[h..])
      case None => None
      case Some(k) => Some(h + k)
  }

  /**
    Where the leftmost prefix in `s` ends. No prefix starts right after a letter or
    digit; `alnum` says whether one stands before `s`.
  */
  function PrefixEnd(m: Matcher, alnum: bool, s: string): (n: Option<nat>)
    ensures n.Some? ==> 0 < n.value <= |s|
    decreases |s|
  {
    if s == "" then None
    else if !alnum && PrefixHere(m, s).Some? then PrefixHere(m, s)
    else match PrefixEnd(m, IsAlnum(s[0]), s[1..])
      case None => None
      case Some(n) => Some(n + 1)
  }

  // ---- Matches are leftmost and local ------------------------------------------------------

  /** A prefix starts at position `i` of `s`. */
  predicate PrefixAt(m: Matcher, alnum: bool, s: string, i: nat)
    requires i < |s|
  {
    !(if i == 0 then alnum else IsAlnum(s[i - 1])) && PrefixHere(m, s[i..]).Some?
  }

  /** The search finds the leftmost place where a prefix starts, if there is one. */
  lemma {:induction false} SearchIsLeftmost(m: Matcher, alnum: bool, s: string)
    ensures PrefixEnd(m, alnum, s).None? ==> forall i :: 0 <= i < |s| ==> !PrefixAt(m, alnum, s, i)
    ensures PrefixEnd(m, alnum, s).Some? ==>
              exists i :: 0 <= i < |s| && PrefixAt(m, alnum, s, i)
                          && PrefixEnd(m, alnum, s).value == i + PrefixHere(m, s[i..]).value
                          && forall j :: 0 <= j < i ==> !PrefixAt(m, alnum, s, j)
    decreases |s|
  {
    if s != "" {
      var rest, before := s[1..], IsAlnum(s[0]);
      assert s[0..] == s;
      SearchIsLeftmost(m, before, rest);
      forall i | 0 < i < |s|
        ensures PrefixAt(m, alnum, s, i) == PrefixAt(m, before, rest, i - 1) && s[i..] == rest[i - 1..]
      {
        assert s[i..] == rest[i - 1..];
      }
      if !PrefixAt(m, alnum, s, 0) && PrefixEnd(m, before, rest).Some? {
        var k :| 0 <= k < |rest| && PrefixAt(m, before, rest, k)
                 && PrefixEnd(m, before, rest).value == k + PrefixHere(m, rest[k..]).value
                 && forall j :: 0 <= j < k ==> !PrefixAt(m, before, rest, j);
        assert PrefixAt(m, alnum, s, k + 1) && s[k + 1..] == rest[k..];
        forall j | 0 <= j < k + 1
          ensures !PrefixAt(m, alnum, s, j)
        {
          if j > 0 {
            assert !PrefixAt(m, before, rest, j - 1);
          }
        }
      }
    }
  }

  predicate Decides(m: Matcher, c: char) {
    match m
    case Assignment(_) => c == ':' || c == '='
    case Flag(_) => IsSeparator(c)
  }

  /** Every prefix contains the character that decides whether its separator is one. */
  lemma PrefixHasMark(m: Matcher, s: string)
    requires PrefixHere(m, s).Some?
    ensures exists p :: 0 <= p < PrefixHere(m, s).value && Decides(m, s[p])
  {
    var h := HeadLength(s);
    var u := s[h..];
    var p := if m.Assignment? then h + Spaces(u) else h;
    assert s[p] == u[p - h] && Decides(m, s[p]);
  }

  /** Two texts that agree up to position `n`. */
  ghost predicate Agree(s: string, t: string, n: nat) {
    n <= |s| && n <= |t| && s[..n] == t[..n]
  }

  lemma AgreeFrom(s: string, t: string, n: nat, k: nat)
    requires Agree(s, t, n) && k <= n
    ensures Agree(s[k..], t[k..], n - k) && s[..k] == t[..k] && (k < n ==> s[k] == t[k])
  {
    assert s[k..][..n - k] == s[..n][k..] && t[k..][..n - k] == t[..n][k..];
    assert s[..k] == s[..n][..k] && t[..k] == t[..n][..k];
    if k < n {
      assert s[k] == s[..n][k] && t[k] == t[..n][k];
    }
  }

  /** No space follows in `t` unless one follows in `s`. */
  ghost predicate AddsNoSpace(s: string, t: string, n: nat) {
    n < |t| && IsSpace(t[n]) ==> n < |s| && IsSpace(s[n])
  }

  lemma {:induction false} HeadLocal(s: string, t: string, n: nat, p: nat)
    requires Agree(s, t, n) && p < n && IsSeparator(s[p])
    ensures HeadLength(s) == HeadLength(t) <= p
  {
    AgreeFrom(s, t, n, 0);
    if !IsSeparator(s[0]) {
      AgreeFrom(s, t, n, 1);
      HeadLocal(s[1..], t[1..], n - 1, p - 1);
    }
  }

  lemma {:induction false} SpacesLocal(s: string, t: string, n: nat, p: nat)
    requires Agree(s, t, n) && p < n && !IsSpace(s[p])
    ensures Spaces(s) == Spaces(t) <= p
  {
    AgreeFrom(s, t, n, 0);
    if IsSpace(s[0]) {
      AgreeFrom(s, t, n, 1);
      SpacesLocal(s[1..], t[1..], n - 1, p - 1);
    }
  }

  /** Whether a prefix starts here is settled by the text up to any deciding character. */
  lemma PrefixLocal(m: Matcher, s: string, t: string, n: nat, p: nat)
    requires Agree(s, t, n) && p < n && Decides(m, s[p])
    ensures PrefixHere(m, s).Some? == PrefixHere(m, t).Some?
  {
    HeadLocal(s, t, n, p);
    var h := HeadLength(s);
    AgreeFrom(s, t, n, h);
    SeparatorLocal(m, s[h..], t[h..], n - h, p - h);
  }

  lemma SeparatorLocal(m: Matcher, u: string, v: string, n: nat, p: nat)
    requires Agree(u, v, n) && p < n && Decides(m, u[p])
    ensures SeparatorLength(m, u).Some? == SeparatorLength(m, v).Some?
  {
    AgreeFrom(u, v, n, 0);
    if m.Assignment? {
      SpacesLocal(u, v, n, p);
      AgreeFrom(u, v, n, Spaces(u));
    }
  }

  lemma {:induction false} SpacesStay(s: string, t: string, n: nat)
    requires Spaces(s) == n && Agree(s, t, n) && AddsNoSpace(s, t, n)
    ensures Spaces(t) == n
  {
    if n > 0 {
      AgreeFrom(s, t, n, 0);
      AgreeFrom(s, t, n, 1);
      SpacesStay(s[1..], t[1..], n - 1);
    }
  }

  lemma SeparatorStays(m: Matcher, u: string, v: string, n: nat)
    requires SeparatorLength(m, u) == Some(n) && Agree(u, v, n) && AddsNoSpace(u, v, n)
    ensures SeparatorLength(m, v) == Some(n)
  {
    AgreeFrom(u, v, n, 0);
    if m.Assignment? {
      var k := Spaces(u);
      SpacesLocal(u, v, n, k);
      AgreeFrom(u, v, n, k);
      AgreeFrom(u, v, n, k + 1);
      SpacesStay(u[k + 1..], v[k + 1..], n - k - 1);
    } else if u[0] != '=' {
      SpacesStay(u, v, n);
    }
  }

  lemma PrefixParts(m: Matcher, s: string, n: nat)
    requires PrefixHere(m, s) == Some(n)
    ensures var h := HeadLength(s); h < n <= |s| && IsSeparator(s[h]) && IsHead(m, s[..h]) && SeparatorLength(m, s[h..]) == Some(n - h)
  {
  }

  lemma PrefixFromParts(m: Matcher, t: string, h: nat, n: nat)
    requires h == HeadLength(t) <= n && IsHead(m, t[..h]) && SeparatorLength(m, t[h..]) == Some(n - h)
    ensures PrefixHere(m, t) == Some(n)
  {
    var k := n - h;
    assert SeparatorLength(m, t[HeadLength(t)..]) == Some(k);
  }

  lemma AddsNoSpaceFrom(s: string, t: string, n: nat, h: nat)
    requires AddsNoSpace(s, t, n) && h <= n <= |s| && n <= |t|
    ensures AddsNoSpace(s[h..], t[h..], n - h)
  {
    assert n < |t| ==> t[h..][n - h] == t[n];
    assert n < |s| ==> s[h..][n - h] == s[n];
  }

  lemma PrefixStays(m: Matcher, s: string, t: string, n: nat)
    requires PrefixHere(m, s) == Some(n) && Agree(s, t, n) && AddsNoSpace(s, t, n)
    ensures PrefixHere(m, t) == Some(n)
  {
    var h := HeadLength(s);
    PrefixParts(m, s, n);
    HeadLocal(s, t, n, h);
    AgreeFrom(s, t, n, h);
    AddsNoSpaceFrom(s, t, n, h);
    SeparatorStays(m, s[h..], t[h..], n - h);
    PrefixFromParts(m, t, h, n);
  }

  /** Every match has a deciding character inside. */
  lemma {:induction false} SearchHasMark(m: Matcher, alnum: bool, s: string)
    requires PrefixEnd(m, alnum, s).Some?
    ensures exists p :: 0 <= p < PrefixEnd(m, alnum, s).value && Decides(m, s[p])
    decreases |s|
  {
    if !alnum && PrefixHere(m, s).Some? {
      PrefixHasMark(m, s);
    } else {
      SearchHasMark(m, IsAlnum(s[0]), s[1..]);
      var p :| 0 <= p < PrefixEnd(m, IsAlnum(s[0]), s[1..]).value && Decides(m, s[1..][p]);
      assert Decides(m, s[p + 1]);
    }
  }

  /** Where no prefix starts, none starts when the text after a later match changes. */
  lemma NoneHere(m: Matcher, alnum: bool, s: string, t: string, n: nat)
    requires PrefixEnd(m, alnum, s) == Some(n) && Agree(s, t, n) && PrefixHere(m, s).None?
    ensures PrefixHere(m, t).None?
  {
    SearchHasMark(m, alnum, s);
    var p :| 0 <= p < n && Decides(m, s[p]);
    PrefixLocal(m, s, t, n, p);
  }

  /** Other text after a match, unless it begins with a space, leaves the match where it is. */
  lemma {:induction false} SearchStays(m: Matcher, alnum: bool, s: string, t: string, n: nat)
    requires PrefixEnd(m, alnum, s) == Some(n) && Agree(s, t, n) && AddsNoSpace(s, t, n)
    ensures PrefixEnd(m, alnum, t) == Some(n)
    decreases |s|
  {
    if !alnum && PrefixHere(m, s).Some? {
      PrefixStays(m, s, t, n);
      FoundHere(m, t, n);
    } else {
      if !alnum {
        NoneHere(m, alnum, s, t, n);
      }
      AgreeFrom(s, t, n, 0);
      AgreeFrom(s, t, n, 1);
      SearchStays(m, IsAlnum(s[0]), s[1..], t[1..], n - 1);
      FoundLater(m, alnum, t, n - 1);
    }
  }

  lemma FoundHere(m: Matcher, t: string, n: nat)
    requires PrefixHere(m, t) == Some(n)
    ensures PrefixEnd(m, false, t) == Some(n)
  {
  }

  lemma FoundLater(m: Matcher, alnum: bool, t: string, n: nat)
    requires t != "" && (alnum || PrefixHere(m, t).None?) && PrefixEnd(m, IsAlnum(t[0]), t[1..]) == Some(n)
    ensures PrefixEnd(m, alnum, t) == Some(n + 1)
  {
  }

  lemma HeadStart(m: Matcher, h: string)
    requires IsHead(m, h)
    ensures h != "" && !IsStop(h[0])
  {
    if m.Assignment? {
      var k := DropOpeningQuote(h);
      assert DropClosingQuote(k) <= k;
    }
  }

  /** No prefix starts at a character that ends an unquoted value. */
  lemma NoPrefixAtStop(m: Matcher, s: string)
    requires AtStop(s)
    ensures PrefixHere(m, s).None?
  {
    var h := HeadLength(s);
    if IsHead(m, s[..h]) {
      HeadStart(m, s[..h]);
    }
  }
}
