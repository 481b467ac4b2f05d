/**
  The scanner that finds where a quoted, escaped or bracketed value ends, and the
  proof that it inverts a printer of such values.
*/
module ValueScanner {
  import opened Sequences

  predicate IsQuote(c: char) { c == '"' || c == '\'' }

  predicate IsOpener(c: char) { c == '[' || c == '{' || c == '(' }

  predicate IsCloser(c: char) { c == ']' || c == '}' || c == ')' }

  function Closer(open: char): (c: char)
    requires IsOpener(open)
    ensures IsCloser(c)
  {
    if open == '[' then ']' else if open == '{' then '}' else ')'
  }

  // ---- Where a value ends ---------------------------------------------------------

  /** Outside quotes, inside a quoted string, or inside a string whose quotes are escaped by an outer one. */
  datatype Mode = Plain | Quoted(q: char) | Escaped(q: char)

  /** The first position from `i` on that holds no backslash. */
  function SlashEnd(m: string, i: nat): (end: nat)
    requires i <= |m|
    ensures i <= end <= |m|
    decreases |m| - i
  {
    if i == |m| || m[i] != '\\' then i else SlashEnd(m, i + 1)
  }

  predicate StartsEscaped(m: string, i: nat) {
    i + 1 < |m| && m[i] == '\\' && IsQuote(m[i + 1])
  }

  predicate StartsValue(m: string, i: nat) {
    i < |m| && (IsQuote(m[i]) || IsOpener(m[i]) || StartsEscaped(m, i))
  }

  /** Where the value that starts at `i`, and what encloses it, ends. */
  function Enter(stack: seq<char>, m: string, i: nat): (end: nat)
    requires StartsValue(m, i)
    ensures i < end <= |m|
    decreases |m| - i, 0
  {
    if IsQuote(m[i]) then Scan(Quoted(m[i]), stack, m, i + 1)
    else if IsOpener(m[i]) then Scan(Plain, stack + [Closer(m[i])], m, i + 1)
    else Scan(Escaped(m[i + 1]), stack, m, i + 2)
  }

  /** After a value has ended: done, or on with the value around it. */
  function After(stack: seq<char>, m: string, i: nat): (end: nat)
    requires i <= |m|
    ensures i <= end <= |m|
    decreases |m| - i, 2
  {
    if stack == [] then i else Scan(Plain, stack, m, i)
  }

  /**
    Where every bracket in `stack` (innermost last) and the string of `mode` are closed
    when the scan stands at `i`, or the end of the message.
  */
  function Scan(mode: Mode, stack: seq<char>, m: string, i: nat): (end: nat)
    requires i <= |m| && (mode.Plain? ==> stack != [])
    ensures i <= end <= |m|
    decreases |m| - i, 1
  {
    if i == |m| then |m|
    else match mode
      case Escaped(q) =>
        if m[i] != '\\' then Scan(mode, stack, m, i + 1)
        else
          var end := SlashEnd(m, i + 1);
          if end == |m| || m[end] != q then Scan(mode, stack, m, end)
          else if end == i + 1 then After(stack, m, end + 1)
          else Scan(mode, stack, m, end + 1)
      case Quoted(q) =>
        if m[i] == '\\' then (if i + 2 > |m| then |m| else Scan(mode, stack, m, i + 2))
        else if m[i] == q then After(stack, m, i + 1)
        else Scan(mode, stack, m, i + 1)
      case Plain =>
        if StartsValue(m, i) then Enter(stack, m, i)
        else if m[i] == stack[|stack| - 1] then After(stack[..|stack| - 1], m, i + 1)
        else Scan(Plain, stack, m, i + 1)
  }

  method SlashesEnd(message: string, start: nat) returns (end: nat)
    requires start <= |message|
    ensures end == SlashEnd(message, start)
  {
    end := start;
    while end < |message| && message[end] == '\\'
      invariant start <= end <= |message| && SlashEnd(message, start) == SlashEnd(message, end)
    {
      end := end + 1;
    }
  }

  method EscapedQuotedValueEnd(message: string, start: nat) returns (end: nat)
    requires StartsEscaped(message, start)
    ensures end == Enter([], message, start)
  {
    var quote := message[start + 1];
    var index := start + 2;
    while index < |message|
      invariant start + 2 <= index <= |message|
      invariant Enter([], message, start) == Scan(Escaped(quote), [], message, index)
    {
      if message[index] != '\\' {
        index := index + 1;
        continue;
      }
      var slashEnd := SlashesEnd(message, index + 1);
      if slashEnd < |message| && message[slashEnd] == quote {
        if slashEnd - index == 1 {
          return slashEnd + 1;
        }
        index := slashEnd + 1;
        continue;
      }
      index := slashEnd;
    }
    return |message|;
  }

  function ModeOf(quote: Option<char>, escapedQuote: bool): Mode {
    match quote
    case None => Plain
    case Some(q) => if escapedQuote then Escaped(q) else Quoted(q)
  }

  method StructuredValueEnd(message: string, start: nat) returns (end: nat)
    requires StartsValue(message, start)
    ensures end == Enter([], message, start)
  {
    var opener := message[start];
    if StartsEscaped(message, start) {
      end := EscapedQuotedValueEnd(message, start);
      return;
    }
    if IsQuote(opener) {
      var index := start + 1;
      while index < |message|
        invariant start < index <= |message| + 1
        invariant Enter([], message, start) == if index > |message| then |message| else Scan(Quoted(opener), [], message, index)
      {
        if message[index] == '\\' {
          index := index + 2;
          continue;
        }
        if message[index] == opener {
          return index + 1;
        }
        index := index + 1;
      }
      return |message|;
    }
    end := BracketedValueEnd(message, start);
  }

  method BracketedValueEnd(message: string, start: nat) returns (end: nat)
    requires start < |message| && IsOpener(message[start])
    ensures end == Enter([], message, start)
  {
    var stack := [Closer(message[start])];
    var quote: Option<char> := None;
    var escapedQuote := false;
    var index := start + 1;
    assert [] + stack == stack;
    while index < |message|
      invariant start < index <= |message| + 1 && stack != []
      invariant Enter([], message, start)
                == if index > |message| then |message| else Scan(ModeOf(quote, escapedQuote), stack, message, index)
      invariant quote.None? ==> !escapedQuote
    {
      var c := message[index];
      if quote.Some? {
        if escapedQuote && c == '\\' {
          var slashEnd := SlashesEnd(message, index + 1);
          if slashEnd < |message| && message[slashEnd] == quote.value {
            if slashEnd - index == 1 {
              quote, escapedQuote := None, false;
            }
            index := slashEnd + 1;
            continue;
          }
          index := slashEnd;
          continue;
        }
        if !escapedQuote && c == '\\' {
          index := index + 2;
          continue;
        }
        if !escapedQuote && c == quote.value {
          quote := None;
        }
      } else if c == '\\' && index + 1 < |message| && IsQuote(message[index + 1]) {
        quote, escapedQuote := Some(message[index + 1]), true;
        index := index + 2;
        continue;
      } else if IsQuote(c) {
        quote := Some(c);
      } else if IsOpener(c) {
        stack := stack + [Closer(c)];
      } else if c == stack[|stack| - 1] {
        stack := stack[..|stack| - 1];
        if stack == [] {
          return index + 1;
        }
      }
      index := index + 1;
    }
    return |message|;
  }

  // ---- The printer the scanner inverts ------------------------------------------------

  datatype Token = Char(c: char) | Backslash(c: char)

  /** One character of an escaped string, with the backslashes before it. */
  datatype Run = Run(slashes: nat, c: char)

  datatype Value =
    | Str(q: char, tokens: seq<Token>)
    | EscapedStr(q: char, runs: seq<Run>)
    | Group(open: char, items: Items)

  datatype Items = End | Text(c: char, rest: Items) | Nested(value: Value, rest: Items)

  predicate TokenOk(q: char, t: Token) {
    t.Char? ==> t.c != q && t.c != '\\'
  }

  /** In an escaped string, exactly one backslash before the quote would close it. */
  predicate RunOk(q: char, r: Run) {
    r.c != '\\' && (r.slashes == 1 ==> r.c != q)
  }

  predicate ValueOk(v: Value)
    decreases v
  {
    match v
    case Str(q, tokens) => IsQuote(q) && forall t :: t in tokens ==> TokenOk(q, t)
    case EscapedStr(q, runs) => IsQuote(q) && forall r :: r in runs ==> RunOk(q, r)
    case Group(open, items) => IsOpener(open) && ItemsOk(Closer(open), items)
  }

  /** Text between values; a backslash must not meet the quote of the next string. */
  predicate ItemsOk(close: char, items: Items)
    decreases items
  {
    match items
    case End => true
    case Text(c, rest) =>
      && !IsQuote(c) && !IsOpener(c) && c != close
      && !(c == '\\' && rest.Nested? && rest.value.Str?)
      && ItemsOk(close, rest)
    case Nested(v, rest) => ValueOk(v) && ItemsOk(close, rest)
  }

  function PrintTokens(tokens: seq<Token>): string {
    if tokens == [] then ""
    else (if tokens[0].Char? then [tokens[0].c] else ['\\', tokens[0].c]) + PrintTokens(tokens[1..])
  }

  function Backslashes(n: nat): (s: string)
    ensures |s| == n && forall i :: 0 <= i < n ==> s[i] == '\\'
  {
    seq(n, i => '\\')
  }

  function PrintRuns(runs: seq<Run>): string {
    if runs == [] then "" else Backslashes(runs[0].slashes) + [runs[0].c] + PrintRuns(runs[1..])
  }

  function Print(v: Value): string
    requires ValueOk(v)
    decreases v
  {
    match v
    case Str(q, tokens) => [q] + PrintTokens(tokens) + [q]
    case EscapedStr(q, runs) => ['\\', q] + PrintRuns(runs) + ['\\', q]
    case Group(open, items) => [open] + PrintItems(Closer(open), items) + [Closer(open)]
  }

  function PrintItems(close: char, items: Items): string
    requires ItemsOk(close, items)
    decreases items
  {
    match items
    case End => ""
    case Text(c, rest) => [c] + PrintItems(close, rest)
    case Nested(v, rest) => Print(v) + PrintItems(close, rest)
  }

  /** The text stands at position `i` of the message. */
  ghost predicate At(m: string, i: nat, text: string) {
    i + |text| <= |m| && forall j :: 0 <= j < |text| ==> m[i + j] == text[j]
  }

  lemma AtPoint(m: string, i: nat, text: string, j: nat)
    requires At(m, i, text) && j < |text|
    ensures m[i + j] == text[j]
  {
  }

  lemma AtParts(m: string, i: nat, a: string, b: string)
    requires At(m, i, a + b)
    ensures At(m, i, a) && At(m, i + |a|, b)
  {
    forall j | 0 <= j < |a|
      ensures m[i + j] == a[j]
    {
      assert (a + b)[j] == a[j];
    }
    forall j | 0 <= j < |b|
      ensures m[i + |a| + j] == b[j]
    {
      assert m[i + (|a| + j)] == (a + b)[|a| + j];
    }
  }

  lemma {:induction false} ScanTokens(q: char, tokens: seq<Token>, stack: seq<char>, m: string, i: nat)
    requires IsQuote(q) && (forall t :: t in tokens ==> TokenOk(q, t))
    requires At(m, i, PrintTokens(tokens) + [q])
    ensures Scan(Quoted(q), stack, m, i) == After(stack, m, i + |PrintTokens(tokens)| + 1)
  {
    AtParts(m, i, PrintTokens(tokens), [q]);
    if tokens == [] {
      AtPoint(m, i, [q], 0);
    } else {
      var t, rest := tokens[0], PrintTokens(tokens[1..]);
      var first := if t.Char? then [t.c] else ['\\', t.c];
      assert t in tokens && PrintTokens(tokens) + [q] == first + (rest + [q]);
      AtParts(m, i, first, rest + [q]);
      AtPoint(m, i, first, 0);
      if !t.Char? {
        AtPoint(m, i, first, 1);
      }
      ScanTokens(q, tokens[1..], stack, m, i + |first|);
    }
  }

  lemma {:induction false} SlashesEndAt(m: string, i: nat, n: nat)
    requires i + n <= |m| && (forall k :: i <= k < i + n ==> m[k] == '\\') && (i + n < |m| ==> m[i + n] != '\\')
    ensures SlashEnd(m, i) == i + n
    decreases n
  {
    if n > 0 {
      SlashesEndAt(m, i + 1, n - 1);
    }
  }

  lemma ScanRun(q: char, r: Run, stack: seq<char>, m: string, i: nat)
    requires RunOk(q, r) && At(m, i, Backslashes(r.slashes) + [r.c])
    ensures Scan(Escaped(q), stack, m, i) == Scan(Escaped(q), stack, m, i + r.slashes + 1)
  {
    var n := r.slashes;
    AtParts(m, i, Backslashes(n), [r.c]);
    AtPoint(m, i + n, [r.c], 0);
    forall k | i <= k < i + n
      ensures m[k] == '\\'
    {
      AtPoint(m, i, Backslashes(n), k - i);
    }
    if n > 0 {
      SlashesEndAt(m, i, n);
      assert SlashEnd(m, i) == SlashEnd(m, i + 1);
    }
  }

  lemma {:induction false} ScanRuns(q: char, runs: seq<Run>, stack: seq<char>, m: string, i: nat)
    requires IsQuote(q) && (forall r :: r in runs ==> RunOk(q, r))
    requires At(m, i, PrintRuns(runs) + ['\\', q])
    ensures Scan(Escaped(q), stack, m, i) == After(stack, m, i + |PrintRuns(runs)| + 2)
  {
    AtParts(m, i, PrintRuns(runs), ['\\', q]);
    if runs == [] {
      AtPoint(m, i, ['\\', q], 0);
      AtPoint(m, i, ['\\', q], 1);
      assert SlashEnd(m, i + 1) == i + 1;
    } else {
      var r, rest := runs[0], PrintRuns(runs[1..]);
      var first := Backslashes(r.slashes) + [r.c];
      assert r in runs && PrintRuns(runs) + ['\\', q] == first + (rest + ['\\', q]);
      AtParts(m, i, first, rest + ['\\', q]);
      ScanRun(q, r, stack, m, i);
      ScanRuns(q, runs[1..], stack, m, i + |first|);
    }
  }

  lemma StrPrinted(q: char, tokens: seq<Token>, stack: seq<char>, m: string, i: nat)
    requires ValueOk(Str(q, tokens)) && At(m, i, Print(Str(q, tokens)))
    ensures StartsValue(m, i) && Enter(stack, m, i) == After(stack, m, i + |Print(Str(q, tokens))|)
  {
    assert Print(Str(q, tokens)) == [q] + (PrintTokens(tokens) + [q]);
    AtParts(m, i, [q], PrintTokens(tokens) + [q]);
    AtPoint(m, i, [q], 0);
    ScanTokens(q, tokens, stack, m, i + 1);
  }

  lemma EscapedPrinted(q: char, runs: seq<Run>, stack: seq<char>, m: string, i: nat)
    requires ValueOk(EscapedStr(q, runs)) && At(m, i, Print(EscapedStr(q, runs)))
    ensures StartsValue(m, i) && Enter(stack, m, i) == After(stack, m, i + |Print(EscapedStr(q, runs))|)
  {
    assert Print(EscapedStr(q, runs)) == ['\\', q] + (PrintRuns(runs) + ['\\', q]);
    AtParts(m, i, ['\\', q], PrintRuns(runs) + ['\\', q]);
    AtPoint(m, i, ['\\', q], 0);
    AtPoint(m, i, ['\\', q], 1);
    ScanRuns(q, runs, stack, m, i + 2);
  }

  /**
    The scanner reads back what the printer wrote: at the start of a printed value,
    whatever text follows it, the scan ends exactly where the value does.
  */
  lemma {:induction false} ScanInvertsPrint(v: Value, stack: seq<char>, m: string, i: nat)
    requires ValueOk(v) && At(m, i, Print(v))
    ensures StartsValue(m, i) && Enter(stack, m, i) == After(stack, m, i + |Print(v)|)
    decreases v
  {
    match v
    case Str(q, tokens) => StrPrinted(q, tokens, stack, m, i);
    case EscapedStr(q, runs) => EscapedPrinted(q, runs, stack, m, i);
    case Group(open, items) =>
      assert Print(v) == [open] + (PrintItems(Closer(open), items) + [Closer(open)]);
      AtParts(m, i, [open], PrintItems(Closer(open), items) + [Closer(open)]);
      AtPoint(m, i, [open], 0);
      ScanItems(Closer(open), items, stack, m, i + 1);
  }

  lemma {:induction false} ScanItems(close: char, items: Items, stack: seq<char>, m: string, i: nat)
    requires ItemsOk(close, items) && IsCloser(close) && At(m, i, PrintItems(close, items) + [close])
    ensures Scan(Plain, stack + [close], m, i) == After(stack, m, i + |PrintItems(close, items)| + 1)
    decreases items
  {
    var inner := stack + [close];
    assert inner[..|inner| - 1] == stack;
    match items
    case End =>
      assert PrintItems(close, items) + [close] == [close];
      AtPoint(m, i, [close], 0);
    case Text(c, more) =>
      var tail := PrintItems(close, more) + [close];
      assert PrintItems(close, items) + [close] == [c] + tail;
      AtParts(m, i, [c], tail);
      AtPoint(m, i, [c], 0);
      AtPoint(m, i + 1, tail, 0);
      if c == '\\' {
        NotAQuote(close, more);
      }
      ScanItems(close, more, stack, m, i + 1);
    case Nested(v, more) =>
      var tail := PrintItems(close, more) + [close];
      assert PrintItems(close, items) + [close] == Print(v) + tail;
      AtParts(m, i, Print(v), tail);
      ScanInvertsPrint(v, inner, m, i);
      ScanItems(close, more, stack, m, i + |Print(v)|);
  }

  lemma NotAQuote(close: char, items: Items)
    requires ItemsOk(close, items) && IsCloser(close) && !(items.Nested? && items.value.Str?)
    ensures !IsQuote((PrintItems(close, items) + [close])[0])
  {
  }

  /** Moving a message to the right moves the end of its values along. */
  ghost predicate Suffix(m: string, k: nat, s: string) {
    k + |s| == |m| && forall j :: 0 <= j < |s| ==> m[k + j] == s[j]
  }

  lemma {:induction false} SlashEndShifts(m: string, k: nat, s: string, i: nat)
    requires Suffix(m, k, s) && i <= |s|
    ensures SlashEnd(m, k + i) == k + SlashEnd(s, i)
    decreases |s| - i
  {
    if i < |s| && s[i] == '\\' {
      SlashEndShifts(m, k, s, i + 1);
    }
  }

  lemma StartShifts(m: string, k: nat, s: string, i: nat)
    requires Suffix(m, k, s)
    ensures StartsValue(m, k + i) == StartsValue(s, i) && StartsEscaped(m, k + i) == StartsEscaped(s, i)
  {
    if i + 1 < |s| {
      assert m[k + i] == s[i] && m[k + (i + 1)] == s[i + 1];
    } else if i < |s| {
      assert m[k + i] == s[i];
    }
  }

  lemma {:induction false} EnterShifts(stack: seq<char>, m: string, k: nat, s: string, i: nat)
    requires Suffix(m, k, s) && StartsValue(s, i)
    ensures StartsValue(m, k + i) && Enter(stack, m, k + i) == k + Enter(stack, s, i)
    decreases |s| - i, 0
  {
    StartShifts(m, k, s, i);
    assert m[k + i] == s[i];
    if IsQuote(s[i]) {
      ScanShifts(Quoted(s[i]), stack, m, k, s, i + 1);
    } else if IsOpener(s[i]) {
      ScanShifts(Plain, stack + [Closer(s[i])], m, k, s, i + 1);
    } else {
      assert m[k + (i + 1)] == s[i + 1];
      ScanShifts(Escaped(s[i + 1]), stack, m, k, s, i + 2);
    }
  }

  lemma {:induction false} AfterShifts(stack: seq<char>, m: string, k: nat, s: string, i: nat)
    requires Suffix(m, k, s) && i <= |s|
    ensures After(stack, m, k + i) == k + After(stack, s, i)
    decreases |s| - i, 2
  {
    if stack != [] {
      ScanShifts(Plain, stack, m, k, s, i);
    }
  }

  lemma {:induction false} ScanShifts(mode: Mode, stack: seq<char>, m: string, k: nat, s: string, i: nat)
    requires Suffix(m, k, s) && i <= |s| && (mode.Plain? ==> stack != [])
    ensures Scan(mode, stack, m, k + i) == k + Scan(mode, stack, s, i)
    decreases |s| - i, 1
  {
    if i < |s| {
      assert m[k + i] == s[i];
      match mode
      case Escaped(q) => EscapedShifts(q, stack, m, k, s, i);
      case Quoted(q) =>
        if s[i] == '\\' {
          if i + 2 <= |s| {
            ScanShifts(mode, stack, m, k, s, i + 2);
          }
        } else if s[i] == q {
          AfterShifts(stack, m, k, s, i + 1);
        } else {
          ScanShifts(mode, stack, m, k, s, i + 1);
        }
      case Plain =>
        StartShifts(m, k, s, i);
        if StartsValue(s, i) {
          EnterShifts(stack, m, k, s, i);
        } else if s[i] == stack[|stack| - 1] {
          AfterShifts(stack[..|stack| - 1], m, k, s, i + 1);
        } else {
          ScanShifts(Plain, stack, m, k, s, i + 1);
        }
    }
  }

  lemma {:induction false} EscapedShifts(q: char, stack: seq<char>, m: string, k: nat, s: string, i: nat)
    requires Suffix(m, k, s) && i < |s|
    ensures Scan(Escaped(q), stack, m, k + i) == k + Scan(Escaped(q), stack, s, i)
    decreases |s| - i, 0
  {
    assert m[k + i] == s[i];
    if s[i] != '\\' {
      ScanShifts(Escaped(q), stack, m, k, s, i + 1);
    } else {
      SlashEndShifts(m, k, s, i + 1);
      var end := SlashEnd(s, i + 1);
      if end == |s| {
        ScanShifts(Escaped(q), stack, m, k, s, end);
      } else {
        assert m[k + end] == s[end];
        if s[end] != q {
          ScanShifts(Escaped(q), stack, m, k, s, end);
        } else if end == i + 1 {
          AfterShifts(stack, m, k, s, end + 1);
        } else {
          ScanShifts(Escaped(q), stack, m, k, s, end + 1);
        }
      }
    }
  }

  // ---- What a value ends in -----------------------------------------------------------------

  predicate IsMark(c: char) { IsQuote(c) || IsCloser(c) }

  ghost predicate Closers(stack: seq<char>) {
    forall c :: c in stack ==> IsCloser(c)
  }

  /** A value that ends before the message does ends in a quote or a bracket. */
  lemma {:induction false} ScanEndsInMark(mode: Mode, stack: seq<char>, m: string, i: nat)
    requires i <= |m| && (mode.Plain? ==> stack != []) && (mode.Plain? || IsQuote(mode.q)) && Closers(stack)
    requires Scan(mode, stack, m, i) < |m|
    ensures i < Scan(mode, stack, m, i) && IsMark(m[Scan(mode, stack, m, i) - 1])
    decreases |m| - i, 1
  {
    match mode
    case Escaped(q) => EscapedEndsInMark(q, stack, m, i);
    case Quoted(q) =>
      if m[i] == '\\' {
        ScanEndsInMark(mode, stack, m, i + 2);
      } else if m[i] == q {
        AfterEndsInMark(stack, m, i + 1);
      } else {
        ScanEndsInMark(mode, stack, m, i + 1);
      }
    case Plain =>
      if StartsValue(m, i) {
        EnterEndsInMark(stack, m, i);
      } else if m[i] == stack[|stack| - 1] {
        assert m[i] in stack;
        AfterEndsInMark(stack[..|stack| - 1], m, i + 1);
      } else {
        ScanEndsInMark(Plain, stack, m, i + 1);
      }
  }

  lemma {:induction false} EscapedEndsInMark(q: char, stack: seq<char>, m: string, i: nat)
    requires i <= |m| && IsQuote(q) && Closers(stack) && Scan(Escaped(q), stack, m, i) < |m|
    ensures i < Scan(Escaped(q), stack, m, i) && IsMark(m[Scan(Escaped(q), stack, m, i) - 1])
    decreases |m| - i, 0
  {
    if m[i] != '\\' {
      ScanEndsInMark(Escaped(q), stack, m, i + 1);
    } else {
      var end := SlashEnd(m, i + 1);
      if m[end] != q {
        ScanEndsInMark(Escaped(q), stack, m, end);
      } else if end == i + 1 {
        AfterEndsInMark(stack, m, end + 1);
      } else {
        ScanEndsInMark(Escaped(q), stack, m, end + 1);
      }
    }
  }

  lemma {:induction false} AfterEndsInMark(stack: seq<char>, m: string, i: nat)
    requires 0 < i <= |m| && Closers(stack) && After(stack, m, i) < |m| && IsMark(m[i - 1])
    ensures IsMark(m[After(stack, m, i) - 1])
    decreases |m| - i, 2
  {
    if stack != [] {
      ScanEndsInMark(Plain, stack, m, i);
    }
  }

  lemma {:induction false} EnterEndsInMark(stack: seq<char>, m: string, i: nat)
    requires StartsValue(m, i) && Closers(stack) && Enter(stack, m, i) < |m|
    ensures IsMark(m[Enter(stack, m, i) - 1])
    decreases |m| - i, 0
  {
    if IsQuote(m[i]) {
      ScanEndsInMark(Quoted(m[i]), stack, m, i + 1);
    } else if IsOpener(m[i]) {
      ScanEndsInMark(Plain, stack + [Closer(m[i])], m, i + 1);
    } else {
      ScanEndsInMark(Escaped(m[i + 1]), stack, m, i + 2);
    }
  }
}
