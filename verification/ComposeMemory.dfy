/**
  What the output reader remembers, as a function of what it read: the failure signals,
  and the last lines. The rendering of this bounded memory never hides the failure
  class of the whole text.
*/
module ComposeMemory {
  import opened ComposeFailures
  import opened ComposeLines

  const TAIL_LINES: nat := 200
  const LINE_CHARS: nat := 4000
  const RETAINED_CHARS: nat := 3988

  function Marker(): (s: string)
    ensures |s| == LINE_CHARS - RETAINED_CHARS
    ensures forall c :: c in s ==> !IsBreak(c)
  {
    " [truncated]"
  }

  // ---- What is remembered ------------------------------------------------------------------

  /** A line with the part beyond the bound replaced by a marker. */
  function Truncated(line: string): (r: string)
    ensures |r| <= LINE_CHARS
  {
    if |line| > RETAINED_CHARS then line[..RETAINED_CHARS] + Marker() else line
  }

  /** A redacted line, bounded again because redaction may lengthen it. */
  function Safe(redact: string -> string, line: string): string {
    var safe := redact(line);
    if |safe| > LINE_CHARS then safe[..LINE_CHARS] + Marker() else safe
  }

  /** The lines remembered for the lines of a text, in order. */
  function Remembered(redact: string -> string, lines: seq<string>): seq<string> {
    if lines == [] then []
    else
      var before, safe := Remembered(redact, lines[..|lines| - 1]), Safe(redact, Truncated(lines[|lines| - 1]));
      if safe == "" then before else before + [safe]
  }

  function Last<T>(n: nat, s: seq<T>): seq<T> {
    if |s| <= n then s else s[|s| - n..]
  }

  function Join(lines: seq<string>): string {
    if lines == [] then "" else if |lines| == 1 then lines[0] else lines[0] + ['\n'] + Join(lines[1..])
  }

  datatype Signal = Signal(failure: Failure, line: string)

  /** The lines of signals that are not in the tail, in the order they were seen. */
  function SignalLines(signals: seq<Signal>, tail: seq<string>): seq<string> {
    if signals == [] then []
    else
      var before, line := SignalLines(signals[..|signals| - 1], tail), signals[|signals| - 1].line;
      if line in tail then before else before + [line]
  }

  function Rendered(signals: seq<Signal>, tail: seq<string>): string {
    Join(SignalLines(signals, tail) + tail)
  }

  // ---- The memory as a fold -----------------------------------------------------------------

  /** A chunk is scanned as a whole; a line is remembered when it ends. */
  datatype Event = Chunk(text: string) | Line(line: string)

  datatype Memory = Memory(text: string, lines: seq<string>, scanTail: string, signals: seq<Signal>, tail: seq<string>)

  /** Only the first line that shows a failure stands for it. */
  function SetDefault(signals: seq<Signal>, f: Failure, line: string): seq<Signal> {
    if f == Transient || (exists i :: 0 <= i < |signals| && signals[i].failure == f) then signals
    else signals + [Signal(f, line)]
  }

  /** How text is classified, and the words that stand for each class. */
  datatype Classifier = Classifier(classify: string -> Failure, canonical: Failure -> string)

  function ByPhrases(book: Phrasebook): Classifier {
    Classifier(s => Classify(book, s), f => Canonical(book, f))
  }

  /** Scans a chunk together with the end of what came before it. */
  function AfterChunk(c: Classifier, m: Memory, chunk: string): Memory {
    var scan := m.scanTail + chunk;
    var f := c.classify(scan);
    m.(text := m.text + chunk, scanTail := Last(SCAN_CHARS, scan), signals := SetDefault(m.signals, f, c.canonical(f)))
  }

  function AfterLine(c: Classifier, redact: string -> string, m: Memory, line: string): Memory {
    var safe := Safe(redact, Truncated(line));
    if safe == "" then m.(lines := m.lines + [line])
    else
      m.(lines := m.lines + [line], signals := SetDefault(m.signals, c.classify(safe), safe),
         tail := Last(TAIL_LINES, m.tail + [safe]))
  }

  function After(c: Classifier, redact: string -> string, m: Memory, e: Event): Memory {
    match e
    case Chunk(text) => AfterChunk(c, m, text)
    case Line(line) => AfterLine(c, redact, m, line)
  }

  function Replay(c: Classifier, redact: string -> string, events: seq<Event>): Memory {
    if events == [] then Memory("", [], "", [], [])
    else After(c, redact, Replay(c, redact, events[..|events| - 1]), events[|events| - 1])
  }

  lemma ReplayOne(c: Classifier, redact: string -> string, events: seq<Event>, e: Event)
    ensures Replay(c, redact, events + [e]) == After(c, redact, Replay(c, redact, events), e)
  {
    assert (events + [e])[..|events|] == events;
  }

  /** Each signal is a remembered line, or stands for a failure shown by the raw text. */
  ghost predicate Sound(book: Phrasebook, redact: string -> string, signals: seq<Signal>, lines: seq<string>, text: string) {
    && (forall i, j :: 0 <= i < j < |signals| ==> signals[i].failure != signals[j].failure)
    && (forall e :: e in signals ==>
          && e.failure != Transient && Classify(book, e.line) == e.failure
          && (e.line in Remembered(redact, lines) || (e.line == Canonical(book, e.failure) && Shows(book, text, e.failure))))
  }

  /** Every failure the raw text shows is outranked by some signal. */
  ghost predicate Covered(book: Phrasebook, signals: seq<Signal>, text: string) {
    forall f :: Shows(book, text, f) ==> Outranked(signals, f)
  }

  ghost predicate Outranked(signals: seq<Signal>, f: Failure) {
    exists i :: 0 <= i < |signals| && Rank(signals[i].failure) >= Rank(f)
  }

  /** A line as it is remembered. */
  function Shown(redact: string -> string, line: string): string {
    Safe(redact, Truncated(line))
  }

  /** Every failure that a remembered line shows has a signal. */
  ghost predicate Noted(book: Phrasebook, redact: string -> string, signals: seq<Signal>, lines: seq<string>) {
    forall line :: line in lines ==> HasSignal(signals, Classify(book, Shown(redact, line)))
  }

  ghost predicate HasSignal(signals: seq<Signal>, f: Failure) {
    f == Transient || exists i :: 0 <= i < |signals| && signals[i].failure == f
  }

  /** What every memory keeps true. */
  ghost predicate MemoryOk(book: Phrasebook, redact: string -> string, m: Memory) {
    && m.scanTail == Last(SCAN_CHARS, m.text) && m.tail == Last(TAIL_LINES, Remembered(redact, m.lines))
    && Sound(book, redact, m.signals, m.lines, m.text) && Covered(book, m.signals, m.text)
    && Noted(book, redact, m.signals, m.lines)
  }

  lemma LastAppend<T>(n: nat, s: seq<T>, x: T)
    ensures Last(n, Last(n, s) + [x]) == Last(n, s + [x])
  {
  }

  /** Remembering one more line keeps everything remembered before. */
  lemma RememberedGrows(redact: string -> string, lines: seq<string>, line: string)
    ensures var safe := Safe(redact, Truncated(line));
            Remembered(redact, lines + [line]) == Remembered(redact, lines) + if safe == "" then [] else [safe]
  {
    var longer := lines + [line];
    assert longer[..|longer| - 1] == lines;
  }

  ghost predicate Scanned(book: Phrasebook, text: string, chunk: string) {
    var scan := Last(SCAN_CHARS, text) + chunk;
    && Last(SCAN_CHARS, scan) == Last(SCAN_CHARS, text + chunk)
    && (forall f :: Shows(book, scan, f) ==> Shows(book, text + chunk, f))
    && (forall f :: Shows(book, text + chunk, f) ==> Shows(book, text, f) || Shows(book, scan, f))
  }

  /** A failure shown by the text is shown by the text before the chunk or by the scan window. */
  lemma ScanSees(book: Phrasebook, text: string, chunk: string)
    requires GoodBook(book)
    ensures Scanned(book, text, chunk)
  {
    var whole, kept := text + chunk, Last(SCAN_CHARS, text);
    var scan, shift := kept + chunk, |text| - |kept|;
    assert whole[shift..] == scan;
    assert PartAt(scan, whole, shift);
    forall f | Shows(book, scan, f)
      ensures Shows(book, whole, f)
    {
      PartShows(book, scan, whole, f);
    }
    forall f | Shows(book, whole, f)
      ensures Shows(book, text, f) || Shows(book, scan, f)
    {
      var n :| 0 <= n < book.count(f) && Found(whole, book.phrase(f, n));
      var k :| 0 <= k <= |whole| && FoundAt(whole, book.phrase(f, n), k);
      if k + |book.phrase(f, n)| <= |text| {
        assert FoundAt(text, book.phrase(f, n), k);
      } else {
        forall j | 0 <= j < |book.phrase(f, n)|
          ensures LowerChar(scan[k - shift + j]) == book.phrase(f, n)[j]
        {
          assert scan[k - shift + j] == whole[shift..][k - shift + j] == whole[k + j];
        }
        assert FoundAt(scan, book.phrase(f, n), k - shift);
      }
    }
  }

  lemma SoundAfterScan(book: Phrasebook, redact: string -> string, signals: seq<Signal>, lines: seq<string>,
                       text: string, chunk: string, f: Failure)
    requires Sound(book, redact, signals, lines, text) && Scanned(book, text, chunk)
    requires f == Classify(book, Last(SCAN_CHARS, text) + chunk)
    requires f != Transient ==> Classify(book, Canonical(book, f)) == f
    ensures Sound(book, redact, SetDefault(signals, f, Canonical(book, f)), lines, text + chunk)
  {
    forall g | Shows(book, text, g)
      ensures Shows(book, text + chunk, g)
    {
      assert PartAt(text, text + chunk, 0);
      PartShows(book, text, text + chunk, g);
    }
  }

  lemma CoveredAfterScan(book: Phrasebook, signals: seq<Signal>, text: string, chunk: string, f: Failure, line: string)
    requires Covered(book, signals, text) && Scanned(book, text, chunk) && book.count(Transient) == 0
    requires forall g :: Shows(book, Last(SCAN_CHARS, text) + chunk, g) ==> Rank(g) <= Rank(f)
    ensures Covered(book, SetDefault(signals, f, line), text + chunk)
  {
    forall g | Shows(book, text + chunk, g)
      ensures Outranked(SetDefault(signals, f, line), g)
    {
      if Shows(book, text, g) {
        OutrankedByMore(signals, f, line, g);
      } else {
        NowOutranked(signals, f, line, g);
      }
    }
  }

  lemma NowOutranked(signals: seq<Signal>, f: Failure, line: string, g: Failure)
    requires g != Transient && Rank(g) <= Rank(f)
    ensures Outranked(SetDefault(signals, f, line), g)
  {
    NowPresent(signals, f, line);
  }

  lemma OutrankedByMore(signals: seq<Signal>, f: Failure, line: string, g: Failure)
    requires Outranked(signals, g)
    ensures Outranked(SetDefault(signals, f, line), g)
  {
    var after := SetDefault(signals, f, line);
    var i :| 0 <= i < |signals| && Rank(signals[i].failure) >= Rank(g);
    assert after[i] == signals[i];
  }

  lemma NowPresent(signals: seq<Signal>, f: Failure, line: string)
    requires f != Transient
    ensures exists i :: 0 <= i < |SetDefault(signals, f, line)| && SetDefault(signals, f, line)[i].failure == f
  {
    var after := SetDefault(signals, f, line);
    if after != signals {
      assert after[|signals|].failure == f;
    }
  }

  lemma CoveredByMore(book: Phrasebook, signals: seq<Signal>, text: string, f: Failure, line: string)
    requires Covered(book, signals, text)
    ensures Covered(book, SetDefault(signals, f, line), text)
  {
    forall g | Shows(book, text, g)
      ensures Outranked(SetDefault(signals, f, line), g)
    {
      OutrankedByMore(signals, f, line, g);
    }
  }

  lemma SoundAfterLine(book: Phrasebook, redact: string -> string, signals: seq<Signal>, lines: seq<string>, text: string, line: string)
    requires Sound(book, redact, signals, lines, text)
    ensures Sound(book, redact, signals, lines + [line], text)
  {
    RememberedGrows(redact, lines, line);
  }

  lemma SoundAfterSignal(book: Phrasebook, redact: string -> string, signals: seq<Signal>, lines: seq<string>, text: string, safe: string)
    requires Sound(book, redact, signals, lines, text) && safe in Remembered(redact, lines)
    ensures Sound(book, redact, SetDefault(signals, Classify(book, safe), safe), lines, text)
  {
  }

  lemma StillNoted(book: Phrasebook, redact: string -> string, signals: seq<Signal>, lines: seq<string>, f: Failure, line: string)
    requires Noted(book, redact, signals, lines)
    ensures Noted(book, redact, SetDefault(signals, f, line), lines)
  {
    var more := SetDefault(signals, f, line);
    forall l | l in lines
      ensures HasSignal(more, Classify(book, Shown(redact, l)))
    {
      if Classify(book, Shown(redact, l)) != Transient {
        var i :| 0 <= i < |signals| && signals[i].failure == Classify(book, Shown(redact, l));
        assert more[i] == signals[i];
      }
    }
  }

  lemma LineIsNoted(book: Phrasebook, redact: string -> string, signals: seq<Signal>, lines: seq<string>, line: string)
    requires GoodBook(book) && Noted(book, redact, signals, lines)
    ensures var safe := Shown(redact, line);
            Noted(book, redact, if safe == "" then signals else SetDefault(signals, Classify(book, safe), safe), lines + [line])
  {
    var safe := Shown(redact, line);
    if safe == "" {
      NothingShown(book);
      assert Classify(book, "") == Transient;
    } else {
      StillNoted(book, redact, signals, lines, Classify(book, safe), safe);
      if Classify(book, safe) != Transient {
        NowPresent(signals, Classify(book, safe), safe);
      }
    }
  }

  lemma ChunkKeeps(book: Phrasebook, redact: string -> string, m: Memory, chunk: string)
    requires GoodBook(book) && MemoryOk(book, redact, m)
    ensures MemoryOk(book, redact, AfterChunk(ByPhrases(book), m, chunk))
  {
    var f := Classify(book, m.scanTail + chunk);
    if f != Transient {
      CanonicalShows(book, f);
    }
    ScanSees(book, m.text, chunk);
    SoundAfterScan(book, redact, m.signals, m.lines, m.text, chunk, f);
    CoveredAfterScan(book, m.signals, m.text, chunk, f, Canonical(book, f));
    StillNoted(book, redact, m.signals, m.lines, f, Canonical(book, f));
  }

  lemma LineKeeps(book: Phrasebook, redact: string -> string, m: Memory, line: string)
    requires GoodBook(book) && MemoryOk(book, redact, m)
    ensures MemoryOk(book, redact, AfterLine(ByPhrases(book), redact, m, line))
  {
    var safe := Safe(redact, Truncated(line));
    RememberedGrows(redact, m.lines, line);
    SoundAfterLine(book, redact, m.signals, m.lines, m.text, line);
    LineIsNoted(book, redact, m.signals, m.lines, line);
    if safe != "" {
      SoundAfterSignal(book, redact, m.signals, m.lines + [line], m.text, safe);
      LastAppend(TAIL_LINES, Remembered(redact, m.lines), safe);
      CoveredByMore(book, m.signals, m.text, Classify(book, safe), safe);
    }
  }

  /** Whatever was read, in whatever chunks, the signals are sound and cover the text. */
  lemma {:induction false} ReplayOk(book: Phrasebook, redact: string -> string, events: seq<Event>)
    requires GoodBook(book)
    ensures MemoryOk(book, redact, Replay(ByPhrases(book), redact, events))
  {
    if events == [] {
      NothingShown(book);
    } else {
      var last := |events| - 1;
      var before := Replay(ByPhrases(book), redact, events[..last]);
      ReplayOk(book, redact, events[..last]);
      match events[last]
      case Chunk(text) => ChunkKeeps(book, redact, before, text);
      case Line(line) => LineKeeps(book, redact, before, line);
    }
  }

  lemma NothingShown(book: Phrasebook)
    requires GoodBook(book)
    ensures forall f :: !Shows(book, "", f)
  {
    forall f, i | 0 <= i < book.count(f)
      ensures !Found("", book.phrase(f, i))
    {
      assert IsPhrase(book.phrase(f, i));
    }
  }

  // ---- What the rendering shows --------------------------------------------------------------

  lemma {:induction false} LineIsPart(lines: seq<string>, i: nat)
    requires i < |lines|
    ensures Part(lines[i], Join(lines))
  {
    var whole := Join(lines);
    if |lines| == 1 || i == 0 {
      assert PartAt(lines[i], whole, 0);
    } else {
      LineIsPart(lines[1..], i - 1);
      var k :| 0 <= k <= |Join(lines[1..])| && PartAt(lines[i], Join(lines[1..]), k);
      assert whole[|lines[0]| + 1 + k..][..|lines[i]|] == Join(lines[1..])[k..][..|lines[i]|];
      assert PartAt(lines[i], whole, |lines[0]| + 1 + k);
    }
  }

  lemma NoBreakInside(whole: string, phrase: string, k: nat, i: nat)
    requires IsPhrase(phrase) && FoundAt(whole, phrase, k) && k <= i < k + |phrase|
    ensures !IsBreak(whole[i])
  {
    assert LowerChar(whole[k + (i - k)]) == phrase[i - k] && phrase[i - k] in phrase;
  }

  /** A phrase never runs over a line end, so it stands in one of the joined lines. */
  lemma {:induction false} PhraseInLine(lines: seq<string>, phrase: string, k: nat)
    requires IsPhrase(phrase) && FoundAt(Join(lines), phrase, k)
    ensures exists i :: 0 <= i < |lines| && Found(lines[i], phrase)
  {
    if |lines| == 1 {
      assert Found(lines[0], phrase);
    } else {
      var head, rest, whole := |lines[0]|, Join(lines[1..]), Join(lines);
      assert whole == lines[0] + ['\n'] + rest && whole[head] == '\n';
      if k + |phrase| <= head {
        assert PartAt(lines[0], whole, 0);
        FoundInPart(lines[0], whole, 0, phrase, k);
      } else if k <= head {
        NoBreakInside(whole, phrase, k, head);
      } else {
        assert PartAt(rest, whole, head + 1);
        FoundInPart(rest, whole, head + 1, phrase, k);
        PhraseInLine(lines[1..], phrase, k - head - 1);
        var i :| 0 <= i < |lines[1..]| && Found(lines[1..][i], phrase);
        assert Found(lines[i + 1], phrase);
      }
    }
  }

  lemma {:induction false} SignalIsRendered(signals: seq<Signal>, tail: seq<string>, i: nat)
    requires i < |signals|
    ensures signals[i].line in SignalLines(signals, tail) + tail
  {
    var last := |signals| - 1;
    if i < last {
      SignalIsRendered(signals[..last], tail, i);
    }
  }

  lemma {:induction false} RenderedIsSignal(signals: seq<Signal>, tail: seq<string>, line: string)
    requires line in SignalLines(signals, tail)
    ensures exists i :: 0 <= i < |signals| && signals[i].line == line
  {
    var last := |signals| - 1;
    if line in SignalLines(signals[..last], tail) {
      RenderedIsSignal(signals[..last], tail, line);
      var i :| 0 <= i < last && signals[..last][i].line == line;
      assert signals[i].line == line;
    } else {
      assert signals[last].line == line;
    }
  }

  /**
    The rendering, bounded as it is, shows a failure class at least as high in
    priority as the whole text does, whatever was truncated, redacted or dropped.
  */
  lemma RenderingHidesNoFailure(book: Phrasebook, redact: string -> string, signals: seq<Signal>, tail: seq<string>,
                                lines: seq<string>, text: string)
    requires Sound(book, redact, signals, lines, text) && Covered(book, signals, text)
    ensures Rank(Classify(book, Rendered(signals, tail))) >= Rank(Classify(book, text))
  {
    var f := Classify(book, text);
    if f != Transient {
      var i :| 0 <= i < |signals| && Rank(signals[i].failure) >= Rank(f);
      assert signals[i] in signals;
      SignalIsRendered(signals, tail, i);
      var all := SignalLines(signals, tail) + tail;
      var k :| 0 <= k < |all| && all[k] == signals[i].line;
      LineIsPart(all, k);
      PartShows(book, all[k], Rendered(signals, tail), signals[i].failure);
    }
  }

  /** Redaction and truncation left every line as it was. */
  ghost predicate Unaltered(redact: string -> string, lines: seq<string>) {
    forall line :: line in lines ==> Shown(redact, line) == line
  }

  /** No line shows, as it is remembered, a class above that of the text. */
  ghost predicate NoneRaised(book: Phrasebook, redact: string -> string, lines: seq<string>, text: string) {
    forall line :: line in lines ==> Rank(Classify(book, Shown(redact, line))) <= Rank(Classify(book, text))
  }

  ghost predicate LinesOf(lines: seq<string>, text: string) {
    forall line :: line in lines ==> Part(line, text)
  }

  /** Only an altered line can do that. */
  lemma UnalteredRaisesNone(book: Phrasebook, redact: string -> string, lines: seq<string>, text: string)
    requires LinesOf(lines, text) && Unaltered(redact, lines)
    ensures NoneRaised(book, redact, lines, text)
  {
    forall line | line in lines
      ensures Rank(Classify(book, Shown(redact, line))) <= Rank(Classify(book, text))
    {
      if Classify(book, line) != Transient {
        PartShows(book, line, text, Classify(book, line));
      }
    }
  }

  lemma {:induction false} RememberedFrom(redact: string -> string, lines: seq<string>, safe: string) returns (line: string)
    requires safe in Remembered(redact, lines)
    ensures line in lines && Shown(redact, line) == safe
  {
    var last := |lines| - 1;
    if safe in Remembered(redact, lines[..last]) {
      line := RememberedFrom(redact, lines[..last], safe);
    } else {
      line := lines[last];
    }
  }

  /** A rendered line then shows no class above that of the text. */
  lemma RenderedLineIsHonest(book: Phrasebook, redact: string -> string, signals: seq<Signal>, tail: seq<string>,
                             lines: seq<string>, text: string, line: string, f: Failure)
    requires Sound(book, redact, signals, lines, text) && NoneRaised(book, redact, lines, text)
    requires tail == Last(TAIL_LINES, Remembered(redact, lines))
    requires line in SignalLines(signals, tail) + tail && Shows(book, line, f)
    ensures Rank(f) <= Rank(Classify(book, text))
  {
    if line in Remembered(redact, lines) {
      var source := RememberedFrom(redact, lines, line);
      assert Rank(f) <= Rank(Classify(book, Shown(redact, source)));
    } else {
      assert line !in tail;
      RenderedIsSignal(signals, tail, line);
      var i :| 0 <= i < |signals| && signals[i].line == line;
      assert signals[i] in signals;
    }
  }

  lemma NoneRaisedKeeps(book: Phrasebook, redact: string -> string, signals: seq<Signal>, tail: seq<string>,
                        lines: seq<string>, text: string)
    requires GoodBook(book) && NoneRaised(book, redact, lines, text)
    requires Sound(book, redact, signals, lines, text) && tail == Last(TAIL_LINES, Remembered(redact, lines))
    ensures Rank(Classify(book, Rendered(signals, tail))) <= Rank(Classify(book, text))
  {
    var all, f := SignalLines(signals, tail) + tail, Classify(book, Rendered(signals, tail));
    if f != Transient {
      var n :| 0 <= n < book.count(f) && Found(Join(all), book.phrase(f, n));
      var k :| 0 <= k <= |Join(all)| && FoundAt(Join(all), book.phrase(f, n), k);
      PhraseInLine(all, book.phrase(f, n), k);
      var i :| 0 <= i < |all| && Found(all[i], book.phrase(f, n));
      RenderedLineIsHonest(book, redact, signals, tail, lines, text, all[i], f);
    }
  }

  /** What a remembered line shows, the rendering shows or outranks. */
  lemma RaisedIsRendered(book: Phrasebook, redact: string -> string, signals: seq<Signal>, tail: seq<string>,
                         lines: seq<string>, text: string, line: string)
    requires Sound(book, redact, signals, lines, text) && Noted(book, redact, signals, lines) && line in lines
    ensures Rank(Classify(book, Shown(redact, line))) <= Rank(Classify(book, Rendered(signals, tail)))
  {
    var f := Classify(book, Shown(redact, line));
    if f != Transient {
      var i :| 0 <= i < |signals| && signals[i].failure == f;
      assert signals[i] in signals;
      SignalIsRendered(signals, tail, i);
      var all := SignalLines(signals, tail) + tail;
      var k :| 0 <= k < |all| && all[k] == signals[i].line;
      LineIsPart(all, k);
      PartShows(book, all[k], Rendered(signals, tail), f);
    }
  }

  /** The rendering has exactly the text's failure class if and only if no line, as remembered, shows a higher one. */
  lemma RenderingKeepsFailureIff(book: Phrasebook, redact: string -> string, signals: seq<Signal>, tail: seq<string>,
                                 lines: seq<string>, text: string)
    requires GoodBook(book) && tail == Last(TAIL_LINES, Remembered(redact, lines))
    requires Sound(book, redact, signals, lines, text) && Covered(book, signals, text) && Noted(book, redact, signals, lines)
    ensures Classify(book, Rendered(signals, tail)) == Classify(book, text) <==> NoneRaised(book, redact, lines, text)
  {
    if NoneRaised(book, redact, lines, text) {
      RenderingHidesNoFailure(book, redact, signals, tail, lines, text);
      NoneRaisedKeeps(book, redact, signals, tail, lines, text);
    }
    forall line | line in lines
      ensures Rank(Classify(book, Shown(redact, line))) <= Rank(Classify(book, Rendered(signals, tail)))
    {
      RaisedIsRendered(book, redact, signals, tail, lines, text, line);
    }
  }

  // ---- Bounds ---------------------------------------------------------------------------------

  lemma {:induction false} RememberedIsShort(redact: string -> string, lines: seq<string>, line: string)
    requires line in Remembered(redact, lines)
    ensures |line| <= LINE_CHARS + |Marker()|
  {
    if line in Remembered(redact, lines[..|lines| - 1]) {
      RememberedIsShort(redact, lines[..|lines| - 1], line);
    }
  }

  lemma AtMostThree(signals: seq<Signal>)
    requires forall i, j :: 0 <= i < j < |signals| ==> signals[i].failure != signals[j].failure
    requires forall e :: e in signals ==> e.failure != Transient
    ensures |signals| <= 3
  {
    if |signals| > 3 {
      FourthRepeats(signals);
    }
  }

  lemma FourthRepeats(signals: seq<Signal>)
    requires |signals| > 3
    ensures (exists e :: e in signals && e.failure == Transient)
            || exists i, j :: 0 <= i < j < |signals| && signals[i].failure == signals[j].failure
  {
    var a, b, c, d := signals[0], signals[1], signals[2], signals[3];
    assert a in signals && b in signals && c in signals && d in signals;
  }

  /** What was recorded for a class first stays, whatever is read later. */
  lemma {:induction false} FirstSignalsStay(c: Classifier, redact: string -> string, events: seq<Event>, k: nat)
    requires k <= |events|
    ensures Replay(c, redact, events[..k]).signals <= Replay(c, redact, events).signals
    decreases |events|
  {
    if k == |events| {
      assert events[..k] == events;
    } else {
      var last := |events| - 1;
      FirstSignalsStay(c, redact, events[..last], k);
      assert events[..last][..k] == events[..k];
    }
  }

  /** The memory is bounded, however much was read. */
  lemma MemoryIsBounded(book: Phrasebook, redact: string -> string, events: seq<Event>)
    requires GoodBook(book)
    ensures var m := Replay(ByPhrases(book), redact, events);
            && |m.scanTail| <= SCAN_CHARS && |m.tail| <= TAIL_LINES && |m.signals| <= 3
            && (forall line :: line in m.tail ==> |line| <= LINE_CHARS + |Marker()|)
            && m.scanTail == (if |m.text| <= 128 then m.text else m.text[|m.text| - 128..])
            && |m.tail| <= 200 && forall line :: line in m.tail ==> |line| <= 4012
  {
    var m := Replay(ByPhrases(book), redact, events);
    ReplayOk(book, redact, events);
    AtMostThree(m.signals);
    forall line | line in m.tail
      ensures |line| <= LINE_CHARS + |Marker()|
    {
      RememberedIsShort(redact, m.lines, line);
    }
  }

  /**
    The memory of a whole text: its tail is that of the batch definition, and its
    rendering has at least the text's failure class, exactly it if and only if no line,
    as remembered, shows a higher one; which only an altered line can.
  */
  lemma RenderingIsFaithful(book: Phrasebook, redact: string -> string, events: seq<Event>, m: Memory)
    requires GoodBook(book) && m == Replay(ByPhrases(book), redact, events) && m.lines == Lines(m.text)
    ensures m.tail == Last(TAIL_LINES, Remembered(redact, Lines(m.text)))
    ensures Rank(Classify(book, Rendered(m.signals, m.tail))) >= Rank(Classify(book, m.text))
    ensures Classify(book, Rendered(m.signals, m.tail)) == Classify(book, m.text) <==> NoneRaised(book, redact, Lines(m.text), m.text)
    ensures Unaltered(redact, Lines(m.text)) ==> NoneRaised(book, redact, Lines(m.text), m.text)
  {
    ReplayOk(book, redact, events);
    RenderingHidesNoFailure(book, redact, m.signals, m.tail, m.lines, m.text);
    RenderingKeepsFailureIff(book, redact, m.signals, m.tail, m.lines, m.text);
    if Unaltered(redact, m.lines) {
      LinesAreParts(m.text);
      UnalteredRaisesNone(book, redact, m.lines, m.text);
    }
  }

  lemma LinesAreParts(text: string)
    ensures LinesOf(Lines(text), text)
  {
    LinesInText("", text);
    assert "" + text == text;
  }
}
