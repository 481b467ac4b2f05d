/**
  The streaming reader of Compose output. Fed any chunks, it remembers what splitting
  the whole text into lines would give.
*/
module ComposeOutput {
  import opened ComposeFailures
  import opened ComposeLines
  import opened ComposeMemory
  import opened ComposeRedacted

  class OutputReader {
    const classifier: Classifier
    const redact: string -> string
    var partial: string
    var discarding: bool
    var scanTail: string
    var signals: seq<Signal>
    var tail: seq<string>
    /** What was read, the memory of it, and the unfinished line without any bound. */
    ghost var events: seq<Event>
    ghost var memory: Memory
    ghost var pending: string

    ghost predicate Valid()
      reads this
    {
      && memory == Replay(classifier, redact, events)
      && scanTail == memory.scanTail && signals == memory.signals && tail == memory.tail
      && partial == (if |pending| > RETAINED_CHARS then pending[..RETAINED_CHARS] else pending)
      && discarding == (|pending| > RETAINED_CHARS)
    }

    constructor (classifier: Classifier, redact: string -> string)
      ensures Valid() && this.classifier == classifier && this.redact == redact
      ensures memory.text == "" && memory.lines == [] && pending == ""
    {
      this.classifier, this.redact := classifier, redact;
      partial, discarding, scanTail, signals, tail := "", false, "", [], [];
      events, memory, pending := [], Memory("", [], "", [], []), "";
    }

    /** Records a failure, but for a transient one, the first time it is seen. */
    method Record(f: Failure, line: string)
      modifies this`signals
      ensures signals == SetDefault(old(signals), f, line)
    {
      if f == Transient {
        return;
      }
      var i := 0;
      while i < |signals|
        invariant 0 <= i <= |signals| && signals == old(signals)
        invariant forall j :: 0 <= j < i ==> signals[j].failure != f
      {
        if signals[i].failure == f {
          return;
        }
        i := i + 1;
      }
      signals := signals + [Signal(f, line)];
    }

    /** Looks for failures in the raw text, across chunk boundaries. */
    method ScanFailureSignals(decoded: string)
      requires Valid()
      modifies this`signals, this`scanTail, this`events, this`memory
      ensures Valid() && memory == AfterChunk(classifier, old(memory), decoded)
    {
      var scan := scanTail + decoded;
      var found := classifier.classify(scan);
      Record(found, classifier.canonical(found));
      scanTail := Last(SCAN_CHARS, scan);
      memory := AfterChunk(classifier, memory, decoded);
      ReplayOne(classifier, redact, events, Chunk(decoded));
      events := events + [Chunk(decoded)];
    }

    /** Remembers a finished line; `whole` is that line before truncation. */
    method Remember(line: string, ghost whole: string)
      requires Valid() && line == Truncated(whole)
      modifies this`signals, this`tail, this`events, this`memory
      ensures Valid() && memory == AfterLine(classifier, redact, old(memory), whole)
      ensures exists shown :: RedactedAs(redact, whole, shown)
                              && tail == if shown == "" then old(tail) else Last(TAIL_LINES, old(tail) + [shown])
    {
      ShownIsRedacted(redact, whole);
      var safe := redact(line);
      if |safe| > LINE_CHARS {
        safe := safe[..LINE_CHARS] + Marker();
      }
      if safe != "" {
        Keep(safe, whole);
      } else {
        ReplayOne(classifier, redact, events, Line(whole));
        memory, events := AfterLine(classifier, redact, memory, whole), events + [Line(whole)];
      }
    }

    method Keep(safe: string, ghost whole: string)
      requires Valid() && safe != "" && safe == Safe(redact, Truncated(whole))
      modifies this`signals, this`tail, this`events, this`memory
      ensures Valid() && memory == AfterLine(classifier, redact, old(memory), whole)
      ensures tail == Last(TAIL_LINES, old(tail) + [safe])
    {
      Record(classifier.classify(safe), safe);
      tail := Last(TAIL_LINES, tail + [safe]);
      ReplayOne(classifier, redact, events, Line(whole));
      memory, events := AfterLine(classifier, redact, memory, whole), events + [Line(whole)];
    }

    /** Nothing is pending but the unfinished line of the text. */
    ghost predicate Open()
      reads this
    {
      memory.lines == Completed("", memory.text) && pending == Left("", memory.text)
    }

    /** Lengthens the unfinished line, keeping only what fits the bound. */
    method Extend(segment: string)
      requires Valid()
      modifies this`partial, this`discarding, this`pending
      ensures Valid() && pending == old(pending) + segment
    {
      if !discarding {
        var available := RETAINED_CHARS - |partial|;
        if |segment| > available {
          partial, discarding := partial + segment[..available], true;
        } else {
          partial := partial + segment;
        }
      }
      ghost var whole := pending + segment;
      assert |pending| > RETAINED_CHARS ==> whole[..RETAINED_CHARS] == pending[..RETAINED_CHARS];
      pending := whole;
    }

    /** Ends the unfinished line and remembers it. */
    method EndLine()
      requires Valid()
      modifies this
      ensures Valid() && pending == ""
      ensures memory.text == old(memory.text) && memory.lines == old(memory.lines) + [old(pending)]
    {
      Remember(if discarding then partial + Marker() else partial, pending);
      partial, discarding, pending := "", false, "";
    }

    /** Ends the unfinished line at a break of the text. */
    method TakeLine(decoded: string, newline: nat) returns (rest: string)
      requires Valid() && newline < |decoded| && IsBreak(decoded[newline])
      requires forall j :: 0 <= j < newline ==> !IsBreak(decoded[j])
      modifies this
      ensures Valid() && memory.text == old(memory.text) && |rest| < |decoded|
      ensures memory.lines + Completed(pending, rest) == old(memory.lines) + Completed(old(pending), decoded)
      ensures Left(pending, rest) == Left(old(pending), decoded)
    {
      ghost var before, line := memory.lines, pending + decoded[..newline];
      ReadToBreak(pending, decoded, newline);
      Extend(decoded[..newline]);
      EndLine();
      rest := decoded[newline + 1..];
      assert before + [line] + Completed("", rest) == before + ([line] + Completed("", rest));
    }

    /** Reads one chunk; the final one also ends the unfinished line. */
    method Consume(chunk: string, final: bool)
      requires Valid() && Open()
      modifies this
      ensures Valid() && memory.text == old(memory.text) + chunk
      ensures if final then memory.lines == Lines(memory.text) && pending == "" else Open()
    {
      ScanFailureSignals(chunk);
      ReadOn("", old(memory.text), chunk);
      ReadLines(chunk);
      if final && (discarding || partial != "") {
        EndLine();
      }
    }

    /** Takes all lines of a scanned chunk, leaving the rest as the unfinished line. */
    method ReadLines(chunk: string)
      requires Valid()
      modifies this
      ensures Valid() && memory.text == old(memory.text)
      ensures memory.lines == old(memory.lines) + Completed(old(pending), chunk) && pending == Left(old(pending), chunk)
    {
      var decoded := chunk;
      while decoded != ""
        invariant Valid() && memory.text == old(memory.text)
        invariant memory.lines + Completed(pending, decoded) == old(memory.lines) + Completed(old(pending), chunk)
        invariant Left(pending, decoded) == Left(old(pending), chunk)
        decreases |decoded|
      {
        var newline := LineBoundary(decoded);
        if newline < 0 {
          ReadWithin(pending, decoded);
          Extend(decoded);
          decoded := "";
        } else {
          decoded := TakeLine(decoded, newline);
        }
      }
    }

    /** Signals whose line has left the tail, then the tail. */
    method RenderedOutput() returns (output: string)
      requires Valid()
      ensures output == Rendered(signals, tail)
    {
      var missing: seq<string> := [];
      var i := 0;
      while i < |signals|
        invariant 0 <= i <= |signals|
        invariant missing == SignalLines(signals[..i], tail)
      {
        assert signals[..i + 1][..i] == signals[..i];
        if signals[i].line !in tail {
          missing := missing + [signals[i].line];
        }
        i := i + 1;
      }
      assert signals[..|signals|] == signals;
      output := Join(missing + tail);
    }
  }

  // ---- Whole streams ----------------------------------------------------------------------------

  function Concat(chunks: seq<string>): string {
    if chunks == [] then "" else Concat(chunks[..|chunks| - 1]) + chunks[|chunks| - 1]
  }

  /**
    Streaming equals batch: however the output is split into chunks, the remembered
    lines are those of the whole text, each cut and redacted, and the rendering has at least its failure
    class, exactly its failure class if and only if no line, as remembered, shows a
    higher one; so certainly when no line was altered.
  */
  method ReadOutput(book: Phrasebook, redact: string -> string, chunks: seq<string>) returns (tail: seq<string>, output: string)
    requires GoodBook(book)
    ensures tail == Last(TAIL_LINES, Remembered(redact, Lines(Concat(chunks))))
    ensures TailOf(redact, Lines(Concat(chunks)), tail)
    ensures OutputOf(book, redact, Lines(Concat(chunks)), tail, output)
    ensures Rank(Classify(book, output)) >= Rank(Classify(book, Concat(chunks)))
    ensures Classify(book, output) == Classify(book, Concat(chunks))
            <==> NoneRaised(book, redact, Lines(Concat(chunks)), Concat(chunks))
    ensures Unaltered(redact, Lines(Concat(chunks))) ==> Classify(book, output) == Classify(book, Concat(chunks))
  {
    var reader := ReadAll(ByPhrases(book), redact, chunks);
    tail := reader.tail;
    output := reader.RenderedOutput();
    RenderingIsFaithful(book, redact, reader.events, reader.memory);
    OutputIsRedacted(book, redact, reader.events, reader.memory);
  }

  /** A reader fed all chunks, and then the end of the output. */
  method ReadAll(classifier: Classifier, redact: string -> string, chunks: seq<string>) returns (reader: OutputReader)
    ensures fresh(reader) && reader.Valid() && reader.classifier == classifier && reader.redact == redact
    ensures reader.memory.text == Concat(chunks) && reader.memory.lines == Lines(Concat(chunks))
  {
    reader := new OutputReader(classifier, redact);
    var i := 0;
    while i < |chunks|
      invariant 0 <= i <= |chunks| && fresh(reader) && reader.Valid() && reader.Open()
      invariant reader.memory.text == Concat(chunks[..i])
    {
      assert chunks[..i + 1][..i] == chunks[..i];
      reader.Consume(chunks[i], false);
      i := i + 1;
    }
    assert chunks[..i] == chunks;
    reader.Consume("", true);
    assert Concat(chunks) + "" == Concat(chunks);
  }
}
