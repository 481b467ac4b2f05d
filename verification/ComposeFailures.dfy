/** How Compose output is sorted into failure classes, by the phrases it contains. */
module ComposeFailures {

  const SCAN_CHARS: nat := 128

  datatype Failure = NoSpace | ImageMissing | StorageCorruption | Transient

  function Rank(f: Failure): nat {
    match f
    case NoSpace => 3
    case ImageMissing => 2
    case StorageCorruption => 1
    case Transient => 0
  }

  /** The phrases that tell of each failure class, in lower case: how many, and which. */
  datatype Phrasebook = Phrasebook(count: Failure -> nat, phrase: (Failure, nat) -> string)

  /** Lower case, as far as it makes letters of ASCII: the Kelvin sign becomes a `k`. */
  function LowerChar(c: char): char {
    if 'A' <= c <= 'Z' then c - 'A' + 'a' else if c == '\U{212A}' then 'k' else c
  }

  predicate FoundAt(s: string, phrase: string, k: nat) {
    k + |phrase| <= |s| && forall j :: 0 <= j < |phrase| ==> LowerChar(s[k + j]) == phrase[j]
  }

  /** The phrase occurs in `s`, whatever the case of its letters. */
  predicate Found(s: string, phrase: string) {
    exists k :: 0 <= k <= |s| && FoundAt(s, phrase, k)
  }

  predicate Shows(book: Phrasebook, s: string, f: Failure) {
    exists i :: 0 <= i < book.count(f) && Found(s, book.phrase(f, i))
  }

  /** The order matters: a full disk often rides on a line that also looks like corruption. */
  function Classify(book: Phrasebook, output: string): (f: Failure)
    ensures f != Transient ==> Shows(book, output, f)
    ensures forall g :: Shows(book, output, g) ==> Rank(g) <= Rank(f)
  {
    if Shows(book, output, NoSpace) then NoSpace
    else if Shows(book, output, ImageMissing) then ImageMissing
    else if Shows(book, output, StorageCorruption) then StorageCorruption
    else Transient
  }

  /** What stands for a failure seen in the raw output, where no remembered line shows it. */
  function Canonical(book: Phrasebook, f: Failure): string {
    if book.count(f) == 0 then "" else book.phrase(f, 0)
  }

  predicate IsBreak(c: char) { c == '\n' || c == '\r' }

  /** Fits the scan window, and lies within one line. */
  predicate IsPhrase(s: string) {
    0 < |s| <= SCAN_CHARS && forall c :: c in s ==> !IsBreak(c)
  }

  /** The first phrase of a class shows that class and none of higher priority. */
  ghost predicate StandsFor(book: Phrasebook, f: Failure) {
    Shows(book, Canonical(book, f), f) && forall g :: Rank(g) > Rank(f) ==> !Shows(book, Canonical(book, f), g)
  }

  ghost predicate GoodBook(book: Phrasebook) {
    && book.count(Transient) == 0
    && (forall f, i :: 0 <= i < book.count(f) ==> IsPhrase(book.phrase(f, i)))
    && (forall f :: f != Transient ==> StandsFor(book, f))
  }

  lemma FullStands(book: Phrasebook)
    requires book.count(NoSpace) > 0 && Found(book.phrase(NoSpace, 0), book.phrase(NoSpace, 0))
    ensures StandsFor(book, NoSpace)
  {
  }

  lemma MissingStands(book: Phrasebook)
    requires book.count(ImageMissing) > 0 && Found(book.phrase(ImageMissing, 0), book.phrase(ImageMissing, 0))
    requires !Shows(book, book.phrase(ImageMissing, 0), NoSpace)
    ensures StandsFor(book, ImageMissing)
  {
  }

  lemma CorruptionStands(book: Phrasebook)
    requires book.count(StorageCorruption) > 0 && Found(book.phrase(StorageCorruption, 0), book.phrase(StorageCorruption, 0))
    requires !Shows(book, book.phrase(StorageCorruption, 0), NoSpace) && !Shows(book, book.phrase(StorageCorruption, 0), ImageMissing)
    ensures StandsFor(book, StorageCorruption)
  {
  }

  lemma CanonicalShows(book: Phrasebook, f: Failure)
    requires f != Transient && StandsFor(book, f)
    ensures Classify(book, Canonical(book, f)) == f
  {
  }

  /** `part` stands somewhere in `whole`. */
  ghost predicate Part(part: string, whole: string) {
    exists i :: 0 <= i <= |whole| && PartAt(part, whole, i)
  }

  ghost predicate PartAt(part: string, whole: string, i: nat) {
    i + |part| <= |whole| && whole[i..i + |part|] == part
  }

  lemma FoundInWhole(part: string, whole: string, i: nat, phrase: string, k: nat)
    requires PartAt(part, whole, i) && FoundAt(part, phrase, k)
    ensures FoundAt(whole, phrase, i + k)
  {
    forall j | 0 <= j < |phrase|
      ensures LowerChar(whole[i + k + j]) == phrase[j]
    {
      assert whole[i..i + |part|][k + j] == part[k + j];
    }
  }

  lemma FoundInPart(part: string, whole: string, i: nat, phrase: string, k: nat)
    requires FoundAt(whole, phrase, k) && PartAt(part, whole, i) && i <= k && k + |phrase| <= i + |part|
    ensures FoundAt(part, phrase, k - i)
  {
    forall j | 0 <= j < |phrase|
      ensures LowerChar(part[k - i + j]) == phrase[j]
    {
      assert part[k - i + j] == whole[i..i + |part|][k - i + j] == whole[k + j];
    }
  }

  /** What a part of a text shows, the text shows. */
  lemma PartShows(book: Phrasebook, part: string, whole: string, f: Failure)
    requires Part(part, whole) && Shows(book, part, f)
    ensures Shows(book, whole, f)
  {
    var n :| 0 <= n < book.count(f) && Found(part, book.phrase(f, n));
    var i :| 0 <= i <= |whole| && PartAt(part, whole, i);
    var k :| 0 <= k <= |part| && FoundAt(part, book.phrase(f, n), k);
    FoundInWhole(part, whole, i, book.phrase(f, n), k);
  }

  predicate IsUpperOf(upper: char, lower: char) {
    ('A' <= upper <= 'Z' && lower as int == upper as int + 32) || (upper == '\U{212A}' && lower == 'k')
  }

  /** The characters are the same but for the case of letters. */
  predicate SameButCase(a: char, b: char) {
    a == b || IsUpperOf(a, b) || IsUpperOf(b, a)
  }

  /** The class does not depend on the case of letters. */
  lemma ClassIgnoresCase(book: Phrasebook, s: string, t: string)
    requires |s| == |t| && forall i :: 0 <= i < |s| ==> SameButCase(s[i], t[i])
    ensures Classify(book, s) == Classify(book, t)
  {
    forall phrase: string
      ensures Found(s, phrase) <==> Found(t, phrase)
    {
      FoundInAnyCase(s, t, phrase);
      FoundInAnyCase(t, s, phrase);
    }
    forall f
      ensures Shows(book, s, f) <==> Shows(book, t, f)
    {
      ShownInAnyCase(book, s, t, f);
      ShownInAnyCase(book, t, s, f);
    }
  }

  lemma FoundInAnyCase(s: string, t: string, phrase: string)
    requires |s| == |t| && forall i :: 0 <= i < |s| ==> SameButCase(s[i], t[i])
    ensures Found(s, phrase) ==> Found(t, phrase)
  {
    if Found(s, phrase) {
      var k :| 0 <= k <= |s| && FoundAt(s, phrase, k);
      forall j | 0 <= j < |phrase|
        ensures LowerChar(t[k + j]) == phrase[j]
      {
        assert LowerChar(s[k + j]) == phrase[j] && SameButCase(s[k + j], t[k + j]);
      }
      assert FoundAt(t, phrase, k);
    }
  }

  lemma ShownInAnyCase(book: Phrasebook, s: string, t: string, f: Failure)
    requires forall phrase: string :: Found(s, phrase) ==> Found(t, phrase)
    ensures Shows(book, s, f) ==> Shows(book, t, f)
  {
    if Shows(book, s, f) {
      var i :| 0 <= i < book.count(f) && Found(s, book.phrase(f, i));
      assert Found(t, book.phrase(f, i));
    }
  }

  /** A full disk is named before a missing image, a missing image before corruption, and each before nothing. */
  lemma ClassByPriority(book: Phrasebook, s: string)
    requires book.count(Transient) == 0
    ensures Shows(book, s, NoSpace) <==> Classify(book, s) == NoSpace
    ensures Shows(book, s, ImageMissing) && !Shows(book, s, NoSpace) <==> Classify(book, s) == ImageMissing
    ensures Shows(book, s, StorageCorruption) && !Shows(book, s, NoSpace) && !Shows(book, s, ImageMissing)
            <==> Classify(book, s) == StorageCorruption
  {
  }

  /** A text that holds a phrase of a class, in lower case, shows that class. */
  lemma PhraseIsSeen(book: Phrasebook, f: Failure, i: nat, before: string, after: string)
    requires i < book.count(f) && forall c :: c in book.phrase(f, i) ==> !('A' <= c <= 'Z') && c != '\U{212A}'
    ensures Shows(book, before + book.phrase(f, i) + after, f)
  {
    var s := before + book.phrase(f, i) + after;
    assert FoundAt(s, book.phrase(f, i), |before|) by {
      assert forall j :: 0 <= j < |book.phrase(f, i)| ==> s[|before| + j] == book.phrase(f, i)[j] && book.phrase(f, i)[j] in book.phrase(f, i);
    }
    assert Found(s, book.phrase(f, i));
  }
}
