/**
  The phrases by which Docker Compose output is classified, the proof that they make a
  good phrase book, and an input for which truncation adds a failure class.
*/
module ComposePhrases {
  import opened ComposeFailures
  import opened ComposeMemory

  /** A letter that neither "failed to register layer" nor the cut line below contains. */
  predicate HasRareLetter(s: string) {
    'p' in s || 'q' in s || 'u' in s
  }

  function DeviceFull(): (s: string)
    ensures IsPhrase(s) && HasRareLetter(s) && |s| == 23
  {
    assert "no space left on device"[4] == 'p';
    "no space left on device"
  }

  function UnknownManifest(): (s: string)
    ensures IsPhrase(s) && HasRareLetter(s) && |s| == 16
  {
    assert "manifest unknown"[9] == 'u';
    "manifest unknown"
  }

  function ManifestNotFound(): (s: string)
    ensures IsPhrase(s) && HasRareLetter(s)
  {
    assert "not found: manifest"[6] == 'u';
    "not found: manifest"
  }

  function NoSuchImage(): (s: string)
    ensures IsPhrase(s) && HasRareLetter(s)
  {
    assert "no such image"[4] == 'u';
    "no such image"
  }

  function PullDenied(): (s: string)
    ensures IsPhrase(s) && HasRareLetter(s)
  {
    assert "pull access denied"[0] == 'p';
    "pull access denied"
  }

  function NoRepository(): (s: string)
    ensures IsPhrase(s) && HasRareLetter(s)
  {
    assert "repository does not exist"[2] == 'p';
    "repository does not exist"
  }

  function RequestedAccess(): (s: string)
    ensures IsPhrase(s) && HasRareLetter(s) && |s| == 16
  {
    assert "requested access"[2] == 'q';
    "requested access"
  }

  function ToTheResource(): (s: string)
    ensures IsPhrase(s) && |s| == 26
  { " to the resource is denied" }

  function ResourceDenied(): (s: string)
    ensures IsPhrase(s) && HasRareLetter(s)
  { RequestedAccess() + ToTheResource() }

  function RequestDenied(): (s: string)
    ensures IsPhrase(s) && HasRareLetter(s)
  { "denied: " + RequestedAccess() }

  function LoginRequired(): (s: string)
    ensures IsPhrase(s) && HasRareLetter(s)
  {
    assert "unauthorized: authentication required"[0] == 'u';
    "unauthorized: authentication required"
  }

  function ManifestFor(): (s: string)
    ensures IsPhrase(s) && 'm' in s && s[0] == 'm' && |s| == 13
  { "manifest for " }

  function LayerNotRegistered(): (s: string)
    ensures IsPhrase(s) && 'l' in s
  {
    assert "failed to register layer"[3] == 'l';
    "failed to register layer"
  }

  function NoSuchLayer(): (s: string)
    ensures IsPhrase(s) && 'l' in s
  {
    assert "layer does not exist"[0] == 'l';
    "layer does not exist"
  }

  function OverlayNotCreated(): (s: string)
    ensures IsPhrase(s) && 'l' in s
  {
    assert "error creating overlay mount"[19] == 'l';
    "error creating overlay mount"
  }

  function OverlayNotMounted(): (s: string)
    ensures IsPhrase(s) && 'l' in s
  {
    assert "failed to mount overlay"[3] == 'l';
    "failed to mount overlay"
  }

  function MissingPhrase(i: nat): (s: string)
    requires i < 4
    ensures IsPhrase(s) && HasRareLetter(s)
  {
    if i == 0 then UnknownManifest() else if i == 1 then ManifestNotFound() else if i == 2 then NoSuchImage() else PullDenied()
  }

  function DeniedPhrase(i: nat): (s: string)
    requires i < 4
    ensures IsPhrase(s) && HasRareLetter(s)
  {
    if i == 0 then NoRepository() else if i == 1 then ResourceDenied() else if i == 2 then RequestDenied() else LoginRequired()
  }

  function CorruptionPhrase(i: nat): (s: string)
    requires i < 4
    ensures IsPhrase(s) && 'l' in s
  {
    if i == 0 then LayerNotRegistered() else if i == 1 then NoSuchLayer() else if i == 2 then OverlayNotCreated() else OverlayNotMounted()
  }

  function Count(f: Failure): nat {
    match f
    case NoSpace => 1
    case ImageMissing => 9
    case StorageCorruption => 4
    case Transient => 0
  }

  function PhraseAt(f: Failure, i: nat): (s: string)
    ensures i < Count(f) ==> IsPhrase(s)
    ensures f.NoSpace? || (f.ImageMissing? && i < 8) ==> i < Count(f) ==> HasRareLetter(s)
  {
    if i >= Count(f) then ""
    else match f
      case NoSpace => DeviceFull()
      case ImageMissing => if i < 4 then MissingPhrase(i) else if i < 8 then DeniedPhrase(i - 4) else ManifestFor()
      case StorageCorruption => CorruptionPhrase(i)
  }

  function DockerPhrases(): Phrasebook {
    Phrasebook(Count, PhraseAt)
  }

  // ---- Texts without some letters -------------------------------------------------------------

  predicate Without(s: string, c: char) {
    forall k :: 0 <= k < |s| ==> LowerChar(s[k]) != c
  }

  lemma Lacks(s: string, phrase: string, c: char)
    requires c in phrase && Without(s, c)
    ensures !Found(s, phrase)
  {
    var j :| 0 <= j < |phrase| && phrase[j] == c;
    forall k | 0 <= k <= |s|
      ensures !FoundAt(s, phrase, k)
    {
      if k + |phrase| <= |s| {
        assert LowerChar(s[k + j]) != phrase[j];
      }
    }
  }

  predicate NoRareLetter(s: string) {
    Without(s, 'p') && Without(s, 'q') && Without(s, 'u')
  }

  lemma LacksRare(s: string, phrase: string)
    requires NoRareLetter(s) && HasRareLetter(phrase)
    ensures !Found(s, phrase)
  {
    Lacks(s, phrase, if 'p' in phrase then 'p' else if 'q' in phrase then 'q' else 'u');
  }

  // ---- The phrase book is good -------------------------------------------------------------------

  predicate NoCapitals(s: string) {
    forall k :: 0 <= k < |s| ==> LowerChar(s[k]) == s[k]
  }

  /** The letters in the phrases that tell them apart. */
  ghost predicate Lettered(book: Phrasebook) {
    && book.count(NoSpace) == 1 && book.count(ImageMissing) == 9 && book.count(StorageCorruption) == 4 && book.count(Transient) == 0
    && HasRareLetter(book.phrase(NoSpace, 0)) && 'm' in book.phrase(ImageMissing, 8)
    && (forall i :: 0 <= i < 8 ==> HasRareLetter(book.phrase(ImageMissing, i)))
    && (forall i :: 0 <= i < 4 ==> 'l' in book.phrase(StorageCorruption, i))
    && (forall f, i :: 0 <= i < book.count(f) ==> IsPhrase(book.phrase(f, i)))
  }

  /** The letters of the phrases that stand for a class. */
  ghost predicate FirstsLettered(book: Phrasebook) {
    && NoCapitals(book.phrase(NoSpace, 0)) && NoCapitals(book.phrase(ImageMissing, 0)) && NoCapitals(book.phrase(StorageCorruption, 0))
    && |book.phrase(ImageMissing, 0)| < |book.phrase(NoSpace, 0)|
    && NoRareLetter(book.phrase(StorageCorruption, 0)) && Without(book.phrase(StorageCorruption, 0), 'm')
  }

  lemma ShowsNoImage(book: Phrasebook, s: string)
    requires Lettered(book) && NoRareLetter(s) && !Found(s, book.phrase(ImageMissing, 8))
    ensures !Shows(book, s, ImageMissing) && !Shows(book, s, NoSpace)
  {
    LacksRare(s, book.phrase(NoSpace, 0));
    forall i | 0 <= i < 8
      ensures !Found(s, book.phrase(ImageMissing, i))
    {
      LacksRare(s, book.phrase(ImageMissing, i));
    }
  }

  lemma ShowsNoCorruption(book: Phrasebook, s: string)
    requires Lettered(book) && Without(s, 'l')
    ensures !Shows(book, s, StorageCorruption)
  {
    forall i | 0 <= i < 4
      ensures !Found(s, book.phrase(StorageCorruption, i))
    {
      Lacks(s, book.phrase(StorageCorruption, i), 'l');
    }
  }

  lemma FoundInItself(s: string)
    requires NoCapitals(s)
    ensures Found(s, s)
  {
    assert FoundAt(s, s, 0);
  }

  lemma TooShort(book: Phrasebook, s: string)
    requires book.count(NoSpace) == 1 && |s| < |book.phrase(NoSpace, 0)|
    ensures !Shows(book, s, NoSpace)
  {
  }

  lemma LayerIsNoImage(book: Phrasebook)
    requires Lettered(book) && FirstsLettered(book)
    ensures !Shows(book, book.phrase(StorageCorruption, 0), ImageMissing) && !Shows(book, book.phrase(StorageCorruption, 0), NoSpace)
  {
    Lacks(book.phrase(StorageCorruption, 0), book.phrase(ImageMissing, 8), 'm');
    ShowsNoImage(book, book.phrase(StorageCorruption, 0));
  }

  lemma FirstStands(book: Phrasebook, f: Failure)
    requires Lettered(book) && FirstsLettered(book) && f != Transient
    ensures StandsFor(book, f)
  {
    FoundInItself(book.phrase(f, 0));
    match f
    case NoSpace => FullStands(book);
    case ImageMissing =>
      TooShort(book, book.phrase(f, 0));
      MissingStands(book);
    case StorageCorruption =>
      LayerIsNoImage(book);
      CorruptionStands(book);
  }

  lemma GoodByLetters(book: Phrasebook)
    requires Lettered(book) && FirstsLettered(book)
    ensures GoodBook(book)
  {
    forall f: Failure | f != Transient
      ensures StandsFor(book, f)
    {
      FirstStands(book, f);
    }
  }

  lemma FullLetters()
    ensures NoCapitals(DeviceFull())
  {
  }

  lemma UnknownLetters()
    ensures NoCapitals(UnknownManifest())
  {
  }

  lemma LayerLetters()
    ensures NoCapitals(LayerNotRegistered()) && NoRareLetter(LayerNotRegistered()) && Without(LayerNotRegistered(), 'm')
  {
    assert forall c :: c in LayerNotRegistered() ==> LowerChar(c) == c && c != 'p' && c != 'q' && c != 'u' && c != 'm';
  }

  lemma DockerIsLettered()
    ensures Lettered(DockerPhrases())
  {
  }

  lemma DockerFirsts()
    ensures FirstsLettered(DockerPhrases())
  {
    FullLetters();
    UnknownLetters();
    LayerLetters();
  }

  /** The words for a class show no class of higher priority, and every phrase fits a line and the scan window. */
  lemma DockerPhrasesAreGood()
    ensures GoodBook(DockerPhrases())
  {
    DockerIsLettered();
    DockerFirsts();
    GoodByLetters(DockerPhrases());
  }

  // ---- What the phrases are --------------------------------------------------------------------------

  /** The words of Docker that mean a missing image. */
  function ImageWords(i: nat): string {
    match i
    case 0 => "manifest unknown"
    case 1 => "not found: manifest"
    case 2 => "no such image"
    case 3 => "pull access denied"
    case 4 => "repository does not exist"
    case 5 => "requested access to the resource is denied"
    case 6 => "denied: requested access"
    case 7 => "unauthorized: authentication required"
    case _ => "manifest for "
  }

  /** The words of Docker that mean broken storage. */
  function StorageWords(i: nat): string {
    match i
    case 0 => "failed to register layer"
    case 1 => "layer does not exist"
    case 2 => "error creating overlay mount"
    case _ => "failed to mount overlay"
  }

  lemma ResourceDeniedWords()
    ensures ResourceDenied() == "requested access to the resource is denied"
  {
  }

  lemma RequestDeniedWords()
    ensures RequestDenied() == "denied: requested access"
  {
  }

  lemma ImageWordsAre(i: nat)
    requires i < 9
    ensures PhraseAt(ImageMissing, i) == ImageWords(i)
  {
    if i == 5 {
      ResourceDeniedWords();
    } else if i == 6 {
      RequestDeniedWords();
    }
  }

  lemma StorageWordsAre(i: nat)
    requires i < 4
    ensures PhraseAt(StorageCorruption, i) == StorageWords(i)
  {
  }

  /** Output is classified by these very words, in any case of letters: a full disk first, then a missing image, then broken storage. */
  lemma ClassifiedByWords(output: string)
    ensures var f := Classify(DockerPhrases(), output);
            var full := Found(output, "no space left on device");
            var missing := exists i :: 0 <= i < 9 && Found(output, ImageWords(i));
            var broken := exists i :: 0 <= i < 4 && Found(output, StorageWords(i));
            f == if full then NoSpace else if missing then ImageMissing else if broken then StorageCorruption else Transient
  {
    FullByWords(output);
    MissingByWords(output);
    BrokenByWords(output);
  }

  lemma FullByWords(output: string)
    ensures Shows(DockerPhrases(), output, NoSpace) <==> Found(output, "no space left on device")
  {
    assert DockerPhrases().phrase(NoSpace, 0) == "no space left on device";
  }

  lemma MissingByWords(output: string)
    ensures Shows(DockerPhrases(), output, ImageMissing) <==> exists i :: 0 <= i < 9 && Found(output, ImageWords(i))
  {
    var book := DockerPhrases();
    forall i | 0 <= i < 9
      ensures book.phrase(ImageMissing, i) == ImageWords(i)
    {
      ImageWordsAre(i);
    }
  }

  lemma BrokenByWords(output: string)
    ensures Shows(DockerPhrases(), output, StorageCorruption) <==> exists i :: 0 <= i < 4 && Found(output, StorageWords(i))
  {
    var book := DockerPhrases();
    forall i | 0 <= i < 4
      ensures book.phrase(StorageCorruption, i) == StorageWords(i)
    {
      StorageWordsAre(i);
    }
  }

  // ---- Why truncation is excluded from the equality of classes ------------------------------------

  /** A long line that is cut right after the words "manifest for". */
  function CutLine(): (line: string)
    ensures |line| == RETAINED_CHARS + 1
    ensures forall k :: 0 <= k < RETAINED_CHARS - 12 ==> line[k] == 'x'
    ensures line[RETAINED_CHARS - 12..] == "manifest for:"
  {
    seq(RETAINED_CHARS - 12, i => 'x') + "manifest for:"
  }

  lemma CutLineLetters()
    ensures NoRareLetter(CutLine()) && Without(CutLine(), 'l')
  {
    var line, cut := CutLine(), RETAINED_CHARS - 12;
    forall k | 0 <= k < |line|
      ensures LowerChar(line[k]) == line[k] && line[k] != 'p' && line[k] != 'q' && line[k] != 'u' && line[k] != 'l'
    {
      if k >= cut {
        assert line[k] == line[cut..][k - cut] && line[cut..][k - cut] in "manifest for:";
      }
    }
  }

  lemma CutLineHasNoManifestFor()
    ensures !Found(CutLine(), ManifestFor())
  {
    var line, phrase, cut := CutLine(), ManifestFor(), RETAINED_CHARS - 12;
    forall k | 0 <= k <= |line|
      ensures !FoundAt(line, phrase, k)
    {
      if k < cut {
        assert line[k] == 'x';
        assert |line| >= k + 1 && LowerChar(line[k + 0]) != phrase[0];
      } else if k == cut {
        assert line[cut + 12] == line[cut..][12] == ':' && phrase[12] == ' ';
      }
    }
  }

  /** Truncation can complete a failure phrase that the line itself does not contain. */
  lemma TruncationMayAddFailure()
    ensures Classify(DockerPhrases(), CutLine()) == Transient
    ensures Shows(DockerPhrases(), Truncated(CutLine()), ImageMissing)
  {
    CutLineLetters();
    CutLineHasNoManifestFor();
    DockerIsLettered();
    ShowsNoImage(DockerPhrases(), CutLine());
    ShowsNoCorruption(DockerPhrases(), CutLine());
    CutShows();
  }

  lemma CutShows()
    ensures Shows(DockerPhrases(), Truncated(CutLine()), ImageMissing)
  {
    var line, cut, phrase := Truncated(CutLine()), RETAINED_CHARS - 12, ManifestFor();
    forall j | 0 <= j < |phrase|
      ensures LowerChar(line[cut + j]) == phrase[j]
    {
      assert j < 12 ==> line[cut + j] == CutLine()[cut..][j];
    }
    assert FoundAt(line, phrase, cut) && PhraseAt(ImageMissing, 8) == phrase;
  }
}
