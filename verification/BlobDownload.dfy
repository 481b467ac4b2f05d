/**
  Downloading one blob: a bounded number of attempts, of which exactly one decides,
  and no trace of the others in the file.
*/
module BlobDownload {
  import opened Sequences

  type Byte = b: int | 0 <= b < 0x100

  /** What one read returns; an empty read ends the body. */
  type Chunk = c: seq<Byte> | c != [] witness [0]

  type Digest = nat
  type Hash = seq<Byte> -> Digest

  const MAX_BLOB: nat := 16 * 1024 * 1024 * 1024
  const ATTEMPTS: nat := 4

  datatype Ending = Complete | Broken(transient: bool)

  /** How the registry answers one attempt. */
  datatype Response = Unreachable(transient: bool) | Body(chunks: seq<Chunk>, ending: Ending)

  datatype Attempt = Whole(bytes: seq<Byte>) | Lost(transient: bool)

  datatype Verdict = Downloaded | BeyondPolicy | NotDownloaded | SizeMismatch | DigestMismatch

  function Content(chunks: seq<Chunk>): seq<Byte> {
    if chunks == [] then [] else Content(chunks[..|chunks| - 1]) + chunks[|chunks| - 1]
  }

  /** A body beyond the size policy is given up, however it would have ended. */
  function AttemptOf(r: Response): Attempt {
    match r
    case Unreachable(transient) => Lost(transient)
    case Body(chunks, ending) =>
      if |Content(chunks)| > MAX_BLOB then Lost(false)
      else if ending.Complete? then Whole(Content(chunks))
      else Lost(ending.transient)
  }

  predicate Retried(r: Response) {
    AttemptOf(r) == Lost(true)
  }

  /** Attempt `k` is the one that decides: those before it were worth a retry, it is not or is the last. */
  ghost predicate Decides(response: nat -> Response, attempts: nat, k: nat) {
    k < attempts && (forall j: nat :: j < k ==> Retried(response(j))) && (Retried(response(k)) ==> k == attempts - 1)
  }

  /** A missing size is not checked. */
  function Judge(a: Attempt, digest: Digest, size: Option<int>, hash: Hash): Verdict {
    match a
    case Lost(_) => NotDownloaded
    case Whole(bytes) =>
      if size.Some? && size.value != |bytes| then SizeMismatch
      else if hash(bytes) != digest then DigestMismatch
      else Downloaded
  }

  predicate WithinPolicy(size: Option<int>) {
    size.Some? ==> 0 <= size.value <= MAX_BLOB
  }

  /** The server gave a whole body, of at most 16 GiB. */
  predicate GaveBody(r: Response) {
    r.Body? && r.ending == Complete && |Content(r.chunks)| <= 17_179_869_184
  }

  /** The server could not be reached, or broke off a body within that bound; it may work the next time. */
  predicate MayWorkLater(r: Response) {
    r == Unreachable(true) || (r.Body? && r.ending == Broken(true) && |Content(r.chunks)| <= 17_179_869_184)
  }

  /** What becomes of the response that decides, and of the file. */
  ghost predicate Settles(r: Response, digest: Digest, size: Option<int>, hash: Hash, verdict: Verdict, file: Option<seq<Byte>>) {
    if !GaveBody(r) then verdict == NotDownloaded
    else if size.Some? && size.value != |Content(r.chunks)| then verdict == SizeMismatch
    else if hash(Content(r.chunks)) != digest then verdict == DigestMismatch
    else verdict == Downloaded && file == Some(Content(r.chunks))
  }

  /** Response `k` decides: those before it may work later, and it may not, or is the last one tried. */
  ghost predicate SettledBy(response: nat -> Response, attempts: nat, k: nat) {
    && k < attempts && (forall j: nat :: j < k ==> MayWorkLater(response(j)))
    && (MayWorkLater(response(k)) ==> k == attempts - 1)
  }

  lemma DecidesIsSettledBy(response: nat -> Response, attempts: nat, k: nat)
    ensures Decides(response, attempts, k) <==> SettledBy(response, attempts, k)
  {
    assert forall j: nat :: Retried(response(j)) <==> MayWorkLater(response(j));
  }

  lemma {:induction false} ContentGrows(chunks: seq<Chunk>, k: nat)
    requires k <= |chunks|
    ensures Content(chunks[..k]) <= Content(chunks)
    decreases |chunks|
  {
    if k == |chunks| {
      assert chunks[..k] == chunks;
    } else {
      ContentGrows(chunks[..|chunks| - 1], k);
      assert chunks[..|chunks| - 1][..k] == chunks[..k];
    }
  }

  class Destination {
    var file: Option<seq<Byte>>

    /** One attempt; opening the file for writing empties it. */
    method Fetch(r: Response) returns (got: Attempt)
      modifies this
      ensures got == AttemptOf(r)
      ensures got.Whole? ==> file == Some(got.bytes)
    {
      if r.Unreachable? {
        return Lost(r.transient);
      }
      var count, written := 0, [];
      file := Some([]);
      for i := 0 to |r.chunks|
        invariant written == Content(r.chunks[..i]) && count == |written| && count <= MAX_BLOB
        invariant file == Some(written)
      {
        assert r.chunks[..i + 1][..i] == r.chunks[..i];
        count := count + |r.chunks[i]|;
        if count > MAX_BLOB {
          ContentGrows(r.chunks, i + 1);
          return Lost(false);
        }
        written := written + r.chunks[i];
        file := Some(written);
      }
      assert r.chunks[..|r.chunks|] == r.chunks;
      got := if r.ending.Complete? then Whole(written) else Lost(r.ending.transient);
    }

    /** Removal may fail; that is ignored. */
    method Remove(removable: bool)
      modifies this
      ensures file == if removable then None else old(file)
    {
      if removable {
        file := None;
      }
    }

    /**
      Downloads a blob. The file holds one whole response and nothing of any other, and
      it is kept only if it has the wanted digest and size.
    */
    method DownloadBlob(isLocal: bool, response: nat -> Response, digest: Digest, size: Option<int>, hash: Hash, removable: bool)
      returns (verdict: Verdict)
      modifies this
      ensures !WithinPolicy(size) ==> verdict == BeyondPolicy && file == old(file)
      ensures WithinPolicy(size) ==>
                exists k :: Decides(response, if isLocal then 1 else ATTEMPTS, k)
                            && verdict == Judge(AttemptOf(response(k)), digest, size, hash)
                            && (verdict == Downloaded ==> file == Some(AttemptOf(response(k)).bytes))
      ensures verdict == BeyondPolicy <==> size.Some? && (size.value < 0 || size.value > 17_179_869_184)
      ensures verdict != BeyondPolicy ==>
                exists k :: SettledBy(response, if isLocal then 1 else 4, k) && Settles(response(k), digest, size, hash, verdict, file)
      ensures verdict == Downloaded ==>
                && file.Some? && hash(file.value) == digest && |file.value| <= MAX_BLOB
                && (size.Some? ==> |file.value| == size.value)
      ensures WithinPolicy(size) && verdict != Downloaded && removable ==> file == None
    {
      if !WithinPolicy(size) {
        return BeyondPolicy;
      }
      var attempts := if isLocal then 1 else ATTEMPTS;
      var attempt, got := 0, Lost(true);
      while got == Lost(true) && attempt < attempts
        invariant attempt <= attempts && (got == Lost(true) <==> forall j: nat :: j < attempt ==> Retried(response(j)))
        invariant attempt == 0 ==> got == Lost(true)
        invariant attempt > 0 ==> Decides(response, attempt, attempt - 1) && got == AttemptOf(response(attempt - 1))
        invariant got.Whole? ==> file == Some(got.bytes)
        invariant attempt > 0 && got.Lost? && removable ==> file == None
        decreases attempts - attempt
      {
        got := Fetch(response(attempt));
        if got.Lost? {
          Remove(removable);
        }
        attempt := attempt + 1;
      }
      assert Decides(response, attempts, attempt - 1);
      DecidesIsSettledBy(response, attempts, attempt - 1);
      verdict := Judge(got, digest, size, hash);
      if verdict == SizeMismatch || verdict == DigestMismatch {
        Remove(removable);
      }
      assert Settles(response(attempt - 1), digest, size, hash, verdict, file);
    }
  }

  /** Every download has exactly one deciding attempt. */
  lemma OneAttemptDecides(response: nat -> Response, attempts: nat) returns (k: nat)
    requires attempts > 0
    ensures Decides(response, attempts, k)
    ensures forall other: nat :: Decides(response, attempts, other) ==> other == k
  {
    k := 0;
    while k < attempts - 1 && Retried(response(k))
      invariant k < attempts && forall j: nat :: j < k ==> Retried(response(j))
    {
      k := k + 1;
    }
    assert forall other: nat :: other < k ==> Retried(response(other));
    assert Retried(response(k)) ==> k == attempts - 1;
  }
}
