/**
 `FileSystemCAS` of `src/fetech/storage.py`: verified reads with arbitrary short reads, and any number
 of interleaved publications with a crash at any point.  The hash is an arbitrary function; nothing
 below assumes that it has no collisions.
 */
module ContentStore {
  import opened Common

  type Digest = string
  type Hash = Bytes -> Digest

  datatype StoreError = NotFound | Integrity | ReadLimit

  // ---- What the file system answers --------------------------------------------------------

  const CHUNK := 0x10_0000

  function Min(a: nat, b: nat): nat {
    if a < b then a else b
  }

  /** The two stat calls around `open`. */
  datatype Opened = Missing | NotRegular | Swapped | File(size: nat)

  /** The bytes a read returns, given how many were read before and how many are asked for. */
  type Reader = (nat, nat) -> Bytes

  ghost predicate Bounded(read: Reader) {
    forall total: nat, want: nat :: |read(total, want)| <= want
  }

  /** A read at `total` answers with a non-empty piece of the rest, until the end. */
  predicate Answers(content: Bytes, total: nat, chunk: Bytes) {
    total <= |content| ==>
      && (chunk == [] <==> total == |content|)
      && total + |chunk| <= |content| && chunk == content[total..total + |chunk|]
  }

  /** Every read sees the same content. */
  ghost predicate Steady(read: Reader, content: Bytes) {
    forall total: nat, want: nat :: want > 0 ==> Answers(content, total, read(total, want))
  }

  function Max(a: int, b: int): int {
    if a < b then b else a
  }

  // ---- Comparing an existing file with a body ----------------------------------------------

  /** The reads from `offset` on answer with the rest of the body, piece by piece, and then with nothing. */
  predicate Spells(read: Reader, body: Bytes, offset: nat)
    requires offset <= |body|
    decreases |body| - offset
  {
    var chunk := read(offset, CHUNK);
    if chunk == [] then offset == |body|
    else
      && offset + |chunk| <= |body| && chunk == body[offset..offset + |chunk|]
      && Spells(read, body, offset + |chunk|)
  }

  /** Reads of a steady file of the right size spell the body exactly if the file holds it. */
  lemma {:induction false} SteadySpells(read: Reader, content: Bytes, body: Bytes, offset: nat)
    requires Steady(read, content) && |content| == |body| && offset <= |body| && content[..offset] == body[..offset]
    ensures Spells(read, body, offset) <==> content == body
    decreases |body| - offset
  {
    var chunk := read(offset, CHUNK);
    assert Answers(content, offset, chunk);
    if chunk == [] {
      assert content[..offset] == content && body[..offset] == body;
    } else {
      var end := offset + |chunk|;
      assert content[..end] == content[..offset] + chunk;
      if chunk == body[offset..end] {
        assert body[..end] == body[..offset] + body[offset..end];
        SteadySpells(read, content, body, end);
      } else {
        assert content[offset..end] != body[offset..end];
      }
    }
  }

  /**
   `_verify_existing`, for every sequence of reads the operating system may answer with: it succeeds
   exactly if the opened file is regular and of the body's size, the reads spell the body, and the body has
   the digest; and on a steady file exactly if the file holds the body.
   */
  method VerifyExisting(hash: Hash, file: Opened, body: Bytes, digest: Digest, read: Reader, ghost content: Bytes)
    returns (r: Result<(), StoreError>)
    requires Bounded(read)
    ensures r.Ok? <==> file == File(|body|) && Spells(read, body, 0) && hash(body) == digest
    ensures r.Err? ==> r.error == if file.Missing? then NotFound else Integrity
    ensures file == File(|content|) && Steady(read, content) ==> (r.Ok? <==> content == body && hash(body) == digest)
  {
    if file == File(|content|) && |content| == |body| && Steady(read, content) {
      SteadySpells(read, content, body, 0);
    }
    if file.Missing? {
      return Err(NotFound);
    }
    if !file.File? || file.size != |body| {
      return Err(Integrity);
    }
    var hashed: Bytes, offset := [], 0;
    var done := false;
    while !done
      invariant offset <= |body| && hashed == body[..offset]
      invariant Spells(read, body, 0) <==> (if done then offset == |body| else Spells(read, body, offset))
      decreases !done, |body| - offset
    {
      var chunk := read(offset, CHUNK);
      if chunk == [] {
        done := true;
      } else {
        var end := offset + |chunk|;
        if chunk != body[offset..Min(end, |body|)] {
          return Err(Integrity);
        }
        assert body[..end] == body[..offset] + chunk;
        hashed := hashed + chunk;
        offset := end;
      }
    }
    assert body[..|body|] == body;
    if offset != |body| || hash(hashed) != digest {
      return Err(Integrity);
    }
    return Ok(());
  }

  // ---- Verified reads ----------------------------------------------------------------------

  /**
   `_read_verified`, for every sequence of reads the operating system may answer with.  A result has
   the digest and the size seen at open and respects the caller's bound; at most one byte beyond
   that size is ever read; and a steady file is returned whole exactly when it may be.
   */
  method ReadVerified(hash: Hash, digest: Digest, maximum: Option<int>, file: Opened, read: Reader, finalSize: nat,
                      ghost content: Bytes)
    returns (r: Result<Bytes, StoreError>, consumed: nat)
    requires Bounded(read)
    ensures r.Ok? ==> file.File? && hash(r.value) == digest && |r.value| == file.size == finalSize
    ensures r.Ok? && maximum.Some? ==> |r.value| <= maximum.value
    ensures consumed <= (if file.File? then file.size + 1 else 0)
    ensures file.File? && maximum.Some? && file.size > maximum.value ==> r.Err? && consumed == 0
    ensures file == File(|content|) && finalSize == |content| && Steady(read, content) ==>
              (r.Ok? <==> (maximum.None? || |content| <= maximum.value) && hash(content) == digest)
              && (r.Ok? ==> r.value == content)
  {
    consumed := 0;
    if maximum.Some? && maximum.value < 0 {
      return Err(Integrity), 0;
    }
    if file.Missing? {
      return Err(NotFound), 0;
    }
    if file.NotRegular? || file.Swapped? {
      return Err(Integrity), 0;
    }
    if maximum.Some? && file.size > maximum.value {
      return Err(ReadLimit), 0;
    }
    var expected := file.size;
    var body: Bytes := [];
    ghost var steady := file == File(|content|) && finalSize == |content| && Steady(read, content);
    var done := false;
    while !done
      invariant |body| == consumed <= expected
      invariant steady ==> body == content[..consumed]
      invariant done && steady ==> consumed == |content|
      decreases !done, expected + 1 - consumed
    {
      var want := Min(CHUNK, Max(1, expected - consumed + 1));
      var chunk := read(consumed, want);
      if chunk == [] {
        done := true;
      } else {
        consumed := consumed + |chunk|;
        if consumed > expected || (maximum.Some? && consumed > maximum.value) {
          return Err(ReadLimit), consumed;
        }
        assert steady ==> content[..consumed] == content[..consumed - |chunk|] + chunk;
        body := body + chunk;
      }
    }
    if consumed != expected || finalSize != expected {
      return Err(Integrity), consumed;
    }
    assert steady ==> content[..consumed] == content;
    if hash(body) != digest {
      return Err(Integrity), consumed;
    }
    return Ok(body), consumed;
  }
}
