/**
 Bounded transfers of the Wayback connector (`src/fetech/wayback.py`): raw and gzip bodies read under a
 byte limit, and the byte budget that the availability request and the snapshot request share.
 */
module Transfer {
  import opened Common

  datatype TransferError =
    | OverBudget | TrailingData | Malformed | Truncated | Broken | BadStatus | BadDocument | NoBudget | FinalUsage

  /** `SnapshotConnectorUsage`: what the connector has cost so far. */
  class Usage {
    var wire: int
    var decompressed: int

    constructor ()
      ensures wire == 0 && decompressed == 0
    {
      wire, decompressed := 0, 0;
    }

    method Record(wireBytes: nat, decompressedBytes: nat)
      modifies this
      ensures wire == old(wire) + wireBytes && decompressed == old(decompressed) + decompressedBytes
    {
      wire := wire + wireBytes;
      decompressed := decompressed + decompressedBytes;
    }
  }

  function Concat(chunks: seq<Bytes>): Bytes {
    if chunks == [] then [] else Concat(chunks[..|chunks| - 1]) + chunks[|chunks| - 1]
  }

  lemma ConcatStep(chunks: seq<Bytes>, i: nat)
    requires i < |chunks|
    ensures Concat(chunks[..i + 1]) == Concat(chunks[..i]) + chunks[i]
  {
    assert chunks[..i + 1][..i] == chunks[..i];
  }

  // ---- The gzip decoder --------------------------------------------------------------------

  datatype Inflated =
    | Output(decoded: Bytes, eof: bool, unused: bool, tail: bool)
    | Corrupt

  /**
   A decoder fed with `fed` is given one more chunk and a positive output limit.  A limit of zero
   would mean no limit at all, so the call is not even defined there.
   */
  type Inflate = (Bytes, Bytes, nat) --> Inflated

  /**
   What a decoder without any limit makes of a byte string: whether it is taken in as (the start of)
   one gzip member, what it decodes to, and whether it is the whole member.
   */
  datatype Gzip = Gzip(accepts: Bytes -> bool, payload: Bytes -> Bytes, whole: Bytes -> bool)

  /** Decoding is incremental, and nothing can follow a whole member. */
  ghost predicate OneMember(gzip: Gzip) {
    && gzip.accepts([]) && gzip.payload([]) == [] && !gzip.whole([])
    && (forall x: Bytes, y: Bytes :: gzip.accepts(x + y) ==> gzip.accepts(x) && gzip.payload(x) <= gzip.payload(x + y))
    && (forall x: Bytes, y: Bytes :: gzip.whole(x) && gzip.accepts(x + y) ==> y == [])
  }

  /**
   A decoder that has taken in all of `fed` is called with `chunk`.  It never returns more than its
   limit; when it returns less, it has dealt with all of the chunk and holds nothing back.
   */
  ghost predicate Answers(inflate: Inflate, gzip: Gzip, fed: Bytes, chunk: Bytes, limit: nat) {
    && inflate.requires(fed, chunk, limit)
    && match inflate(fed, chunk, limit)
       case Corrupt => !gzip.accepts(fed + chunk)
       case Output(decoded, eof, unused, tail) =>
         && |decoded| <= limit
         && (|decoded| < limit && !unused && !tail ==>
               && gzip.accepts(fed + chunk) && eof == gzip.whole(fed + chunk)
               && gzip.payload(fed + chunk) == gzip.payload(fed) + decoded)
         && (|decoded| == limit || tail ==>
               gzip.accepts(fed + chunk) ==> |gzip.payload(fed + chunk)| >= |gzip.payload(fed)| + limit)
         && (unused ==> !gzip.accepts(fed + chunk))
  }

  ghost predicate Decodes(inflate: Inflate, gzip: Gzip) {
    && OneMember(gzip)
    && (forall fed: Bytes, chunk: Bytes, limit: nat ::
          limit > 0 && gzip.accepts(fed) && !gzip.whole(fed) ==> Answers(inflate, gzip, fed, chunk, limit))
  }

  // ---- Reading one body --------------------------------------------------------------------

  /** `_read_bounded` without content encoding. */
  method ReadRaw(chunks: seq<Bytes>, broken: bool, limit: nat, usage: Usage) returns (r: Result<Bytes, TransferError>)
    modifies usage
    ensures usage.wire - old(usage.wire) == usage.decompressed - old(usage.decompressed) >= 0
    ensures r == if |Concat(chunks)| > limit then Err(OverBudget) else if broken then Err(Broken) else Ok(Concat(chunks))
    ensures Charged(chunks, usage.wire - old(usage.wire))
    ensures r != Err(OverBudget) ==> usage.wire == old(usage.wire) + |Concat(chunks)|
  {
    NothingCharged(chunks);
    var body: Bytes := [];
    for i := 0 to |chunks|
      invariant body == Concat(chunks[..i]) && |body| <= limit
      invariant usage.wire == old(usage.wire) + |body| && usage.decompressed == old(usage.decompressed) + |body|
    {
      ConcatStep(chunks, i);
      usage.Record(|chunks[i]|, |chunks[i]|);
      if |body| + |chunks[i]| > limit {
        assert Charged(chunks, |Concat(chunks[..i + 1])|);
        ConcatGrows(chunks, i + 1);
        return Err(OverBudget);
      }
      body := body + chunks[i];
    }
    assert chunks[..|chunks|] == chunks;
    assert Charged(chunks, |Concat(chunks[..|chunks|])|);
    if broken {
      return Err(Broken);
    }
    return Ok(body);
  }

  /** The size of the chunks that arrived, some first ones of the response. */
  ghost predicate Charged(chunks: seq<Bytes>, amount: int) {
    exists n :: 0 <= n <= |chunks| && amount == |Concat(chunks[..n])|
  }

  lemma NothingCharged(chunks: seq<Bytes>)
    ensures Charged(chunks, 0)
  {
    assert Concat(chunks[..0]) == [];
  }

  lemma ConcatGrows(chunks: seq<Bytes>, i: nat)
    requires i <= |chunks|
    ensures Concat(chunks[..i]) <= Concat(chunks)
    decreases |chunks| - i
  {
    if i < |chunks| {
      ConcatStep(chunks, i);
      ConcatGrows(chunks, i + 1);
    } else {
      assert chunks[..i] == chunks;
    }
  }

  /** The bodies the reader is there to accept: one whole member, within the limit on both sides. */
  ghost predicate Acceptable(gzip: Gzip, data: Bytes, limit: nat) {
    gzip.accepts(data) && gzip.whole(data) && |data| <= limit && |gzip.payload(data)| <= limit
  }

  /** What rules a prefix of the response out rules the response out. */
  lemma PrefixRefuses(gzip: Gzip, chunks: seq<Bytes>, i: nat, limit: nat)
    requires OneMember(gzip) && i <= |chunks|
    requires var x := Concat(chunks[..i]); |x| > limit || !gzip.accepts(x) || |gzip.payload(x)| > limit
    ensures !Acceptable(gzip, Concat(chunks), limit)
  {
    var x := Concat(chunks[..i]);
    ConcatGrows(chunks, i);
    var y := Concat(chunks)[|x|..];
    assert Concat(chunks) == x + y;
  }

  /** A series of two members, which section 2.2 of RFC 1952 allows. */
  ghost predicate Series(gzip: Gzip, data: Bytes) {
    exists first: Bytes, second: Bytes :: gzip.whole(first) && gzip.whole(second) && data == first + second
  }

  lemma SeriesIsRefused(gzip: Gzip, data: Bytes, limit: nat)
    requires OneMember(gzip) && Series(gzip, data)
    ensures !Acceptable(gzip, data, limit)
  {
    var first: Bytes, second: Bytes :| gzip.whole(first) && gzip.whole(second) && data == first + second;
    assert second != [];
  }

  /** What was fed has been decoded completely and within the limit. */
  ghost predicate Decoded(gzip: Gzip, fed: Bytes, body: Bytes, eof: bool, limit: nat) {
    gzip.accepts(fed) && body == gzip.payload(fed) && eof == gzip.whole(fed) && |fed| <= limit && |body| <= limit
  }

  lemma NothingFollows(gzip: Gzip, fed: Bytes, chunk: Bytes)
    requires OneMember(gzip) && gzip.whole(fed) && chunk != []
    ensures !gzip.accepts(fed + chunk)
  {
  }

  /** Every answer the reader refuses rules the response out; the others carry on the decoding. */
  lemma Judge(inflate: Inflate, gzip: Gzip, chunks: seq<Bytes>, i: nat, fed: Bytes, body: Bytes, limit: nat)
    requires OneMember(gzip) && i < |chunks| && fed == Concat(chunks[..i]) && Decoded(gzip, fed, body, false, limit)
    requires |fed + chunks[i]| <= limit && Answers(inflate, gzip, fed, chunks[i], limit - |body| + 1)
    ensures match inflate(fed, chunks[i], limit - |body| + 1)
            case Corrupt => !Acceptable(gzip, Concat(chunks), limit)
            case Output(decoded, eof, unused, tail) =>
              if |body| + |decoded| > limit || unused || tail then !Acceptable(gzip, Concat(chunks), limit)
              else Decoded(gzip, fed + chunks[i], body + decoded, eof, limit)
  {
    ConcatStep(chunks, i);
    var out := inflate(fed, chunks[i], limit - |body| + 1);
    if out.Corrupt? || |body| + |out.decoded| > limit || out.unused || out.tail {
      PrefixRefuses(gzip, chunks, i + 1, limit);
    }
  }

  /**
   `_read_bounded_gzip`: a body is exactly the payload of exactly one gzip member that makes up the
   whole response.  Whatever happens, the decoder is never called without a limit and no more than
   one byte beyond the limit is charged as decoded.
   */
  method ReadGzip(chunks: seq<Bytes>, broken: bool, limit: nat, usage: Usage, inflate: Inflate, ghost gzip: Gzip)
    returns (r: Result<Bytes, TransferError>)
    requires Decodes(inflate, gzip)
    modifies usage
    ensures usage.wire >= old(usage.wire)
    ensures 0 <= usage.decompressed - old(usage.decompressed) <= limit + 1
    ensures r.Ok? <==> !broken && Acceptable(gzip, Concat(chunks), limit)
    ensures Series(gzip, Concat(chunks)) ==> r.Err?
    ensures r.Ok? ==> r.value == gzip.payload(Concat(chunks))
    ensures r != Err(FinalUsage)
    ensures Charged(chunks, usage.wire - old(usage.wire))
    ensures r == Err(Malformed) ==> usage.decompressed == old(usage.decompressed) + limit + 1
    ensures r == Err(Broken) || r == Err(Truncated) ==> usage.wire == old(usage.wire) + |Concat(chunks)|
    ensures r.Ok? ==> && usage.wire == old(usage.wire) + |Concat(chunks)| && |Concat(chunks)| <= limit
                      && usage.decompressed == old(usage.decompressed) + |r.value| && |r.value| <= limit
  {
    if Series(gzip, Concat(chunks)) {
      SeriesIsRefused(gzip, Concat(chunks), limit);
    }
    var body: Bytes := [];
    var fed: Bytes := [];
    var eof := false;
    for i := 0 to |chunks|
      invariant fed == Concat(chunks[..i]) && Decoded(gzip, fed, body, eof, limit)
      invariant usage.wire == old(usage.wire) + |fed| && usage.decompressed == old(usage.decompressed) + |body|
    {
      ConcatStep(chunks, i);
      var chunk := chunks[i];
      if chunk == [] {
        continue;
      }
      usage.Record(|chunk|, 0);
      assert Charged(chunks, |Concat(chunks[..i + 1])|);
      if |fed| + |chunk| > limit {
        PrefixRefuses(gzip, chunks, i + 1, limit);
        return Err(OverBudget);
      }
      if eof {
        NothingFollows(gzip, fed, chunk);
        PrefixRefuses(gzip, chunks, i + 1, limit);
        return Err(TrailingData);
      }
      assert Answers(inflate, gzip, fed, chunk, limit - |body| + 1);
      var out := inflate(fed, chunk, limit - |body| + 1);
      Judge(inflate, gzip, chunks, i, fed, body, limit);
      if out.Corrupt? {
        usage.Record(0, limit - |body| + 1);
        return Err(Malformed);
      }
      usage.Record(0, |out.decoded|);
      if |body| + |out.decoded| > limit {
        return Err(OverBudget);
      }
      if out.unused {
        return Err(TrailingData);
      }
      if out.tail {
        return Err(OverBudget);
      }
      body, fed, eof := body + out.decoded, fed + chunk, out.eof;
    }
    assert chunks[..|chunks|] == chunks;
    assert Charged(chunks, |Concat(chunks[..|chunks|])|);
    if broken {
      return Err(Broken);
    }
    if !eof {
      return Err(Truncated);
    }
    return Ok(body);
  }

  // ---- Two requests, one budget ------------------------------------------------------------

  datatype Response = Response(chunks: seq<Bytes>, gzip: bool, broken: bool, status: nat)

  ghost function Body(response: Response, gzip: Gzip): Bytes {
    if response.gzip then gzip.payload(Concat(response.chunks)) else Concat(response.chunks)
  }

  /** A response that arrives in full and is within `limit` on the wire and decoded. */
  ghost predicate Fits(response: Response, gzip: Gzip, limit: int) {
    && limit > 0 && !response.broken
    && if response.gzip then Acceptable(gzip, Concat(response.chunks), limit) else |Concat(response.chunks)| <= limit
  }

  /** One request of the connector's own client: a body within its limit, or an error. */
  method Get(response: Response, limit: int, usage: Usage, inflate: Inflate, ghost gzip: Gzip)
    returns (r: Result<Bytes, TransferError>)
    requires Decodes(inflate, gzip)
    modifies usage
    ensures usage.wire >= old(usage.wire) && usage.decompressed >= old(usage.decompressed)
    ensures r.Ok? <==> Fits(response, gzip, limit)
    ensures r.Ok? ==> && r.value == Body(response, gzip) && |r.value| <= limit
                      && usage.decompressed == old(usage.decompressed) + |r.value|
                      && usage.wire == old(usage.wire) + |Concat(response.chunks)| <= old(usage.wire) + limit
    ensures r != Err(FinalUsage)
  {
    if limit <= 0 {
      return Err(NoBudget);
    }
    if response.gzip {
      r := ReadGzip(response.chunks, response.broken, limit, usage, inflate, gzip);
    } else {
      r := ReadRaw(response.chunks, response.broken, limit, usage);
    }
  }

  /** `_validate_transfer_usage`. */
  method ValidUsage(maximum: int, usage: Usage) returns (ok: bool)
    ensures ok <==> 0 <= usage.wire <= maximum && 0 <= usage.decompressed <= maximum
  {
    ok := usage.wire >= 0 && usage.decompressed >= 0 && usage.wire <= maximum && usage.decompressed <= maximum;
  }

  const AVAILABILITY_LIMIT := 256_000

  function MinInt(a: int, b: int): int {
    if a < b then a else b
  }

  /** What the larger of the two totals leaves of the budget once the availability request is paid for. */
  ghost function Left(maximum: int, wire: int, decompressed: int, availability: Response, gzip: Gzip): int {
    MinInt(maximum - wire - |Concat(availability.chunks)|, maximum - decompressed - |Body(availability, gzip)|)
  }

  /** The response arrives in full, and if it is compressed it is one whole member. */
  ghost predicate Arrives(response: Response, gzip: Gzip) {
    && !response.broken
    && (response.gzip ==> gzip.accepts(Concat(response.chunks)) && gzip.whole(Concat(response.chunks)))
  }

  /**
   Both responses arrive, the first within its own limit, and the second within what each total leaves once
   the first is paid for; either size of a response, on the wire and decoded, counts against either.
   */
  ghost predicate Affordable(availability: Response, snapshot: Response, maximum: int, wire: int, decompressed: int, gzip: Gzip) {
    && Arrives(availability, gzip) && Arrives(snapshot, gzip) && maximum > 0
    && var w, d := |Concat(availability.chunks)|, |Body(availability, gzip)|;
       var sw, sd := |Concat(snapshot.chunks)|, |Body(snapshot, gzip)|;
       && w <= 256_000 && w <= maximum && d <= 256_000 && d <= maximum
       && maximum - wire - w > 0 && maximum - decompressed - d > 0
       && sw <= maximum - wire - w && sw <= maximum - decompressed - d
       && sd <= maximum - wire - w && sd <= maximum - decompressed - d
  }

  lemma AffordableFits(availability: Response, snapshot: Response, maximum: int, wire: int, decompressed: int, gzip: Gzip)
    ensures Affordable(availability, snapshot, maximum, wire, decompressed, gzip) <==>
              && Fits(availability, gzip, MinInt(AVAILABILITY_LIMIT, maximum))
              && Fits(snapshot, gzip, Left(maximum, wire, decompressed, availability, gzip))
  {
  }

  /**
   `_fetch_snapshot_within_deadline`: when a fetch succeeds, and that it then kept both totals of both
   requests within `maximum`, starting from whatever the usage ledger already held; and with the
   connector's own client the check after the second request never fails.
   */
  method FetchSnapshot(availability: Response, documentOk: bool, snapshot: Response, maximum: int, usage: Usage,
                       inflate: Inflate, ghost gzip: Gzip)
    returns (r: Result<Bytes, TransferError>)
    requires Decodes(inflate, gzip) && usage.wire >= 0 && usage.decompressed >= 0
    modifies usage
    ensures usage.wire >= old(usage.wire) && usage.decompressed >= old(usage.decompressed)
    ensures r.Ok? ==> usage.wire <= maximum && usage.decompressed <= maximum
    ensures r.Ok? <==> availability.status == 200 && documentOk && snapshot.status == 200
                       && Affordable(availability, snapshot, maximum, old(usage.wire), old(usage.decompressed), gzip)
    ensures r.Ok? ==>
              && r.value == Body(snapshot, gzip)
              && usage.wire == old(usage.wire) + |Concat(availability.chunks)| + |Concat(snapshot.chunks)|
              && usage.decompressed == old(usage.decompressed) + |Body(availability, gzip)| + |r.value|
    ensures r != Err(FinalUsage)
  {
    AffordableFits(availability, snapshot, maximum, usage.wire, usage.decompressed, gzip);
    var document := Get(availability, MinInt(AVAILABILITY_LIMIT, maximum), usage, inflate, gzip);
    if document.Err? {
      return document;
    }
    if availability.status != 200 {
      return Err(BadStatus);
    }
    if !documentOk {
      return Err(BadDocument);
    }
    var ok := ValidUsage(maximum, usage);
    if !ok {
      return Err(OverBudget);
    }
    var remaining := MinInt(maximum - usage.wire, maximum - usage.decompressed);
    if remaining <= 0 {
      return Err(NoBudget);
    }
    r := Get(snapshot, remaining, usage, inflate, gzip);
    if r.Err? {
      return;
    }
    ok := ValidUsage(maximum, usage);
    if !ok {
      return Err(FinalUsage);
    }
    if snapshot.status != 200 {
      return Err(BadStatus);
    }
    if |r.value| > remaining {
      return Err(OverBudget);
    }
  }
}
