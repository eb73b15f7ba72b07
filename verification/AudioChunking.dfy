/** Exactly when the frames of a segment do not depend on how its bytes are cut into chunks: the
    response limit is checked chunk by chunk, so a response that outgrows it after its header has
    yielded whatever full blocks arrived in earlier chunks. */
module AudioChunking {
  import opened Common
  import opened Gateway
  import opened AudioDeframer

  ghost predicate Independent(data: seq<byte>, end: End, parse: HeaderParser, want: Expected) {
    forall a, b :: Concat(a) == data && Concat(b) == data ==> Stream([], a, end, parse, want) == Stream([], b, end, parse, want)
  }

  /** The response stays within its limit, or its header is not accepted before the limit. */
  predicate Indifferent(data: seq<byte>, parse: HeaderParser, want: Expected) {
    |data| <= MAX_RESPONSE_BYTES || !Scan(data[..MAX_RESPONSE_BYTES], parse, want).Payload?
  }

  lemma ScanPrefix(data: seq<byte>, p: nat, q: nat, parse: HeaderParser, want: Expected)
    requires p <= q <= |data|
    ensures Scan(data[..p], parse, want).Payload? ==> Scan(data[..q], parse, want).Payload?
    ensures Scan(data[..p], parse, want).Malformed? ==> Scan(data[..q], parse, want).Malformed?
  {
    hide Scan;
    assert data[..q] == data[..p] + data[p..q];
    ScanExtends(data[..p], data[p..q], parse, want);
  }

  lemma {:induction false} WithinStream(seen: seq<byte>, chunks: seq<seq<byte>>, end: End, parse: HeaderParser, want: Expected)
    requires |seen + Concat(chunks)| <= MAX_RESPONSE_BYTES && !Scan(seen, parse, want).Malformed?
    ensures var data := seen + Concat(chunks);
            Stream(seen, chunks, end, parse, want) == Segment(FramesOf(data, end, parse, want), OutcomeOf(data, end, parse, want))
    decreases |chunks|
  {
    hide Scan;
    if chunks == [] {
      assert seen + Concat(chunks) == seen;
    } else {
      var more, after := seen + chunks[0], Concat(chunks[1..]);
      assert seen + Concat(chunks) == more + after;
      ScanExtends(seen, chunks[0], parse, want);
      ScanExtends(more, after, parse, want);
      if !Scan(more, parse, want).Malformed? {
        WithinStream(more, chunks[1..], end, parse, want);
      }
    }
  }

  lemma {:induction false} SilentStream(data: seq<byte>, p: nat, chunks: seq<seq<byte>>, end: End, parse: HeaderParser, want: Expected)
    requires |data| > MAX_RESPONSE_BYTES && p <= MAX_RESPONSE_BYTES && Concat(chunks) == data[p..]
    requires !Scan(data[..MAX_RESPONSE_BYTES], parse, want).Payload?
    ensures Stream(data[..p], chunks, end, parse, want) == Segment([], Permanent)
    decreases |chunks|
  {
    hide Scan;
    ScanPrefix(data, p, MAX_RESPONSE_BYTES, parse, want);
    assert chunks != [];
    var q := p + |chunks[0]|;
    assert data[p..] == chunks[0] + Concat(chunks[1..]);
    assert data[..q] == data[..p] + chunks[0] && Concat(chunks[1..]) == data[q..];
    if q <= MAX_RESPONSE_BYTES && !Scan(data[..q], parse, want).Malformed? {
      SilentStream(data, q, chunks[1..], end, parse, want);
    }
  }

  lemma IndifferentSuffices(data: seq<byte>, end: End, parse: HeaderParser, want: Expected, chunks: seq<seq<byte>>)
    requires Indifferent(data, parse, want) && Concat(chunks) == data
    ensures Stream([], chunks, end, parse, want)
         == if |data| > MAX_RESPONSE_BYTES then Segment([], Permanent)
            else Segment(FramesOf(data, end, parse, want), OutcomeOf(data, end, parse, want))
  {
    hide Stream;
    if |data| > MAX_RESPONSE_BYTES {
      assert data[0..] == data && data[..0] == [];
      SilentStream(data, 0, chunks, end, parse, want);
    } else {
      assert [] + Concat(chunks) == data;
      WithinStream([], chunks, end, parse, want);
    }
  }

  /** A header takes at most 1,032 bytes, so a response at its limit holds full blocks of audio. */
  lemma LimitHoldsBlocks(data: seq<byte>, parse: HeaderParser, want: Expected)
    requires |data| == MAX_RESPONSE_BYTES && Scan(data, parse, want).Payload?
    ensures FullBlocks(data, parse, want) != []
  {
    var n := BigEndian32(data[4..8]);
    assert |Scan(data, parse, want).audio| == |data| - 8 - n >= MAX_CHUNK_BYTES;
  }

  /** A response that outgrows its limit after its header, read together and read apart. */
  lemma OutgrownSegmentDiffers(data: seq<byte>, end: End, parse: HeaderParser, want: Expected)
    requires |data| > MAX_RESPONSE_BYTES && Scan(data[..MAX_RESPONSE_BYTES], parse, want).Payload?
    ensures Stream([], [data], end, parse, want) == Segment([], Permanent)
    ensures var first := data[..MAX_RESPONSE_BYTES];
            && Stream([], [first, data[MAX_RESPONSE_BYTES..]], end, parse, want) == Segment(FullBlocks(first, parse, want), Permanent)
            && FullBlocks(first, parse, want) != []
  {
    var first, last := data[..MAX_RESPONSE_BYTES], data[MAX_RESPONSE_BYTES..];
    assert [] + data == data && [] + first == first && first + last == data;
    assert [first, last][1..] == [last];
    LimitHoldsBlocks(first, parse, want);
    assert Scan([], parse, want).NeedMore?;
    hide Scan;
  }

  /** Frames and outcome are independent of chunking exactly when the response stays within its
      limit or its header is not accepted before it. */
  lemma IndependentIff(data: seq<byte>, end: End, parse: HeaderParser, want: Expected)
    ensures Independent(data, end, parse, want) <==> Indifferent(data, parse, want)
  {
    hide Stream, Scan;
    if Indifferent(data, parse, want) {
      forall a, b | Concat(a) == data && Concat(b) == data
        ensures Stream([], a, end, parse, want) == Stream([], b, end, parse, want)
      {
        IndifferentSuffices(data, end, parse, want, a);
        IndifferentSuffices(data, end, parse, want, b);
      }
    } else {
      OutgrownSegmentDiffers(data, end, parse, want);
      ConcatPair(data, MAX_RESPONSE_BYTES);
    }
  }

  // ---------- a segment that outgrows its limit ----------

  function Padding(n: nat): seq<byte> {
    seq(n, i => 0)
  }

  /** A one-byte header, which `parse` takes, followed by silence. */
  function Silence(n: nat): seq<byte> {
    MAGIC + [0, 0, 0, 1, 0] + Padding(n)
  }

  lemma SilenceScans(n: nat, parse: HeaderParser, want: Expected)
    requires HeaderMatches(parse([0]), want)
    ensures Scan(Silence(n), parse, want) == Payload(Padding(n))
  {
    var data := Silence(n);
    assert data[..4] == MAGIC && data[4..8] == [0, 0, 0, 1] && data[8..9] == [0] && data[9..] == Padding(n);
  }

  /** Such a segment of four mebibytes of audio depends on chunking. */
  lemma LongSilenceDepends(end: End, parse: HeaderParser, want: Expected)
    requires HeaderMatches(parse([0]), want)
    ensures !Independent(Silence(MAX_RESPONSE_BYTES), end, parse, want)
  {
    hide Independent, HeaderMatches;
    var data := Silence(MAX_RESPONSE_BYTES);
    assert data[..MAX_RESPONSE_BYTES] == Silence(MAX_RESPONSE_BYTES - 9);
    SilenceScans(MAX_RESPONSE_BYTES - 9, parse, want);
    hide Scan;
    IndependentIff(data, end, parse, want);
  }
}
