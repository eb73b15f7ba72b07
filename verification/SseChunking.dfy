/** Exactly when the reasoner's stream does not depend on how its bytes are cut into chunks. Two
    guards look at chunk ends: the response limit before a chunk is read, the per-event limit
    after. What the bytes say decides whether a guard that can fire early would be noticed. */
module SseChunking {
  import opened Common
  import opened Gateway
  import opened SseDecoder

  ghost predicate Independent(data: seq<byte>, end: End, codec: Codec, id: string) {
    forall a, b :: Concat(a) == data && Concat(b) == data ==> Stream([], a, end, codec, id) == Stream([], b, end, codec, id)
  }

  /** How a stream within the response limit ends when it is read in one chunk. */
  function Verdict(r: Reading, end: End): Outcome {
    if r.status.Pending? && |r.rest| > MAX_EVENT_BYTES then Permanent else OutcomeOf(r.status, end)
  }

  /** Walking the blocks up to the one that decides: at the first block long enough for the
      per-event guard to fire inside it, the bytes from there on must yield nothing and end in the
      guard's own outcome. */
  predicate Steady(data: seq<byte>, authenticated: bool, end: End, codec: Codec, id: string)
    decreases |data|
  {
    var c := Boundary(data);
    c.Some? ==>
      var n := c.value.at + c.value.length;
      if n > MAX_EVENT_BYTES + 1 then
        var r := Decode(data, authenticated, codec, id);
        r.events == [] && Verdict(r, end).Permanent?
      else match Interpret(data[..c.value.at], authenticated, codec, id)
        case Rejects => true
        case Authenticates => Steady(data[n..], true, end, codec, id)
        case Yields(e) => e.Completed? || Steady(data[n..], authenticated, end, codec, id)
  }

  /** Nothing may be said before a response outgrows its limit; within it, the stream is steady. */
  predicate Indifferent(data: seq<byte>, end: End, codec: Codec, id: string) {
    if |data| > MAX_RESPONSE_BYTES then Decode(data[..MAX_RESPONSE_BYTES], false, codec, id).events == []
    else Steady(data, false, end, codec, id)
  }

  // ---------- what prefixes say ----------

  lemma EventsGrow(data: seq<byte>, more: seq<byte>, authenticated: bool, codec: Codec, id: string)
    ensures Decode(data, authenticated, codec, id).events <= Decode(data + more, authenticated, codec, id).events
  {
    hide Decode;
    DecodeExtends(data, more, authenticated, codec, id);
  }

  lemma EventsOfPrefix(data: seq<byte>, p: nat, q: nat, codec: Codec, id: string)
    requires p <= q <= |data|
    ensures Decode(data[..p], false, codec, id).events <= Decode(data[..q], false, codec, id).events
  {
    hide Decode;
    assert data[..q] == data[..p] + data[p..q];
    EventsGrow(data[..p], data[p..q], false, codec, id);
  }

  // ---------- a steady stream ----------

  /** Where the per-event guard fires, a steady stream has said everything and is to end so. */
  lemma {:induction false} GuardUnnoticed(data: seq<byte>, more: seq<byte>, authenticated: bool, end: End, codec: Codec, id: string)
    requires Steady(data + more, authenticated, end, codec, id)
    requires Decode(data, authenticated, codec, id).status.Pending?
    requires |Decode(data, authenticated, codec, id).rest| > MAX_EVENT_BYTES
    ensures var whole := Decode(data + more, authenticated, codec, id);
            whole.events == Decode(data, authenticated, codec, id).events && Verdict(whole, end).Permanent?
    decreases |data|
  {
    hide Interpret, DelimiterAt, IsFirstCut, BoundaryFrom, Boundary;
    EventsGrow(data, more, authenticated, codec, id);
    var c := Boundary(data);
    if c.None? {
      if Boundary(data + more).Some? {
        LaterBoundary(data, more);
      }
    } else {
      BoundaryStable(data, more);
      var n := c.value.at + c.value.length;
      if n <= MAX_EVENT_BYTES + 1 {
        assert (data + more)[..c.value.at] == data[..c.value.at];
        assert (data + more)[n..] == data[n..] + more;
        if Interpret(data[..c.value.at], authenticated, codec, id).Authenticates? {
          GuardUnnoticed(data[n..], more, true, end, codec, id);
        } else {
          GuardUnnoticed(data[n..], more, authenticated, end, codec, id);
        }
      }
    }
  }

  lemma LaterBoundary(data: seq<byte>, more: seq<byte>)
    requires Boundary(data).None? && Boundary(data + more).Some?
    ensures var c := Boundary(data + more).value; c.at + c.length > |data|
  {
    var c := Boundary(data + more).value;
    if c.at + c.length <= |data| {
      BoundaryInPrefix(data, more);
    }
  }

  /** Read in one chunk. */
  function Whole(data: seq<byte>, end: End, codec: Codec, id: string): Streamed {
    var r := Decode(data, false, codec, id);
    Streamed(r.events, Verdict(r, end))
  }

  lemma {:induction false} SteadyStream(seen: seq<byte>, chunks: seq<seq<byte>>, end: End, codec: Codec, id: string)
    requires var data := seen + Concat(chunks);
             |data| <= MAX_RESPONSE_BYTES && Steady(data, false, end, codec, id)
    requires var r := Decode(seen, false, codec, id);
             r.status.Pending? && |r.rest| <= MAX_EVENT_BYTES
    ensures Stream(seen, chunks, end, codec, id) == Whole(seen + Concat(chunks), end, codec, id)
    decreases |chunks|
  {
    hide Decode, Steady;
    if chunks == [] {
      assert seen + Concat(chunks) == seen;
    } else {
      var more, after := seen + chunks[0], Concat(chunks[1..]);
      assert seen + Concat(chunks) == more + after;
      DecodeExtends(more, after, false, codec, id);
      var r := Decode(more, false, codec, id);
      if r.status.Pending? && |r.rest| > MAX_EVENT_BYTES {
        GuardUnnoticed(more, after, false, end, codec, id);
      } else if r.status.Pending? {
        SteadyStream(more, chunks[1..], end, codec, id);
      }
    }
  }

  // ---------- a stream that is not ----------

  /** Inside the offending block, one byte past the per-event limit. */
  lemma {:induction false} GuardNoticed(data: seq<byte>, authenticated: bool, end: End, codec: Codec, id: string) returns (p: nat)
    requires !Steady(data, authenticated, end, codec, id)
    ensures p <= |data|
    ensures var part, whole := Decode(data[..p], authenticated, codec, id), Decode(data, authenticated, codec, id);
            && part.status.Pending? && |part.rest| > MAX_EVENT_BYTES
            && !(part.events == whole.events && Verdict(whole, end).Permanent?)
    decreases |data|
  {
    hide Interpret, DelimiterAt, IsFirstCut, BoundaryFrom, Boundary;
    var c := Boundary(data).value;
    var n := c.at + c.length;
    if n > MAX_EVENT_BYTES + 1 {
      p := MAX_EVENT_BYTES + 1;
      NotYet(data, p);
    } else {
      var auth := authenticated || Interpret(data[..c.at], authenticated, codec, id).Authenticates?;
      var q := GuardNoticed(data[n..], auth, end, codec, id);
      p := n + q;
      BlockFirst(data, q);
      SameHead(Decode(data[n..][..q], auth, codec, id).events, Decode(data[n..], auth, codec, id).events);
    }
  }

  lemma SameHead(a: seq<ReasonEvent>, b: seq<ReasonEvent>)
    ensures forall e :: [e] + a == [e] + b ==> a == b
  {
    forall e | [e] + a == [e] + b
      ensures a == b
    {
      assert a == ([e] + a)[1..] && b == ([e] + b)[1..];
    }
  }

  lemma NotYet(data: seq<byte>, p: nat)
    requires p <= |data| && Boundary(data).Some? && p < Boundary(data).value.at + Boundary(data).value.length
    ensures Boundary(data[..p]).None?
  {
    assert data == data[..p] + data[p..];
    if Boundary(data[..p]).Some? {
      BoundaryStable(data[..p], data[p..]);
      assert false;
    }
  }

  /** A prefix that holds the first block starts with it. */
  lemma BlockFirst(data: seq<byte>, q: nat)
    requires Boundary(data).Some?
    requires var n := Boundary(data).value.at + Boundary(data).value.length; n + q <= |data|
    ensures var c := Boundary(data).value;
            var n := c.at + c.length;
            && Boundary(data[..n + q]) == Some(c)
            && data[..n + q][..c.at] == data[..c.at] && data[..n + q][n..] == data[n..][..q]
  {
    hide DelimiterAt, IsFirstCut, BoundaryFrom;
    var c := Boundary(data).value;
    var n := c.at + c.length;
    assert data == data[..n + q] + data[n + q..];
    BoundaryInPrefix(data[..n + q], data[n + q..]);
    BoundaryStable(data[..n + q], data[n + q..]);
  }

  /** The first of two chunks is where the loop stops. */
  lemma StopsInFirst(data: seq<byte>, p: nat, end: End, codec: Codec, id: string)
    requires p <= |data| && p <= MAX_RESPONSE_BYTES
    ensures var part := Decode(data[..p], false, codec, id);
            && (part.status.Pending? && |part.rest| > MAX_EVENT_BYTES ==>
                  Stream([], [data[..p], data[p..]], end, codec, id) == Streamed(part.events, Permanent))
            && (|data| > MAX_RESPONSE_BYTES ==> Stream([], [data[..p], data[p..]], end, codec, id).events == part.events)
  {
    hide Decode;
    var chunks := [data[..p], data[p..]];
    assert [] + data[..p] == data[..p] && chunks[1..] == [data[p..]];
    assert data[..p] + data[p..] == data;
  }

  lemma OneChunk(data: seq<byte>, end: End, codec: Codec, id: string)
    ensures |data| <= MAX_RESPONSE_BYTES ==> Stream([], [data], end, codec, id) == Whole(data, end, codec, id)
    ensures |data| > MAX_RESPONSE_BYTES ==> Stream([], [data], end, codec, id) == Streamed([], Permanent)
  {
    NothingRead(false, codec, id);
    hide Decode;
    assert [] + data == data && [data][1..] == [];
  }

  // ---------- over the response limit ----------

  lemma {:induction false} SilentStream(data: seq<byte>, p: nat, chunks: seq<seq<byte>>, end: End, codec: Codec, id: string)
    requires |data| > MAX_RESPONSE_BYTES && p <= MAX_RESPONSE_BYTES && Concat(chunks) == data[p..]
    requires Decode(data[..MAX_RESPONSE_BYTES], false, codec, id).events == []
    ensures Stream(data[..p], chunks, end, codec, id) == Streamed([], Permanent)
    decreases |chunks|
  {
    hide Decode;
    EventsOfPrefix(data, p, MAX_RESPONSE_BYTES, codec, id);
    assert chunks != [];
    var q := p + |chunks[0]|;
    assert data[p..] == chunks[0] + Concat(chunks[1..]);
    assert data[..q] == data[..p] + chunks[0] && Concat(chunks[1..]) == data[q..];
    if q <= MAX_RESPONSE_BYTES {
      EventsOfPrefix(data, q, MAX_RESPONSE_BYTES, codec, id);
      CompletedLast(data[..q], false, codec, id);
      SilentStream(data, q, chunks[1..], end, codec, id);
    }
  }

  // ---------- exactly when ----------

  lemma IndifferentSuffices(data: seq<byte>, end: End, codec: Codec, id: string, chunks: seq<seq<byte>>)
    requires Indifferent(data, end, codec, id) && Concat(chunks) == data
    ensures Stream([], chunks, end, codec, id)
         == if |data| > MAX_RESPONSE_BYTES then Streamed([], Permanent) else Whole(data, end, codec, id)
  {
    NothingRead(false, codec, id);
    hide Decode, Steady, Stream;
    if |data| > MAX_RESPONSE_BYTES {
      assert data[0..] == data && data[..0] == [];
      SilentStream(data, 0, chunks, end, codec, id);
    } else {
      assert [] + Concat(chunks) == data;
      SteadyStream([], chunks, end, codec, id);
    }
  }

  /** Two ways of cutting the same bytes that end differently. */
  lemma Differs(data: seq<byte>, end: End, codec: Codec, id: string) returns (p: nat)
    requires !Indifferent(data, end, codec, id)
    ensures p <= |data|
    ensures Stream([], [data], end, codec, id) != Stream([], [data[..p], data[p..]], end, codec, id)
  {
    hide Decode, Steady, Stream;
    OneChunk(data, end, codec, id);
    if |data| > MAX_RESPONSE_BYTES {
      p := MAX_RESPONSE_BYTES;
    } else {
      p := GuardNoticed(data, false, end, codec, id);
    }
    StopsInFirst(data, p, end, codec, id);
  }

  /** A stream is independent of chunking exactly when it is indifferent: a condition on the bytes
      alone, at any size. */
  lemma IndependentIff(data: seq<byte>, end: End, codec: Codec, id: string)
    ensures Independent(data, end, codec, id) <==> Indifferent(data, end, codec, id)
  {
    hide Stream, Indifferent;
    if Indifferent(data, end, codec, id) {
      forall a, b | Concat(a) == data && Concat(b) == data
        ensures Stream([], a, end, codec, id) == Stream([], b, end, codec, id)
      {
        IndifferentSuffices(data, end, codec, id, a);
        IndifferentSuffices(data, end, codec, id, b);
      }
    } else {
      var p := Differs(data, end, codec, id);
      ConcatPair(data, p);
    }
  }

  /** In particular, every block with its delimiter up to one byte over the limit is enough. */
  predicate BlocksNearly(data: seq<byte>)
    decreases |data|
  {
    var c := Boundary(data);
    c.Some? ==> var n := c.value.at + c.value.length; n <= MAX_EVENT_BYTES + 1 && BlocksNearly(data[n..])
  }

  lemma {:induction false} NearlyIsSteady(data: seq<byte>, authenticated: bool, end: End, codec: Codec, id: string)
    requires BlocksNearly(data)
    ensures Steady(data, authenticated, end, codec, id)
    decreases |data|
  {
    hide Interpret, DelimiterAt, IsFirstCut, BoundaryFrom, Boundary;
    var c := Boundary(data);
    if c.Some? {
      var n := c.value.at + c.value.length;
      NearlyIsSteady(data[n..], true, end, codec, id);
      NearlyIsSteady(data[n..], authenticated, end, codec, id);
    }
  }
}
