/** Well-formed streams, and two that are read differently when they are cut differently: one
    that outgrows the response limit after an event, one with an event longer than the per-event
    limit. */
module SseExample {
  import opened Common
  import opened Gateway
  import opened SseDecoder
  import opened SseChunking

  /** Bytes that fit on one line and do not start with the optional space. */
  predicate Plain(s: seq<byte>) {
    (forall i :: 0 <= i < |s| ==> s[i] != LF && s[i] != CR) && (s != [] ==> s[0] != SPACE)
  }

  /** A block as a server writes it, without its delimiter. */
  function Block(name: seq<byte>, value: seq<byte>): seq<byte> {
    EVENT_FIELD + name + [LF] + DATA_FIELD + value
  }

  function Framed(name: seq<byte>, value: seq<byte>): seq<byte> {
    Block(name, value) + [LF, LF]
  }

  lemma BlockEnds(name: seq<byte>, value: seq<byte>, rest: seq<byte>)
    requires Plain(name) && Plain(value)
    ensures Boundary(Framed(name, value) + rest) == Some(Cut(|Block(name, value)|, 2))
    ensures (Framed(name, value) + rest)[..|Block(name, value)|] == Block(name, value)
    ensures (Framed(name, value) + rest)[|Block(name, value)| + 2..] == rest
  {
    var b, s := Block(name, value), Framed(name, value) + rest;
    var n := |b|;
    assert s[..n] == b && s[n] == LF && s[n + 1] == LF;
    forall j | 0 <= j < n
      ensures DelimiterAt(s, j) == 0
    {
      BlockByte(name, value, j);
      assert s[j] == b[j];
      if j + 1 < n {
        assert s[j + 1] == b[j + 1];
      }
    }
    CutUnique(s, Cut(n, 2));
  }

  /** The one line end inside a block is before its data field. */
  lemma BlockByte(name: seq<byte>, value: seq<byte>, j: nat)
    requires Plain(name) && Plain(value) && j < |Block(name, value)|
    ensures var b := Block(name, value);
            b[j] != CR && (b[j] == LF ==> j + 1 < |b| && b[j + 1] != LF)
  {
    var head := EVENT_FIELD + name;
    if j < |head| {
      assert Block(name, value)[j] == head[j];
    } else if j > |head| {
      assert Block(name, value)[j] == (DATA_FIELD + value)[j - |head| - 1];
    } else {
      assert Block(name, value)[j + 1] == DATA_FIELD[0];
    }
  }

  lemma {:induction false} LineEnd(s: seq<byte>, n: nat)
    requires n <= |s| && (forall i :: 0 <= i < n ==> s[i] != LF) && (n < |s| ==> s[n] == LF)
    ensures LineLength(s) == n
    decreases n
  {
    if n > 0 {
      LineEnd(s[1..], n - 1);
    }
  }

  lemma TwoLines(name: seq<byte>, value: seq<byte>)
    requires Plain(name) && Plain(value)
    ensures Lines(Block(name, value)) == [EVENT_FIELD + name, DATA_FIELD + value]
  {
    var b, head, tail := Block(name, value), EVENT_FIELD + name, DATA_FIELD + value;
    assert forall i :: 0 <= i < |head| ==> b[i] == head[i];
    LineEnd(b, |head|);
    assert b[..|head|] == head && b[|head| + 1..] == tail;
    LineEnd(tail, |tail|);
    assert StripCr(head) == head;
  }

  lemma ClassifyBoth(name: seq<byte>, value: seq<byte>)
    requires Plain(name) && Plain(value)
    ensures Classify(EVENT_FIELD + name) == EventLine(name) && Classify(DATA_FIELD + value) == DataLine(value)
  {
    var head, tail := EVENT_FIELD + name, DATA_FIELD + value;
    assert StripCr(head) == head && StripCr(tail) == tail;
    assert head[..6] == EVENT_FIELD && head[6..] == name;
    assert tail[..5] == DATA_FIELD && tail[5..] == value;
    assert tail[0] == 100 && EVENT_FIELD[0] == 101;
    assert |tail| >= 6 ==> tail[..6][0] == 100;
  }

  /** What is written is what is read. */
  lemma ReadsBack(name: seq<byte>, value: seq<byte>, utf8: seq<byte> -> bool)
    requires Plain(name) && Plain(value) && utf8(Block(name, value))
    ensures ParseBlock(Block(name, value), utf8) == Some(Message(name, value))
  {
    hide Classify, Lines, Block;
    TwoLines(name, value);
    ClassifyBoth(name, value);
    var a, b := EVENT_FIELD + name, DATA_FIELD + value;
    assert [a, b][1..] == [b] && [b][1..] == [];
    assert EventValues([b]) == [] && DataValues([b]) == [value];
    assert EventValues([a, b]) == [name] && DataValues([a, b]) == [value];
  }

  /** A codec that takes every text, and reads a delta's data as its text. */
  function Lenient(id: string): Codec {
    Codec(b => true, m => Some(id), d => Some(d), c => None, u => true)
  }

  /** An authenticated stream that says one thing. */
  function Says(text: seq<byte>): seq<byte> {
    Framed(META, []) + Framed(DELTA, text)
  }

  lemma SaysOne(text: seq<byte>, rest: seq<byte>, id: string)
    requires Plain(text) && text != []
    ensures Decode(Says(text) + rest, false, Lenient(id), id)
         == var more := Decode(rest, true, Lenient(id), id); more.(events := [Delta(text)] + more.events)
  {
    hide Framed, Block, Boundary, ParseBlock;
    var tail := Framed(DELTA, text) + rest;
    assert Says(text) + rest == Framed(META, []) + tail;
    BlockEnds(META, [], tail);
    ReadsBack(META, [], Lenient(id).utf8);
    BlockEnds(DELTA, text, rest);
    ReadsBack(DELTA, text, Lenient(id).utf8);
    assert Interpret(Block(META, []), false, Lenient(id), id) == Authenticates;
    assert Interpret(Block(DELTA, text), true, Lenient(id), id) == Yields(Delta(text));
  }

  function Filler(n: nat): seq<byte> {
    seq(n, i => 120)
  }

  /** Bytes that outgrow the response limit after an event: read together nothing is yielded, read
      apart the event is. */
  lemma OutgrownResponseDiffers(end: End, id: string)
    ensures var data := Says([120]) + Filler(MAX_RESPONSE_BYTES);
            && Stream([], [data], end, Lenient(id), id) == Streamed([], Permanent)
            && Stream([], [Says([120]), Filler(MAX_RESPONSE_BYTES)], end, Lenient(id), id) == Streamed([Delta([120])], Permanent)
  {
    hide Decode, Says, Filler;
    var said, pad := Says([120]), Filler(MAX_RESPONSE_BYTES);
    Sizes();
    OneChunk(said + pad, end, Lenient(id), id);
    SaysOne([120], [], id);
    NothingRead(true, Lenient(id), id);
    assert said + [] == said && [] + said == said;
    assert [said, pad][1..] == [pad];
  }

  lemma Sizes()
    ensures |Says([120])| == 38 && |Filler(MAX_RESPONSE_BYTES)| == MAX_RESPONSE_BYTES
  {
  }

  /** An event longer than the per-event limit: read together it is yielded, cut inside it is not. */
  lemma LongEventDiffers(end: End, id: string)
    ensures var data := Says(Filler(MAX_EVENT_BYTES));
            && |data| <= MAX_RESPONSE_BYTES
            && Stream([], [data], end, Lenient(id), id).events == [Delta(Filler(MAX_EVENT_BYTES))]
            && Stream([], [data[..MAX_EVENT_BYTES + 30], data[MAX_EVENT_BYTES + 30..]], end, Lenient(id), id) == Streamed([], Permanent)
  {
    var text := Filler(MAX_EVENT_BYTES);
    var data, p := Says(text), MAX_EVENT_BYTES + 30;
    LongParts(text);
    hide Decode, Says, Filler;
    assert Plain(text) by {
      FillerPlain(MAX_EVENT_BYTES);
    }
    SaysOne(text, [], id);
    NothingRead(true, Lenient(id), id);
    assert data + [] == data;
    OneChunk(data, end, Lenient(id), id);
    HalfSaid(text, p, id);
    StopsInFirst(data, p, end, Lenient(id), id);
  }

  lemma LongParts(text: seq<byte>)
    requires |text| == MAX_EVENT_BYTES
    ensures |Says(text)| == MAX_EVENT_BYTES + 37
  {
  }

  lemma FillerPlain(n: nat)
    ensures Plain(Filler(n)) && |Filler(n)| == n
  {
  }

  /** Cut inside the long event, only the authentication has been read. */
  lemma HalfSaid(text: seq<byte>, p: nat, id: string)
    requires Plain(text) && |text| == MAX_EVENT_BYTES && p == MAX_EVENT_BYTES + 30
    requires |Says(text)| == MAX_EVENT_BYTES + 37
    ensures var r := Decode(Says(text)[..p], false, Lenient(id), id);
            r.events == [] && r.status.Pending? && |r.rest| > MAX_EVENT_BYTES
  {
    hide Framed, Block, Boundary, ParseBlock;
    MetaSize();
    var tail := Framed(DELTA, text);
    var part := tail[..p - 18];
    assert Says(text)[..p] == Framed(META, []) + part;
    BlockEnds(META, [], part);
    ReadsBack(META, [], Lenient(id).utf8);
    assert Interpret(Block(META, []), false, Lenient(id), id) == Authenticates;
    BlockEnds(DELTA, text, []);
    assert tail + [] == tail;
    DeltaSize(text);
    NotYet(tail, p - 18);
  }

  lemma MetaSize()
    ensures |Framed(META, [])| == 18
  {
  }

  lemma DeltaSize(text: seq<byte>)
    ensures |Framed(DELTA, text)| == |text| + 19 && |Block(DELTA, text)| == |text| + 17
  {
  }
}
