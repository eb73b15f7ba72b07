/** De-framing one synthesized segment: `CWT1`, a big-endian header length, a JSON header, and
    raw PCM16LE audio, arriving in chunks of any size. What is accepted and yielded is proved to
    be a function of the concatenated bytes. */
module AudioDeframer {
  import opened Common
  import opened Gateway

  const MAX_CHUNK_BYTES: nat := 32 * 1024
  const MAX_METADATA_BYTES: nat := 1024
  const MAGIC: seq<byte> := [0x43, 0x57, 0x54, 0x31]

  datatype Header = Header(invocationId: string, encoding: string, sampleRateHz: nat, channels: nat, characters: nat)

  datatype Expected = Expected(invocationId: string, sampleRateHz: nat, characters: nat)

  /** The header codec: a fixed partial function from bytes to headers. */
  type HeaderParser = seq<byte> -> Option<Header>

  predicate HeaderMatches(h: Option<Header>, want: Expected) {
    && h.Some?
    && h.value.invocationId == want.invocationId
    && h.value.encoding == "pcm16le"
    && h.value.sampleRateHz == want.sampleRateHz
    && h.value.channels == 1
    && h.value.characters == want.characters
  }

  function BigEndian32(b: seq<byte>): nat
    requires |b| == 4
  {
    (((b[0] as int) * 256 + b[1] as int) * 256 + b[2] as int) * 256 + b[3] as int
  }

  datatype Scanned = NeedMore | Malformed | Payload(audio: seq<byte>)

  /** The meaning of a prefix of a segment response. */
  function Scan(data: seq<byte>, parse: HeaderParser, want: Expected): Scanned {
    if |data| < 8 then NeedMore
    else if data[..4] != MAGIC then Malformed
    else
      var n := BigEndian32(data[4..8]);
      if n == 0 || n > MAX_METADATA_BYTES then Malformed
      else if |data| < 8 + n then NeedMore
      else if HeaderMatches(parse(data[8..8 + n]), want) then Payload(data[8 + n..])
      else Malformed
  }

  /** More bytes never change a verdict that has been reached. */
  lemma ScanExtends(data: seq<byte>, more: seq<byte>, parse: HeaderParser, want: Expected)
    ensures Scan(data, parse, want).Malformed? ==> Scan(data + more, parse, want).Malformed?
    ensures Scan(data, parse, want).Payload? ==>
              Scan(data + more, parse, want) == Payload(Scan(data, parse, want).audio + more)
  {
    if |data| >= 8 {
      assert (data + more)[..4] == data[..4] && (data + more)[4..8] == data[4..8];
      var n := BigEndian32(data[4..8]);
      if |data| >= 8 + n {
        assert (data + more)[8..8 + n] == data[8..8 + n];
        assert (data + more)[8 + n..] == data[8 + n..] + more;
      }
    }
  }

  /** Audio cut into full 32 KiB blocks... */
  function Blocks(audio: seq<byte>): (r: seq<seq<byte>>)
    ensures forall i :: 0 <= i < |r| ==> |r[i]| == MAX_CHUNK_BYTES
  {
    if |audio| < MAX_CHUNK_BYTES then [] else [audio[..MAX_CHUNK_BYTES]] + Blocks(audio[MAX_CHUNK_BYTES..])
  }

  /** ...and what is left over. */
  function Leftover(audio: seq<byte>): (r: seq<byte>)
    ensures |r| < MAX_CHUNK_BYTES && |r| % 2 == |audio| % 2
    ensures |r| <= |audio|
  {
    if |audio| < MAX_CHUNK_BYTES then audio else Leftover(audio[MAX_CHUNK_BYTES..])
  }

  /** The blocks and the leftover are the audio. */
  lemma {:induction false} BlocksSpell(audio: seq<byte>)
    ensures Concat(Blocks(audio)) + Leftover(audio) == audio
  {
    if |audio| >= MAX_CHUNK_BYTES {
      var rest := audio[MAX_CHUNK_BYTES..];
      BlocksSpell(rest);
      assert Blocks(audio)[1..] == Blocks(rest);
      assert audio == audio[..MAX_CHUNK_BYTES] + rest;
    }
  }

  lemma {:induction false} BlocksExtend(audio: seq<byte>, more: seq<byte>)
    ensures Blocks(audio + more) == Blocks(audio) + Blocks(Leftover(audio) + more)
    ensures Leftover(audio + more) == Leftover(Leftover(audio) + more)
    decreases |audio|
  {
    if |audio| >= MAX_CHUNK_BYTES {
      var rest := audio[MAX_CHUNK_BYTES..];
      assert (audio + more)[..MAX_CHUNK_BYTES] == audio[..MAX_CHUNK_BYTES];
      assert (audio + more)[MAX_CHUNK_BYTES..] == rest + more;
      BlocksExtend(rest, more);
    }
  }

  /** Acceptance as a function of the bytes alone. */
  function OutcomeOf(data: seq<byte>, end: End, parse: HeaderParser, want: Expected): Outcome {
    var scanned := Scan(data, parse, want);
    if |data| > MAX_RESPONSE_BYTES || scanned.Malformed? then Permanent
    else match end
      case Broken => Transient
      case Aborted => Cancelled
      case Eof =>
        if scanned.Payload? && scanned.audio != [] && |scanned.audio| % 2 == 0 then Done else Permanent
  }

  /** The frames yielded for bytes within the response limit. */
  function FramesOf(data: seq<byte>, end: End, parse: HeaderParser, want: Expected): seq<seq<byte>> {
    var scanned := Scan(data, parse, want);
    if !scanned.Payload? then []
    else if OutcomeOf(data, end, parse, want).Done? && Leftover(scanned.audio) != [] then
      Blocks(scanned.audio) + [Leftover(scanned.audio)]
    else Blocks(scanned.audio)
  }

  /** Accepted audio is delivered whole and in order, in nonempty even frames of at most 32 KiB. */
  lemma FramesAreTheAudio(data: seq<byte>, parse: HeaderParser, want: Expected)
    requires OutcomeOf(data, Eof, parse, want).Done?
    ensures Concat(FramesOf(data, Eof, parse, want)) == Scan(data, parse, want).audio
    ensures forall f :: f in FramesOf(data, Eof, parse, want) ==> 0 < |f| <= MAX_CHUNK_BYTES && |f| % 2 == 0
  {
    var audio := Scan(data, parse, want).audio;
    BlocksSpell(audio);
    ConcatOne(Blocks(audio), Leftover(audio));
  }

  /** A segment as the gateway writes it: the letters CWT1, the header's length in four bytes, most
      significant first, the header, and the audio. */
  ghost predicate Laid(data: seq<byte>, header: seq<byte>, audio: seq<byte>) {
    && 1 <= |header| <= 1024
    && data == [67, 87, 84, 49] + [0, 0, (|header| / 256) as byte, (|header| % 256) as byte] + header + audio
  }

  /** A segment is accepted exactly when it is laid out so within 4 MiB, its header names the wanted
      invocation, sample rate and character count, PCM16LE and one channel, and its audio is
      nonempty whole samples; and that audio is what is yielded. */
  lemma AcceptedIff(data: seq<byte>, parse: HeaderParser, want: Expected)
    ensures OutcomeOf(data, Eof, parse, want).Done? <==>
              exists header, audio :: && Laid(data, header, audio) && |data| <= 4 * 1024 * 1024
                                      && parse(header) == Some(Header(want.invocationId, "pcm16le", want.sampleRateHz, 1, want.characters))
                                      && |audio| > 0 && |audio| % 2 == 0
    ensures forall header, audio :: Laid(data, header, audio) && OutcomeOf(data, Eof, parse, want).Done? ==>
              Concat(FramesOf(data, Eof, parse, want)) == audio
  {
    hide OutcomeOf, FramesOf, Concat;
    if OutcomeOf(data, Eof, parse, want).Done? {
      var header, audio := DoneLaid(data, parse, want);
      FramesAreTheAudio(data, parse, want);
    }
    forall header, audio | Laid(data, header, audio)
      ensures LaidVerdict(data, header, audio, parse, want)
    {
      LaidScans(data, header, audio, parse, want);
    }
  }

  /** A segment that is laid out but too long, or whose header is not the wanted one, is a permanent
      failure however it ends; otherwise one that breaks off is a transient one. */
  lemma LaidOutcome(data: seq<byte>, header: seq<byte>, audio: seq<byte>, end: End, parse: HeaderParser, want: Expected)
    requires Laid(data, header, audio)
    ensures OutcomeOf(data, end, parse, want)
            == if |data| > 4 * 1024 * 1024
                  || parse(header) != Some(Header(want.invocationId, "pcm16le", want.sampleRateHz, 1, want.characters)) then Permanent
               else if end.Broken? then Transient
               else if end.Aborted? then Cancelled
               else if |audio| > 0 && |audio| % 2 == 0 then Done
               else Permanent
  {
    var n := |header|;
    assert data[..4] == MAGIC && data[4..8] == [0, 0, (n / 256) as byte, (n % 256) as byte];
    assert data[8..8 + n] == header && data[8 + n..] == audio;
    assert BigEndian32(data[4..8]) == n;
  }

  ghost predicate LaidVerdict(data: seq<byte>, header: seq<byte>, audio: seq<byte>, parse: HeaderParser, want: Expected) {
    && (OutcomeOf(data, Eof, parse, want).Done? ==> Scan(data, parse, want) == Payload(audio))
    && (OutcomeOf(data, Eof, parse, want).Done? <==>
          && |data| <= MAX_RESPONSE_BYTES && |audio| > 0 && |audio| % 2 == 0
          && parse(header) == Some(Header(want.invocationId, "pcm16le", want.sampleRateHz, 1, want.characters)))
  }

  lemma LaidScans(data: seq<byte>, header: seq<byte>, audio: seq<byte>, parse: HeaderParser, want: Expected)
    requires Laid(data, header, audio)
    ensures LaidVerdict(data, header, audio, parse, want)
  {
    LaidOutcome(data, header, audio, Eof, parse, want);
    var n := |header|;
    assert data[..4] == MAGIC && data[4..8] == [0, 0, (n / 256) as byte, (n % 256) as byte];
    assert data[8..8 + n] == header && data[8 + n..] == audio;
    assert BigEndian32(data[4..8]) == n;
  }

  lemma DoneLaid(data: seq<byte>, parse: HeaderParser, want: Expected) returns (header: seq<byte>, audio: seq<byte>)
    requires OutcomeOf(data, Eof, parse, want).Done?
    ensures Laid(data, header, audio)
  {
    var n := BigEndian32(data[4..8]);
    header, audio := data[8..8 + n], data[8 + n..];
    SmallBigEndian(data[4..8]);
    assert data == data[..4] + data[4..8] + header + audio;
  }

  lemma SmallBigEndian(b: seq<byte>)
    requires |b| == 4 && BigEndian32(b) <= 1024
    ensures b == [0, 0, (BigEndian32(b) / 256) as byte, (BigEndian32(b) % 256) as byte]
  {
  }

  /** Mid-stream state: `undecoded` before the header is complete, `audio` afterwards. */
  ghost predicate Tracks(data: seq<byte>, parse: HeaderParser, want: Expected, metadataReceived: bool,
                         undecoded: seq<byte>, audio: seq<byte>, audioBytes: nat, yielded: seq<seq<byte>>)
  {
    var scanned := Scan(data, parse, want);
    if metadataReceived then
      && scanned.Payload? && undecoded == []
      && audio == Leftover(scanned.audio) && yielded == Blocks(scanned.audio) && audioBytes == |scanned.audio|
    else
      scanned.NeedMore? && undecoded == data && audio == [] && audioBytes == 0 && yielded == []
  }

  /** What a segment yields and how it ends. */
  datatype Segment = Segment(frames: seq<seq<byte>>, outcome: Outcome)

  /** The full blocks of what has arrived. */
  function FullBlocks(seen: seq<byte>, parse: HeaderParser, want: Expected): seq<seq<byte>> {
    var scanned := Scan(seen, parse, want);
    if scanned.Payload? then Blocks(scanned.audio) else []
  }

  /** The loop over chunks, by what the bytes read so far say: the response limit is checked before
      a chunk is read. */
  function Stream(seen: seq<byte>, chunks: seq<seq<byte>>, end: End, parse: HeaderParser, want: Expected): Segment
    decreases |chunks|
  {
    if chunks == [] then Segment(FramesOf(seen, end, parse, want), OutcomeOf(seen, end, parse, want))
    else
      var more := seen + chunks[0];
      if |more| > MAX_RESPONSE_BYTES || Scan(more, parse, want).Malformed? then Segment(FullBlocks(seen, parse, want), Permanent)
      else Stream(more, chunks[1..], end, parse, want)
  }

  /** Decode one segment. The outcome depends only on the bytes; so do the frames whenever the
      response stays within its limit; and the 1,032-byte guard is never taken. */
  method DecodeSegment(chunks: seq<seq<byte>>, end: End, parse: HeaderParser, want: Expected)
    returns (yielded: seq<seq<byte>>, outcome: Outcome)
    ensures Segment(yielded, outcome) == Stream([], chunks, end, parse, want)
    ensures outcome == OutcomeOf(Concat(chunks), end, parse, want)
    ensures |Concat(chunks)| <= MAX_RESPONSE_BYTES ==> yielded == FramesOf(Concat(chunks), end, parse, want)
    ensures forall f :: f in yielded ==> 0 < |f| <= MAX_CHUNK_BYTES && |f| % 2 == 0
  {
    hide Tracks, Scan, OutcomeOf, FramesOf, FullBlocks;
    var undecoded: seq<byte>, audio: seq<byte>, metadataReceived, responseBytes, audioBytes := [], [], false, 0, 0;
    yielded := [];
    ghost var seen: seq<byte> := [];
    TracksStart(parse, want);
    for i := 0 to |chunks|
      invariant seen == Concat(chunks[..i]) && responseBytes == |seen| <= MAX_RESPONSE_BYTES
      invariant Tracks(seen, parse, want, metadataReceived, undecoded, audio, audioBytes, yielded)
      invariant Stream([], chunks, end, parse, want) == Stream(seen, chunks[i..], end, parse, want)
    {
      var chunk := chunks[i];
      assert chunks[i..][1..] == chunks[i + 1..];
      ConcatSplit(chunks, i);
      responseBytes := responseBytes + |chunk|;
      if responseBytes > MAX_RESPONSE_BYTES {
        RejectEarly(seen + chunk, Concat(chunks[i + 1..]), end, parse, want);
        FramesSoFar(seen, parse, want, metadataReceived, undecoded, audio, audioBytes, yielded);
        return yielded, Permanent;
      }
      FramesSoFar(seen, parse, want, metadataReceived, undecoded, audio, audioBytes, yielded);
      var fed := FeedChunk(seen, chunk, parse, want, metadataReceived, undecoded, audio, audioBytes, yielded);
      if fed.None? {
        RejectEarly(seen + chunk, Concat(chunks[i + 1..]), end, parse, want);
        RejectedFrames(seen, chunk, Concat(chunks[i + 1..]), end, parse, want, metadataReceived, undecoded, audio, audioBytes, yielded);
        return yielded, Permanent;
      }
      var State(m, u, a, n, y) := fed.value;
      metadataReceived, undecoded, audio, audioBytes, yielded := m, u, a, n, y;
      seen := seen + chunk;
    }
    assert chunks[..|chunks|] == chunks;
    Finish(seen, end, parse, want, metadataReceived, undecoded, audio, audioBytes, yielded);
    if end == Broken {
      return yielded, Transient;
    }
    if end == Aborted {
      return yielded, Cancelled;
    }
    if !metadataReceived || audioBytes == 0 || audioBytes % 2 != 0 || |audio| % 2 != 0 {
      return yielded, Permanent;
    }
    if audio != [] {
      yielded := yielded + [audio];
    }
    outcome := Done;
  }

  datatype State = State(metadataReceived: bool, undecoded: seq<byte>, audio: seq<byte>, audioBytes: nat, yielded: seq<seq<byte>>)

  /** One chunk: extend the header or the audio, then yield every full block. `None` rejects. */
  method FeedChunk(ghost seen: seq<byte>, chunk: seq<byte>, parse: HeaderParser, want: Expected,
                   metadataReceived: bool, undecoded: seq<byte>, audio: seq<byte>, audioBytes: nat, yielded: seq<seq<byte>>)
    returns (r: Option<State>)
    requires Tracks(seen, parse, want, metadataReceived, undecoded, audio, audioBytes, yielded)
    ensures r.None? <==> Scan(seen + chunk, parse, want).Malformed?
    ensures r.Some? ==> var s := r.value;
              Tracks(seen + chunk, parse, want, s.metadataReceived, s.undecoded, s.audio, s.audioBytes, s.yielded)
  {
    ScanExtends(seen, chunk, parse, want);
    var pending: seq<byte>, count;
    if metadataReceived {
      pending, count := audio + chunk, audioBytes + |chunk|;
    } else {
      var held := undecoded + chunk;
      if |held| < 8 {
        return Some(State(false, held, [], 0, []));
      }
      if held[..4] != MAGIC {
        return None;
      }
      var metadataBytes := BigEndian32(held[4..8]);
      if metadataBytes == 0 || metadataBytes > MAX_METADATA_BYTES {
        return None;
      }
      if |held| < 8 + metadataBytes {
        if |held| > 8 + MAX_METADATA_BYTES {
          assert false;
        }
        return Some(State(false, held, [], 0, []));
      }
      if !HeaderMatches(parse(held[8..8 + metadataBytes]), want) {
        return None;
      }
      pending := held[8 + metadataBytes..];
      count := |pending|;
    }
    ghost var all := Scan(seen + chunk, parse, want).audio;
    if metadataReceived {
      BlocksExtend(Scan(seen, parse, want).audio, chunk);
    }
    var blocks, left := DrainBlocks(pending);
    r := Some(State(true, [], left, count, yielded + blocks));
  }

  /** Split every full block off the front of the audio buffer. */
  method DrainBlocks(audio: seq<byte>) returns (blocks: seq<seq<byte>>, left: seq<byte>)
    ensures blocks == Blocks(audio) && left == Leftover(audio)
  {
    blocks, left := [], audio;
    while |left| >= MAX_CHUNK_BYTES
      invariant Blocks(audio) == blocks + Blocks(left) && Leftover(audio) == Leftover(left)
      decreases |left|
    {
      blocks, left := blocks + [left[..MAX_CHUNK_BYTES]], left[MAX_CHUNK_BYTES..];
    }
  }

  lemma TracksStart(parse: HeaderParser, want: Expected)
    ensures Tracks([], parse, want, false, [], [], 0, [])
  {
  }

  /** Once rejected, later bytes cannot rescue a segment. */
  lemma RejectEarly(data: seq<byte>, more: seq<byte>, end: End, parse: HeaderParser, want: Expected)
    requires |data| > MAX_RESPONSE_BYTES || Scan(data, parse, want).Malformed?
    ensures OutcomeOf(data + more, end, parse, want) == Permanent
  {
    ScanExtends(data, more, parse, want);
  }

  lemma FramesSoFar(seen: seq<byte>, parse: HeaderParser, want: Expected, metadataReceived: bool,
                    undecoded: seq<byte>, audio: seq<byte>, audioBytes: nat, yielded: seq<seq<byte>>)
    requires Tracks(seen, parse, want, metadataReceived, undecoded, audio, audioBytes, yielded)
    ensures forall f :: f in yielded ==> 0 < |f| <= MAX_CHUNK_BYTES && |f| % 2 == 0
    ensures yielded == FullBlocks(seen, parse, want)
  {
  }

  lemma RejectedFrames(seen: seq<byte>, chunk: seq<byte>, more: seq<byte>, end: End, parse: HeaderParser, want: Expected,
                       metadataReceived: bool, undecoded: seq<byte>, audio: seq<byte>, audioBytes: nat, yielded: seq<seq<byte>>)
    requires Tracks(seen, parse, want, metadataReceived, undecoded, audio, audioBytes, yielded)
    requires Scan(seen + chunk, parse, want).Malformed?
    ensures yielded == [] && FramesOf(seen + chunk + more, end, parse, want) == []
  {
    ScanExtends(seen, chunk, parse, want);
    ScanExtends(seen + chunk, more, parse, want);
  }

  lemma Finish(seen: seq<byte>, end: End, parse: HeaderParser, want: Expected, metadataReceived: bool,
               undecoded: seq<byte>, audio: seq<byte>, audioBytes: nat, yielded: seq<seq<byte>>)
    requires Tracks(seen, parse, want, metadataReceived, undecoded, audio, audioBytes, yielded)
    requires |seen| <= MAX_RESPONSE_BYTES
    ensures forall f :: f in yielded ==> 0 < |f| <= MAX_CHUNK_BYTES && |f| % 2 == 0
    ensures |audio| < MAX_CHUNK_BYTES
    ensures var accept := metadataReceived && audioBytes != 0 && audioBytes % 2 == 0 && |audio| % 2 == 0;
            && OutcomeOf(seen, end, parse, want) ==
                 (match end case Broken => Transient case Aborted => Cancelled case Eof => if accept then Done else Permanent)
            && FramesOf(seen, end, parse, want) == yielded + (if end.Eof? && accept && audio != [] then [audio] else [])
  {
  }
}
