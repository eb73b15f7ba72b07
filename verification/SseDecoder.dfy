/** The reasoner's incremental server-sent-event decoder. Blocks end at the first empty line
    (`LF LF` or `CR LF CR LF`); each must carry exactly one `event:` line and at least one
    `data:` line, a strict subset of section 9.2.6 of the WHATWG HTML Living Standard. */
module SseDecoder {
  import opened Common
  import opened Gateway
  import opened Json

  const MAX_EVENT_BYTES: nat := 512 * 1024
  const LF: byte := 10
  const CR: byte := 13
  const SPACE: byte := 32
  const COLON: byte := 58
  const EVENT_FIELD: seq<byte> := [101, 118, 101, 110, 116, 58]  // "event:"
  const DATA_FIELD: seq<byte> := [100, 97, 116, 97, 58]          // "data:"
  const META: seq<byte> := [109, 101, 116, 97]
  const DELTA: seq<byte> := [100, 101, 108, 116, 97]
  const TOOL_CALL: seq<byte> := [116, 111, 111, 108, 95, 99, 97, 108, 108]
  const COMPLETED: seq<byte> := [99, 111, 109, 112, 108, 101, 116, 101, 100]

  // ---------- block boundaries ----------

  datatype Cut = Cut(at: nat, length: nat)

  /** The length of the delimiter that starts at `i`, or zero. */
  function DelimiterAt(b: seq<byte>, i: nat): nat {
    if i + 2 <= |b| && b[i] == LF && b[i + 1] == LF then 2
    else if i + 4 <= |b| && b[i] == CR && b[i + 1] == LF && b[i + 2] == CR && b[i + 3] == LF then 4
    else 0
  }

  ghost predicate IsFirstCut(b: seq<byte>, c: Cut) {
    && c.length == DelimiterAt(b, c.at) && c.length > 0
    && forall j :: 0 <= j < c.at ==> DelimiterAt(b, j) == 0
  }

  function BoundaryFrom(b: seq<byte>, i: nat): (r: Option<Cut>)
    requires i <= |b| && forall j :: 0 <= j < i ==> DelimiterAt(b, j) == 0
    ensures r.Some? ==> IsFirstCut(b, r.value) && r.value.at + r.value.length <= |b|
    ensures r.None? ==> forall j :: 0 <= j < |b| ==> DelimiterAt(b, j) == 0
    decreases |b| - i
  {
    if i == |b| then None
    else if DelimiterAt(b, i) > 0 then Some(Cut(i, DelimiterAt(b, i)))
    else BoundaryFrom(b, i + 1)
  }

  /** The first block boundary. */
  function Boundary(b: seq<byte>): (r: Option<Cut>)
    ensures r.Some? ==> IsFirstCut(b, r.value) && 0 < r.value.length && r.value.at + r.value.length <= |b|
    ensures r.None? ==> forall j :: 0 <= j < |b| ==> DelimiterAt(b, j) == 0
  {
    BoundaryFrom(b, 0)
  }

  /** A delimiter seen in a prefix is there in the whole, and the other way round when it is
      inside the prefix. */
  lemma DelimiterPrefix(b: seq<byte>, more: seq<byte>, i: nat)
    ensures DelimiterAt(b, i) > 0 ==> DelimiterAt(b + more, i) == DelimiterAt(b, i)
    ensures DelimiterAt(b + more, i) > 0 && i + DelimiterAt(b + more, i) <= |b| ==>
              DelimiterAt(b, i) == DelimiterAt(b + more, i)
  {
  }

  /** A boundary found early is the boundary: bytes still to arrive cannot create an earlier one. */
  lemma BoundaryStable(b: seq<byte>, more: seq<byte>)
    requires Boundary(b).Some?
    ensures Boundary(b + more) == Boundary(b)
  {
    var c := Boundary(b).value;
    DelimiterPrefix(b, more, c.at);
    assert Boundary(b + more).Some? by {
      assert DelimiterAt(b + more, c.at) > 0;
    }
    var d := Boundary(b + more).value;
    DelimiterPrefix(b, more, d.at);
    assert d.at <= c.at;
    // Only a CR LF CR LF starting just before an LF LF could straddle the end of `b`, and the
    // byte they share would have to be both CR and LF.
    if d.at < c.at {
      assert false;
    }
  }

  /** A boundary that lies inside a prefix is found in that prefix. */
  lemma BoundaryInPrefix(b: seq<byte>, more: seq<byte>)
    requires Boundary(b + more).Some?
    requires var c := Boundary(b + more).value; c.at + c.length <= |b|
    ensures Boundary(b).Some?
  {
    var c := Boundary(b + more).value;
    DelimiterPrefix(b, more, c.at);
    assert DelimiterAt(b, c.at) > 0;
  }

  method SseBoundary(buffer: seq<byte>) returns (r: Option<Cut>)
    ensures r == Boundary(buffer)
  {
    var last := if |buffer| == 0 then 0 else |buffer| - 1;
    for index := 0 to last
      invariant forall j :: 0 <= j < index ==> DelimiterAt(buffer, j) == 0
    {
      if buffer[index] == LF && buffer[index + 1] == LF {
        CutUnique(buffer, Cut(index, 2));
        return Some(Cut(index, 2));
      }
      if index + 4 <= |buffer| && buffer[index..index + 4] == [CR, LF, CR, LF] {
        assert buffer[index..index + 4][0] == CR && buffer[index..index + 4][1] == LF;
        assert buffer[index..index + 4][2] == CR && buffer[index..index + 4][3] == LF;
        CutUnique(buffer, Cut(index, 4));
        return Some(Cut(index, 4));
      }
      assert index + 4 <= |buffer| ==> buffer[index..index + 4] == [buffer[index], buffer[index + 1], buffer[index + 2], buffer[index + 3]];
    }
    return None;
  }

  lemma CutUnique(b: seq<byte>, c: Cut)
    requires IsFirstCut(b, c)
    ensures Boundary(b) == Some(c)
  {
    assert DelimiterAt(b, c.at) > 0;
    assert c.at < |b|;
    var d := Boundary(b).value;
    assert d.at == c.at;
  }

  // ---------- one block ----------

  datatype Line = EventLine(value: seq<byte>) | DataLine(value: seq<byte>) | Ignored | Unsupported

  function StripPrefix(s: seq<byte>, p: seq<byte>): Option<seq<byte>> {
    if |p| <= |s| && s[..|p|] == p then Some(s[|p|..]) else None
  }

  function StripCr(s: seq<byte>): seq<byte> {
    if s != [] && s[|s| - 1] == CR then s[..|s| - 1] else s
  }

  function StripSpace(s: seq<byte>): seq<byte> {
    if s != [] && s[0] == SPACE then s[1..] else s
  }

  function Classify(raw: seq<byte>): Line {
    var line := StripCr(raw);
    if StripPrefix(line, EVENT_FIELD).Some? then EventLine(StripSpace(StripPrefix(line, EVENT_FIELD).value))
    else if StripPrefix(line, DATA_FIELD).Some? then DataLine(StripSpace(StripPrefix(line, DATA_FIELD).value))
    else if line == [] || line[0] == COLON then Ignored
    else Unsupported
  }

  /** Lines as Rust's `str::lines` gives them: split at LF, one CR dropped before each LF, no
      empty line after a final LF. */
  function Lines(block: seq<byte>): seq<seq<byte>> {
    if block == [] then []
    else
      var n := LineLength(block);
      if n == |block| then [block] else [StripCr(block[..n])] + Lines(block[n + 1..])
  }

  function LineLength(block: seq<byte>): (n: nat)
    ensures n <= |block| && (n < |block| ==> block[n] == LF)
  {
    if block == [] || block[0] == LF then 0 else 1 + LineLength(block[1..])
  }

  function EventValues(lines: seq<seq<byte>>): seq<seq<byte>> {
    if lines == [] then []
    else (if Classify(lines[0]).EventLine? then [Classify(lines[0]).value] else []) + EventValues(lines[1..])
  }

  function DataValues(lines: seq<seq<byte>>): seq<seq<byte>> {
    if lines == [] then []
    else (if Classify(lines[0]).DataLine? then [Classify(lines[0]).value] else []) + DataValues(lines[1..])
  }

  predicate Supported(lines: seq<seq<byte>>) {
    forall i :: 0 <= i < |lines| ==> !Classify(lines[i]).Unsupported?
  }

  function Join(parts: seq<seq<byte>>): seq<byte> {
    if parts == [] then [] else if |parts| == 1 then parts[0] else parts[0] + [LF] + Join(parts[1..])
  }

  datatype Message = Message(event: seq<byte>, data: seq<byte>)

  /** The meaning of a block: one event name and the joined data, or nothing acceptable. */
  function ParseBlock(block: seq<byte>, utf8: seq<byte> -> bool): Option<Message> {
    var lines := Lines(block);
    if utf8(block) && Supported(lines) && |EventValues(lines)| == 1 && DataValues(lines) != [] then
      Some(Message(EventValues(lines)[0], Join(DataValues(lines))))
    else None
  }

  /** The line loop of `take_sse_event`. */
  method ReadBlock(block: seq<byte>, utf8: seq<byte> -> bool) returns (r: Option<Message>)
    ensures r == ParseBlock(block, utf8)
  {
    hide Classify, EventValues, DataValues, Join, Lines;
    if !utf8(block) {
      return None;
    }
    var lines := Lines(block);
    NoValues();
    var event: Option<seq<byte>>, data: seq<seq<byte>> := None, [];
    for i := 0 to |lines|
      invariant Supported(lines[..i]) && data == DataValues(lines[..i])
      invariant EventValues(lines[..i]) == if event.Some? then [event.value] else []
    {
      ValuesSnoc(lines[..i], lines[i]);
      assert lines[..i + 1] == lines[..i] + [lines[i]];
      assert lines[i] == lines[..i + 1][i];
      var line := Classify(lines[i]);
      if line.EventLine? {
        if event.Some? {
          ValuesPrefix(lines, i + 1);
          return None;
        }
        event := Some(line.value);
      } else if line.DataLine? {
        data := data + [line.value];
      } else if line.Unsupported? {
        return None;
      }
    }
    assert lines[..|lines|] == lines;
    if event.None? || data == [] {
      return None;
    }
    r := Some(Message(event.value, Join(data)));
  }

  lemma NoValues()
    ensures EventValues([]) == [] && DataValues([]) == []
  {
  }

  lemma ValuesSnoc(lines: seq<seq<byte>>, line: seq<byte>)
    ensures EventValues(lines + [line]) == EventValues(lines) + (if Classify(line).EventLine? then [Classify(line).value] else [])
    ensures DataValues(lines + [line]) == DataValues(lines) + (if Classify(line).DataLine? then [Classify(line).value] else [])
  {
    EventValuesSnoc(lines, line);
    DataValuesSnoc(lines, line);
  }

  lemma {:induction false} EventValuesSnoc(lines: seq<seq<byte>>, line: seq<byte>)
    ensures EventValues(lines + [line]) == EventValues(lines) + (if Classify(line).EventLine? then [Classify(line).value] else [])
  {
    hide Classify;
    if lines == [] {
      assert lines + [line] == [line] && [line][1..] == [];
    } else {
      assert (lines + [line])[1..] == lines[1..] + [line] && (lines + [line])[0] == lines[0];
      EventValuesSnoc(lines[1..], line);
    }
  }

  lemma {:induction false} DataValuesSnoc(lines: seq<seq<byte>>, line: seq<byte>)
    ensures DataValues(lines + [line]) == DataValues(lines) + (if Classify(line).DataLine? then [Classify(line).value] else [])
  {
    hide Classify;
    if lines == [] {
      assert lines + [line] == [line] && [line][1..] == [];
    } else {
      assert (lines + [line])[1..] == lines[1..] + [line] && (lines + [line])[0] == lines[0];
      DataValuesSnoc(lines[1..], line);
    }
  }

  lemma {:induction false} ValuesPrefix(lines: seq<seq<byte>>, n: nat)
    requires n <= |lines|
    ensures |EventValues(lines[..n])| <= |EventValues(lines)|
    decreases |lines| - n
  {
    if n == |lines| {
      assert lines[..n] == lines;
    } else {
      hide Classify;
      ValuesSnoc(lines[..n], lines[n]);
      assert lines[..n + 1] == lines[..n] + [lines[n]];
      ValuesPrefix(lines, n + 1);
    }
  }

  // ---------- the stream ----------

  datatype ReasonEvent = Delta(text: seq<byte>) | Call(callId: string, name: string, input: Value) | Completed

  /** The JSON codec: fixed partial functions from text to the four payload shapes. */
  datatype Codec = Codec(
    utf8: seq<byte> -> bool,
    metaId: seq<byte> -> Option<string>,
    deltaText: seq<byte> -> Option<seq<byte>>,
    toolCall: seq<byte> -> Option<ReasonEvent>,
    usagePositive: seq<byte> -> bool)

  datatype Meaning = Authenticates | Yields(event: ReasonEvent) | Rejects

  /** What one block means, before and after authentication. */
  function Interpret(block: seq<byte>, authenticated: bool, codec: Codec, id: string): Meaning {
    var m := ParseBlock(block, codec.utf8);
    if m.None? then Rejects
    else if m.value.event == META && !authenticated then
      if codec.metaId(m.value.data) == Some(id) then Authenticates else Rejects
    else if m.value.event == DELTA && authenticated then
      var text := codec.deltaText(m.value.data);
      if text.Some? && text.value != [] then Yields(Delta(text.value)) else Rejects
    else if m.value.event == TOOL_CALL && authenticated then
      var call := codec.toolCall(m.value.data);
      if call.Some? && call.value.Call? && call.value.input.Obj? then Yields(call.value) else Rejects
    else if m.value.event == COMPLETED && authenticated then
      if codec.usagePositive(m.value.data) then Yields(Completed) else Rejects
    else Rejects
  }

  datatype Status = Pending | Finished | Rejected

  /** Everything a byte sequence says: the events, how they ended, and what is still undecided. */
  datatype Reading = Reading(events: seq<ReasonEvent>, status: Status, authenticated: bool, rest: seq<byte>)

  function Decode(data: seq<byte>, authenticated: bool, codec: Codec, id: string): (r: Reading)
    decreases |data|
  {
    var c := Boundary(data);
    if c.None? then Reading([], Pending, authenticated, data)
    else
      var rest := data[c.value.at + c.value.length..];
      match Interpret(data[..c.value.at], authenticated, codec, id)
      case Rejects => Reading([], Rejected, authenticated, rest)
      case Authenticates => Decode(rest, true, codec, id)
      case Yields(e) =>
        if e.Completed? then Reading([e], Finished, authenticated, rest)
        else
          var more := Decode(rest, authenticated, codec, id);
          more.(events := [e] + more.events)
  }

  /** `whole` is what `part` becomes when more bytes arrive. */
  ghost predicate Resumes(part: Reading, more: seq<byte>, whole: Reading, codec: Codec, id: string) {
    if part.status.Pending? then
      var tail := Decode(part.rest + more, part.authenticated, codec, id);
      whole == tail.(events := part.events + tail.events)
    else
      whole.events == part.events && whole.status == part.status
  }

  lemma ResumesAfter(e: ReasonEvent, part: Reading, more: seq<byte>, whole: Reading, codec: Codec, id: string)
    requires Resumes(part, more, whole, codec, id)
    ensures Resumes(part.(events := [e] + part.events), more, whole.(events := [e] + whole.events), codec, id)
  {
    hide Decode;
    if part.status.Pending? {
      var tail := Decode(part.rest + more, part.authenticated, codec, id);
      assert [e] + (part.events + tail.events) == [e] + part.events + tail.events;
    }
  }

  /** Reading on after more bytes arrive gives the same as reading everything at once. */
  lemma {:induction false} DecodeExtends(data: seq<byte>, more: seq<byte>, authenticated: bool, codec: Codec, id: string)
    ensures Resumes(Decode(data, authenticated, codec, id), more, Decode(data + more, authenticated, codec, id), codec, id)
    decreases |data|
  {
    var c := Boundary(data);
    if c.None? {
      var tail := Decode(data + more, authenticated, codec, id);
      assert [] + tail.events == tail.events;
    } else {
      hide Interpret, DelimiterAt, IsFirstCut, BoundaryFrom, Boundary, Resumes;
      BoundaryStable(data, more);
      var n := c.value.at + c.value.length;
      assert (data + more)[..c.value.at] == data[..c.value.at];
      assert (data + more)[n..] == data[n..] + more;
      match Interpret(data[..c.value.at], authenticated, codec, id)
      case Rejects =>
        Stopped(Decode(data, authenticated, codec, id), more, Decode(data + more, authenticated, codec, id), codec, id);
      case Authenticates =>
        DecodeExtends(data[n..], more, true, codec, id);
      case Yields(e) =>
        if e.Completed? {
          Stopped(Decode(data, authenticated, codec, id), more, Decode(data + more, authenticated, codec, id), codec, id);
        } else {
          DecodeExtends(data[n..], more, authenticated, codec, id);
          ResumesAfter(e, Decode(data[n..], authenticated, codec, id), more, Decode(data[n..] + more, authenticated, codec, id), codec, id);
        }
    }
  }

  lemma Stopped(part: Reading, more: seq<byte>, whole: Reading, codec: Codec, id: string)
    requires !part.status.Pending? && whole.events == part.events && whole.status == part.status
    ensures Resumes(part, more, whole, codec, id)
  {
  }

  /** No event escapes before a matching `meta`, and `Completed` is the last event exactly when
      the stream finished. */
  lemma {:induction false} AuthenticatedFirst(data: seq<byte>, codec: Codec, id: string)
    ensures var r := Decode(data, false, codec, id);
            r.events != [] ==>
              var c := Boundary(data);
              && c.Some?
              && Interpret(data[..c.value.at], false, codec, id).Authenticates?
              && ParseBlock(data[..c.value.at], codec.utf8).Some?
              && codec.metaId(ParseBlock(data[..c.value.at], codec.utf8).value.data) == Some(id)
  {
  }

  lemma {:induction false} CompletedLast(data: seq<byte>, authenticated: bool, codec: Codec, id: string)
    ensures var r := Decode(data, authenticated, codec, id);
            && (forall i :: 0 <= i < |r.events| - 1 ==> !r.events[i].Completed?)
            && (r.status.Finished? <==> r.events != [] && r.events[|r.events| - 1].Completed?)
    decreases |data|
  {
    hide Interpret, DelimiterAt, IsFirstCut, BoundaryFrom, Boundary;
    var c := Boundary(data);
    if c.Some? {
      var rest := data[c.value.at + c.value.length..];
      CompletedLast(rest, true, codec, id);
      CompletedLast(rest, authenticated, codec, id);
    }
  }

  /** Every block with its delimiter, and the unterminated tail, within the per-event bound. */
  predicate BlocksWithin(data: seq<byte>)
    decreases |data|
  {
    var c := Boundary(data);
    if c.None? then |data| <= MAX_EVENT_BYTES
    else
      var n := c.value.at + c.value.length;
      n <= MAX_EVENT_BYTES && BlocksWithin(data[n..])
  }

  /** What a prefix leaves undecided is part of one block, so it obeys the per-event bound. */
  lemma {:induction false} RestWithin(data: seq<byte>, more: seq<byte>, authenticated: bool, codec: Codec, id: string)
    requires BlocksWithin(data + more)
    ensures var r := Decode(data, authenticated, codec, id);
            r.status.Pending? ==> |r.rest| <= MAX_EVENT_BYTES && BlocksWithin(r.rest + more)
    decreases |data|
  {
    hide Interpret;
    var c := Boundary(data);
    if c.None? {
      if Boundary(data + more).Some? {
        var d := Boundary(data + more).value;
        if d.at + d.length <= |data| {
          BoundaryInPrefix(data, more);
        }
      }
    } else {
      BoundaryStable(data, more);
      var n := c.value.at + c.value.length;
      assert (data + more)[n..] == data[n..] + more;
      RestWithin(data[n..], more, true, codec, id);
      RestWithin(data[n..], more, authenticated, codec, id);
    }
  }

  function OutcomeOf(status: Status, end: End): Outcome {
    match status
    case Finished => Done
    case Rejected => Permanent
    case Pending => (match end case Eof => Permanent case Broken => Transient case Aborted => Cancelled)
  }

  ghost predicate SizesWithin(data: seq<byte>) {
    |data| <= MAX_RESPONSE_BYTES && BlocksWithin(data)
  }

  /** What a stream yields and how it ends. */
  datatype Streamed = Streamed(events: seq<ReasonEvent>, outcome: Outcome)

  /** The loop over chunks, by what the bytes read so far say: the response limit is checked before
      a chunk is read, the per-event limit after. */
  function Stream(seen: seq<byte>, chunks: seq<seq<byte>>, end: End, codec: Codec, id: string): Streamed
    decreases |chunks|
  {
    var before := Decode(seen, false, codec, id);
    if chunks == [] then Streamed(before.events, OutcomeOf(Pending, end))
    else
      var more := seen + chunks[0];
      var r := Decode(more, false, codec, id);
      if |more| > MAX_RESPONSE_BYTES then Streamed(before.events, Permanent)
      else if !r.status.Pending? then Streamed(r.events, OutcomeOf(r.status, end))
      else if |r.rest| > MAX_EVENT_BYTES then Streamed(r.events, Permanent)
      else Stream(more, chunks[1..], end, codec, id)
  }

  /** The reasoner's event loop. Within the size bounds, what it yields and how it ends depend on
      the concatenated bytes alone, however they were cut into chunks. On any input it yields
      only a prefix of what the bytes say, and finishes only if they do. */
  method Reason(chunks: seq<seq<byte>>, end: End, codec: Codec, id: string)
    returns (yielded: seq<ReasonEvent>, outcome: Outcome)
    ensures Streamed(yielded, outcome) == Stream([], chunks, end, codec, id)
    ensures var whole := Decode(Concat(chunks), false, codec, id);
            && yielded <= whole.events
            && (outcome.Done? ==> yielded == whole.events && whole.status.Finished?)
            && (SizesWithin(Concat(chunks)) ==> yielded == whole.events && outcome == OutcomeOf(whole.status, end))
  {
    hide Decode, BlocksWithin;
    ghost var whole := Concat(chunks);
    ghost var seen: seq<byte> := [];
    var buffer: seq<byte>, totalBytes, authenticated := [], 0, false;
    yielded := [];
    NothingRead(false, codec, id);
    for i := 0 to |chunks|
      invariant seen == Concat(chunks[..i]) && totalBytes == |seen|
      invariant Decode(seen, false, codec, id) == Reading(yielded, Pending, authenticated, buffer)
      invariant Stream([], chunks, end, codec, id) == Stream(seen, chunks[i..], end, codec, id)
    {
      assert chunks[i..][1..] == chunks[i + 1..];
      ConcatSplit(chunks, i);
      ghost var after := Concat(chunks[i + 1..]);
      assert whole == seen + (chunks[i] + after);
      DecodeExtends(seen, chunks[i] + after, false, codec, id);
      totalBytes := totalBytes + |chunks[i]|;
      if totalBytes > MAX_RESPONSE_BYTES {
        return yielded, Permanent;
      }
      DecodeExtends(seen, chunks[i], false, codec, id);
      var r := Drain(buffer + chunks[i], authenticated, codec, id);
      yielded := yielded + r.events;
      seen := seen + chunks[i];
      assert whole == seen + after;
      DecodeExtends(seen, after, false, codec, id);
      if !r.status.Pending? {
        return yielded, OutcomeOf(r.status, end);
      }
      buffer, authenticated := r.rest, r.authenticated;
      if |buffer| > MAX_EVENT_BYTES {
        assert !BlocksWithin(whole) by {
          if BlocksWithin(whole) {
            RestWithin(seen, after, false, codec, id);
          }
        }
        return yielded, Permanent;
      }
    }
    assert chunks[..|chunks|] == chunks;
    outcome := OutcomeOf(Pending, end);
  }

  lemma NothingRead(authenticated: bool, codec: Codec, id: string)
    ensures Decode([], authenticated, codec, id) == Reading([], Pending, authenticated, [])
  {
  }

  /** Reading one block. */
  lemma DecodeBlock(data: seq<byte>, authenticated: bool, codec: Codec, id: string)
    ensures var r, c := Decode(data, authenticated, codec, id), Boundary(data);
            if c.None? then r == Reading([], Pending, authenticated, data)
            else
              var rest := data[c.value.at + c.value.length..];
              match Interpret(data[..c.value.at], authenticated, codec, id)
              case Rejects => r == Reading([], Rejected, authenticated, rest)
              case Authenticates => r == Decode(rest, true, codec, id)
              case Yields(e) =>
                if e.Completed? then r == Reading([e], Finished, authenticated, rest)
                else r == Decode(rest, authenticated, codec, id).(events := [e] + Decode(rest, authenticated, codec, id).events)
  {
    hide Interpret, DelimiterAt, IsFirstCut, BoundaryFrom, Boundary;
  }

  /** Take events off the front of the buffer until none is complete. */
  method Drain(data: seq<byte>, auth: bool, codec: Codec, id: string) returns (r: Reading)
    ensures r.events == Decode(data, auth, codec, id).events
    ensures r.status == Decode(data, auth, codec, id).status
    ensures r.status.Pending? ==> r == Decode(data, auth, codec, id)
  {
    hide Interpret, DelimiterAt, IsFirstCut, BoundaryFrom, Boundary, Decode;
    var buffer, authenticated, yielded := data, auth, [];
    assert [] + Decode(data, auth, codec, id).events == Decode(data, auth, codec, id).events;
    while true
      invariant var rest := Decode(buffer, authenticated, codec, id);
                Decode(data, auth, codec, id) == rest.(events := yielded + rest.events)
      decreases |buffer|
    {
      DecodeBlock(buffer, authenticated, codec, id);
      assert yielded + [] == yielded;
      var boundary := SseBoundary(buffer);
      if boundary.None? {
        return Reading(yielded, Pending, authenticated, buffer);
      }
      var meaning := InterpretBlock(buffer[..boundary.value.at], authenticated, codec, id);
      buffer := buffer[boundary.value.at + boundary.value.length..];
      match meaning {
        case Rejects =>
          return Reading(yielded, Rejected, authenticated, buffer);
        case Authenticates =>
          authenticated := true;
        case Yields(e) =>
          ghost var later := Decode(buffer, authenticated, codec, id).events;
          assert yielded + ([e] + later) == yielded + [e] + later;
          yielded := yielded + [e];
          if e.Completed? {
            return Reading(yielded, Finished, authenticated, buffer);
          }
      }
    }
  }

  /** Parse one block and check it against the authentication state. */
  method InterpretBlock(block: seq<byte>, authenticated: bool, codec: Codec, id: string) returns (r: Meaning)
    ensures r == Interpret(block, authenticated, codec, id)
  {
    var m := ReadBlock(block, codec.utf8);
    if m.None? {
      return Rejects;
    }
    var Message(event, data) := m.value;
    r := Rejects;
    if event == META && !authenticated {
      if codec.metaId(data) == Some(id) {
        r := Authenticates;
      }
    } else if event == DELTA && authenticated {
      var text := codec.deltaText(data);
      if text.Some? && text.value != [] {
        r := Yields(Delta(text.value));
      }
    } else if event == TOOL_CALL && authenticated {
      var call := codec.toolCall(data);
      if call.Some? && call.value.Call? && call.value.input.Obj? {
        r := Yields(call.value);
      }
    } else if event == COMPLETED && authenticated {
      if codec.usagePositive(data) {
        r := Yields(Completed);
      }
    }
  }
}
