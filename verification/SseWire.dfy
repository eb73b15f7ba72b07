/** What a server writes and what the reasoner reads: blocks of fields, with either line ending,
    optional spaces and comments, are read back as the one event they carry, and a stream of blocks
    yields what its events mean, in order. */
module SseWire {
  import opened Common
  import opened Gateway
  import opened Json
  import opened SseDecoder

  function Ascii(s: string): seq<byte>
    requires forall i :: 0 <= i < |s| ==> s[i] < 128 as char
  {
    seq(|s|, i requires 0 <= i < |s| => s[i] as int as byte)
  }

  /** Bytes of one line. */
  predicate OneLine(s: seq<byte>) {
    forall i :: 0 <= i < |s| ==> s[i] != LF && s[i] != CR
  }

  predicate StartsWith(s: seq<byte>, p: seq<byte>) {
    |p| <= |s| && s[..|p|] == p
  }

  datatype Entry =
    | EventField(value: seq<byte>, spaced: bool)
    | DataField(value: seq<byte>, spaced: bool)
    | Comment(text: seq<byte>)
    | Stray(line: seq<byte>)       // anything else that is not empty

  predicate Writable(f: Entry) {
    match f
    case EventField(value, spaced) => OneLine(value) && (spaced || value == [] || value[0] != 32)
    case DataField(value, spaced) => OneLine(value) && (spaced || value == [] || value[0] != 32)
    case Comment(text) => OneLine(text)
    case Stray(line) =>
      && OneLine(line) && line != [] && line[0] != 58
      && !StartsWith(line, Ascii("event:")) && !StartsWith(line, Ascii("data:"))
  }

  function LineOf(f: Entry): seq<byte> {
    match f
    case EventField(value, spaced) => Ascii("event:") + (if spaced then [32] else []) + value
    case DataField(value, spaced) => Ascii("data:") + (if spaced then [32] else []) + value
    case Comment(text) => [58] + text
    case Stray(line) => line
  }

  datatype Block = Block(fields: seq<Entry>, crlf: bool)

  predicate Written(b: Block) {
    forall i :: 0 <= i < |b.fields| ==> Writable(b.fields[i])
  }

  function Newline(crlf: bool): seq<byte> {
    if crlf then [13, 10] else [10]
  }

  function TextOf(fields: seq<Entry>, crlf: bool): seq<byte> {
    if fields == [] then []
    else if |fields| == 1 then LineOf(fields[0])
    else LineOf(fields[0]) + Newline(crlf) + TextOf(fields[1..], crlf)
  }

  /** A block on the wire, with the empty line that ends it. */
  function Wired(b: Block): seq<byte> {
    TextOf(b.fields, b.crlf) + Newline(b.crlf) + Newline(b.crlf)
  }

  // ---------- what a block carries ----------

  function Events(fields: seq<Entry>): seq<seq<byte>> {
    if fields == [] then [] else (if fields[0].EventField? then [fields[0].value] else []) + Events(fields[1..])
  }

  function Datas(fields: seq<Entry>): seq<seq<byte>> {
    if fields == [] then [] else (if fields[0].DataField? then [fields[0].value] else []) + Datas(fields[1..])
  }

  /** One event line, at least one data line joined by line feeds, comments ignored, nothing else. */
  function Carried(b: Block): Option<Message> {
    if (exists i :: 0 <= i < |b.fields| && b.fields[i].Stray?) || |Events(b.fields)| != 1 || Datas(b.fields) == [] then None
    else Some(Message(Events(b.fields)[0], Joined(Datas(b.fields))))
  }

  function Joined(parts: seq<seq<byte>>): seq<byte> {
    if parts == [] then [] else if |parts| == 1 then parts[0] else parts[0] + [10] + Joined(parts[1..])
  }

  // ---------- lines ----------

  lemma Words()
    ensures Ascii("event:") == EVENT_FIELD && Ascii("data:") == DATA_FIELD
    ensures Ascii("meta") == META && Ascii("delta") == DELTA && Ascii("tool_call") == TOOL_CALL && Ascii("completed") == COMPLETED
    ensures META != DELTA && META != TOOL_CALL && META != COMPLETED && DELTA != TOOL_CALL && DELTA != COMPLETED && TOOL_CALL != COMPLETED
  {
    assert TOOL_CALL[0] == 116 && COMPLETED[0] == 99;
  }

  lemma LineIsOne(f: Entry)
    requires Writable(f)
    ensures OneLine(LineOf(f)) && LineOf(f) != []
  {
    Words();
    hide Ascii;
  }

  lemma Classified(f: Entry)
    requires Writable(f)
    ensures Classify(LineOf(f)) == match f
              case EventField(value, _) => EventLine(value)
              case DataField(value, _) => DataLine(value)
              case Comment(_) => Ignored
              case Stray(_) => Unsupported
  {
    Words();
    LineIsOne(f);
    hide Ascii, Classify;
    var line := LineOf(f);
    match f
    case EventField(value, spaced) => ClassifiedEvent(line, value, spaced);
    case DataField(value, spaced) => ClassifiedData(line, value, spaced);
    case Comment(text) => ClassifiedComment(line, text);
    case Stray(_) => ClassifiedStray(line);
  }

  lemma ClassifiedEvent(line: seq<byte>, value: seq<byte>, spaced: bool)
    requires OneLine(line) && line == EVENT_FIELD + (if spaced then [32] else []) + value && (spaced || value == [] || value[0] != 32)
    ensures Classify(line) == EventLine(value)
  {
    assert StripCr(line) == line;
    assert line[..6] == EVENT_FIELD && line[6..] == (if spaced then [32] else []) + value;
  }

  lemma ClassifiedData(line: seq<byte>, value: seq<byte>, spaced: bool)
    requires OneLine(line) && line == DATA_FIELD + (if spaced then [32] else []) + value && (spaced || value == [] || value[0] != 32)
    ensures Classify(line) == DataLine(value)
  {
    assert StripCr(line) == line;
    assert line[..5] == DATA_FIELD && line[5..] == (if spaced then [32] else []) + value;
    assert line[0] == 100;
    assert |line| >= 6 ==> line[..6][0] == 100 && EVENT_FIELD[0] == 101;
  }

  lemma ClassifiedComment(line: seq<byte>, text: seq<byte>)
    requires OneLine(line) && line == [58] + text
    ensures Classify(line) == Ignored
  {
    assert StripCr(line) == line;
    assert |line| >= 6 ==> line[..6][0] == 58 && EVENT_FIELD[0] == 101;
    assert |line| >= 5 ==> line[..5][0] == 58 && DATA_FIELD[0] == 100;
  }

  lemma ClassifiedStray(line: seq<byte>)
    requires OneLine(line) && line != [] && line[0] != 58 && !StartsWith(line, EVENT_FIELD) && !StartsWith(line, DATA_FIELD)
    ensures Classify(line) == Unsupported
  {
    assert StripCr(line) == line;
  }

  function LinesOf(fields: seq<Entry>): seq<seq<byte>> {
    seq(|fields|, i requires 0 <= i < |fields| => LineOf(fields[i]))
  }

  lemma {:induction false} LineEnds(s: seq<byte>, n: nat)
    requires n <= |s| && (forall i :: 0 <= i < n ==> s[i] != LF) && (n < |s| ==> s[n] == LF)
    ensures LineLength(s) == n
    decreases n
  {
    if n > 0 {
      LineEnds(s[1..], n - 1);
    }
  }

  /** One line off the front, whichever way it ends. */
  lemma FirstLine(line: seq<byte>, crlf: bool, rest: seq<byte>)
    requires OneLine(line)
    ensures Lines(line + Newline(crlf) + rest) == [line] + Lines(rest)
  {
    var s := line + Newline(crlf) + rest;
    var n := |line| + |Newline(crlf)| - 1;
    forall i | 0 <= i < n
      ensures s[i] != LF
    {
      if i < |line| {
        assert s[i] == line[i];
      } else {
        assert s[i] == Newline(crlf)[i - |line|];
      }
    }
    assert s[n] == Newline(crlf)[n - |line|];
    LineEnds(s, n);
    assert s[n + 1..] == rest;
    assert s[..n] == line + Newline(crlf)[..n - |line|];
    assert StripCr(s[..n]) == line;
  }

  lemma {:induction false} LinesBack(fields: seq<Entry>, crlf: bool)
    requires forall i :: 0 <= i < |fields| ==> Writable(fields[i])
    ensures Lines(TextOf(fields, crlf)) == LinesOf(fields)
  {
    if |fields| == 1 {
      LineIsOne(fields[0]);
      LineEnds(LineOf(fields[0]), |LineOf(fields[0])|);
    } else if |fields| > 1 {
      LineIsOne(fields[0]);
      FirstLine(LineOf(fields[0]), crlf, TextOf(fields[1..], crlf));
      LinesBack(fields[1..], crlf);
      hide Lines;
      assert LinesOf(fields) == [LineOf(fields[0])] + LinesOf(fields[1..]);
    }
  }

  lemma {:induction false} ValuesBack(fields: seq<Entry>)
    requires forall i :: 0 <= i < |fields| ==> Writable(fields[i])
    ensures EventValues(LinesOf(fields)) == Events(fields) && DataValues(LinesOf(fields)) == Datas(fields)
    ensures Supported(LinesOf(fields)) <==> !exists i :: 0 <= i < |fields| && fields[i].Stray?
  {
    hide Classify, LineOf;
    if fields != [] {
      Classified(fields[0]);
      ValuesBack(fields[1..]);
      var lines := LinesOf(fields);
      assert lines[1..] == LinesOf(fields[1..]);
      assert forall i :: 1 <= i < |fields| ==> fields[i] == fields[1..][i - 1] && lines[i] == lines[1..][i - 1];
    }
  }

  lemma {:induction false} JoinsSame(parts: seq<seq<byte>>)
    ensures Join(parts) == Joined(parts)
  {
    if |parts| > 1 {
      JoinsSame(parts[1..]);
    }
  }

  /** A written block is read as what it carries, and rejected if it carries nothing. */
  lemma ReadAsWritten(b: Block, utf8: seq<byte> -> bool)
    requires Written(b)
    ensures ParseBlock(TextOf(b.fields, b.crlf), utf8) == if utf8(TextOf(b.fields, b.crlf)) then Carried(b) else None
  {
    LinesBack(b.fields, b.crlf);
    ValuesBack(b.fields);
    JoinsSame(Datas(b.fields));
    hide Lines, EventValues, DataValues, Supported, Join, TextOf, Events, Datas;
  }

  // ---------- boundaries ----------

  /** A line end is followed by the start of another line. */
  ghost predicate Tidy(s: seq<byte>) {
    && (forall j :: 0 <= j < |s| && s[j] == LF ==> j + 1 < |s| && s[j + 1] != LF && s[j + 1] != CR)
    && (forall j :: 0 <= j < |s| && s[j] == CR ==> j + 1 < |s| && s[j + 1] == LF)
    && (s != [] ==> s[0] != LF && s[0] != CR)
  }

  lemma TidyLine(line: seq<byte>, crlf: bool, rest: seq<byte>)
    requires OneLine(line) && line != [] && Tidy(rest) && rest != []
    ensures Tidy(line + Newline(crlf) + rest)
  {
    var s, n, m := line + Newline(crlf) + rest, |line|, |line| + |Newline(crlf)|;
    assert forall j :: 0 <= j < n ==> s[j] == line[j];
    assert forall j :: n <= j < m ==> s[j] == Newline(crlf)[j - n];
    assert forall j :: m <= j < |s| ==> s[j] == rest[j - m];
  }

  lemma {:induction false} TextTidy(fields: seq<Entry>, crlf: bool)
    requires forall i :: 0 <= i < |fields| ==> Writable(fields[i])
    ensures Tidy(TextOf(fields, crlf)) && (fields != [] ==> TextOf(fields, crlf) != [])
  {
    hide LineOf;
    if fields != [] {
      LineIsOne(fields[0]);
      if |fields| > 1 {
        TextTidy(fields[1..], crlf);
        TidyLine(LineOf(fields[0]), crlf, TextOf(fields[1..], crlf));
      }
    }
  }

  /** The empty line written after a block is the first one read. */
  lemma BlockEnds(b: Block, rest: seq<byte>)
    requires Written(b)
    ensures var text, wire := TextOf(b.fields, b.crlf), Wired(b) + rest;
            && Boundary(wire) == Some(Cut(|text|, 2 * |Newline(b.crlf)|))
            && wire[..|text|] == text && wire[|text| + 2 * |Newline(b.crlf)|..] == rest
  {
    TextTidy(b.fields, b.crlf);
    hide TextOf;
    var text, wire, end := TextOf(b.fields, b.crlf), Wired(b) + rest, Newline(b.crlf) + Newline(b.crlf);
    var n := |text|;
    assert wire == text + (end + rest);
    assert forall j :: 0 <= j < n ==> wire[j] == text[j];
    assert forall j :: 0 <= j < |end| ==> wire[n + j] == end[j];
    forall j | 0 <= j < n
      ensures DelimiterAt(wire, j) == 0
    {
      if j + 2 < n {
        assert wire[j + 1] == text[j + 1] && wire[j + 2] == text[j + 2];
      }
    }
    CutUnique(wire, Cut(n, |end|));
  }

  // ---------- streams ----------

  /** What one event means to the reasoner, by its name. */
  function Heard(m: Message, authenticated: bool, codec: Codec, id: string): Meaning {
    if !authenticated then
      if m.event == Ascii("meta") && codec.metaId(m.data) == Some(id) then Authenticates else Rejects
    else if m.event == Ascii("delta") then
      match codec.deltaText(m.data)
      case Some(text) => if text == [] then Rejects else Yields(Delta(text))
      case None => Rejects
    else if m.event == Ascii("tool_call") then
      match codec.toolCall(m.data)
      case Some(Call(callId, name, Obj(fields))) => Yields(Call(callId, name, Obj(fields)))
      case _ => Rejects
    else if m.event == Ascii("completed") && codec.usagePositive(m.data) then Yields(Completed)
    else Rejects
  }

  function Means(b: Block, authenticated: bool, codec: Codec, id: string): Meaning {
    if !codec.utf8(TextOf(b.fields, b.crlf)) || Carried(b).None? then Rejects
    else Heard(Carried(b).value, authenticated, codec, id)
  }

  lemma MeaningOfBlock(b: Block, authenticated: bool, codec: Codec, id: string)
    requires Written(b)
    ensures Interpret(TextOf(b.fields, b.crlf), authenticated, codec, id) == Means(b, authenticated, codec, id)
  {
    hide Ascii, TextOf, Carried, ParseBlock, Heard;
    ReadAsWritten(b, codec.utf8);
    if codec.utf8(TextOf(b.fields, b.crlf)) && Carried(b).Some? {
      hide Interpret;
      MeaningOfMessage(TextOf(b.fields, b.crlf), Carried(b).value, authenticated, codec, id);
    }
  }

  lemma MeaningOfMessage(block: seq<byte>, m: Message, authenticated: bool, codec: Codec, id: string)
    requires ParseBlock(block, codec.utf8) == Some(m)
    ensures Interpret(block, authenticated, codec, id) == Heard(m, authenticated, codec, id)
  {
    hide Ascii, ParseBlock;
    Words();
  }

  function WireOf(blocks: seq<Block>): seq<byte> {
    if blocks == [] then [] else Wired(blocks[0]) + WireOf(blocks[1..])
  }

  /** The events of a stream in order, and how it stands after them. */
  function Story(blocks: seq<Block>, authenticated: bool, codec: Codec, id: string): (seq<ReasonEvent>, Status) {
    if blocks == [] then ([], Pending)
    else match Means(blocks[0], authenticated, codec, id)
      case Rejects => ([], Rejected)
      case Authenticates => Story(blocks[1..], true, codec, id)
      case Yields(e) =>
        if e.Completed? then ([e], Finished)
        else
          var later := Story(blocks[1..], authenticated, codec, id);
          ([e] + later.0, later.1)
  }

  /** A stream of written blocks, followed by any unfinished one, is decoded as their story. */
  lemma {:induction false} StreamReadAsWritten(blocks: seq<Block>, tail: seq<byte>, authenticated: bool, codec: Codec, id: string)
    requires (forall i :: 0 <= i < |blocks| ==> Written(blocks[i])) && Boundary(tail).None?
    ensures var r := Decode(WireOf(blocks) + tail, authenticated, codec, id);
            (r.events, r.status) == Story(blocks, authenticated, codec, id)
    decreases |blocks|
  {
    hide Interpret, DelimiterAt, IsFirstCut, BoundaryFrom, Boundary, Means, TextOf;
    if blocks == [] {
      assert WireOf(blocks) + tail == tail;
    } else {
      var rest := WireOf(blocks[1..]) + tail;
      assert WireOf(blocks) + tail == Wired(blocks[0]) + rest;
      BlockEnds(blocks[0], rest);
      MeaningOfBlock(blocks[0], authenticated, codec, id);
      StreamReadAsWritten(blocks[1..], tail, true, codec, id);
      StreamReadAsWritten(blocks[1..], tail, authenticated, codec, id);
    }
  }

  lemma {:induction false} StreamWithin(seen: seq<byte>, chunks: seq<seq<byte>>, end: End, codec: Codec, id: string)
    requires SizesWithin(seen + Concat(chunks)) && Decode(seen, false, codec, id).status.Pending?
    ensures var whole := Decode(seen + Concat(chunks), false, codec, id);
            Stream(seen, chunks, end, codec, id) == Streamed(whole.events, OutcomeOf(whole.status, end))
    decreases |chunks|
  {
    hide Decode, BlocksWithin, OutcomeOf;
    if chunks == [] {
      assert seen + Concat(chunks) == seen;
    } else {
      var more, after := seen + chunks[0], Concat(chunks[1..]);
      assert seen + Concat(chunks) == more + after;
      DecodeExtends(more, after, false, codec, id);
      RestWithin(more, after, false, codec, id);
      if Decode(more, false, codec, id).status.Pending? {
        StreamWithin(more, chunks[1..], end, codec, id);
      }
    }
  }

  /** So, however such a stream within the size limits is cut into chunks, the reasoner yields the
      story's events and succeeds exactly if the story finishes; a rejected story, or one that
      stops short, is a permanent failure, one that breaks off a transient one. */
  lemma StreamsTold(blocks: seq<Block>, tail: seq<byte>, chunks: seq<seq<byte>>, end: End, codec: Codec, id: string)
    requires (forall i :: 0 <= i < |blocks| ==> Written(blocks[i])) && Boundary(tail).None?
    requires Concat(chunks) == WireOf(blocks) + tail && SizesWithin(Concat(chunks))
    ensures var r, story := Stream([], chunks, end, codec, id), Story(blocks, false, codec, id);
            && r.events == story.0
            && r.outcome == if story.1.Finished? then Done else if story.1.Rejected? || end.Eof? then Permanent
                            else if end.Broken? then Transient else Cancelled
  {
    hide Story, Stream, SizesWithin;
    NothingRead(false, codec, id);
    hide Decode;
    assert [] + Concat(chunks) == Concat(chunks);
    StreamReadAsWritten(blocks, tail, false, codec, id);
    StreamWithin([], chunks, end, codec, id);
  }
}
