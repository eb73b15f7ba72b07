/** Cutting a reply into pieces a speech synthesizer accepts (`split_tts_text`). Text is a
    sequence of Unicode scalar values, so positions count characters. */
module TtsText {
  const MAX_CHARACTERS: nat := 500

  /** Unicode White_Space. */
  predicate IsSpace(c: char) {
    || '\U{0009}' <= c <= '\U{000D}'
    || c == ' ' || c == '\U{0085}' || c == '\U{00A0}' || c == '\U{1680}'
    || '\U{2000}' <= c <= '\U{200A}'
    || c == '\U{2028}' || c == '\U{2029}' || c == '\U{202F}' || c == '\U{205F}' || c == '\U{3000}'
  }

  predicate IsSentenceEnd(c: char) {
    c == '.' || c == '!' || c == '?' || c == ';' || c == ':' || c == '\n'
  }

  predicate AllSpace(s: string) {
    forall i :: 0 <= i < |s| ==> IsSpace(s[i])
  }

  predicate Trimmed(s: string) {
    s != [] && !IsSpace(s[0]) && !IsSpace(s[|s| - 1])
  }

  /** `gaps[0] segments[0] gaps[1] segments[1] ... gaps[n]`. */
  function Weave(gaps: seq<string>, segments: seq<string>): string
    requires |gaps| == |segments| + 1
  {
    if segments == [] then gaps[0] else gaps[0] + segments[0] + Weave(gaps[1..], segments[1..])
  }

  lemma {:induction false} WeaveAppend(gaps: seq<string>, segments: seq<string>, segment: string, gap: string)
    requires |gaps| == |segments| + 1
    ensures Weave(gaps + [gap], segments + [segment]) == Weave(gaps, segments) + segment + gap
  {
    if segments == [] {
      assert (gaps + [gap])[1..] == [gap];
      assert Weave([gap], []) == gap;
    } else {
      assert (gaps + [gap])[1..] == gaps[1..] + [gap];
      assert (segments + [segment])[1..] == segments[1..] + [segment];
      WeaveAppend(gaps[1..], segments[1..], segment, gap);
    }
  }

  /** Enlarging the last gap. */
  lemma {:induction false} WeaveLastGap(gaps: seq<string>, segments: seq<string>, more: string)
    requires |gaps| == |segments| + 1
    ensures Weave(gaps[..|gaps| - 1] + [gaps[|gaps| - 1] + more], segments) == Weave(gaps, segments) + more
  {
    var wide := gaps[..|gaps| - 1] + [gaps[|gaps| - 1] + more];
    if segments == [] {
    } else {
      assert wide[1..] == gaps[1..][..|gaps[1..]| - 1] + [gaps[1..][|gaps[1..]| - 1] + more];
      WeaveLastGap(gaps[1..], segments[1..], more);
    }
  }

  /** Where a window of 500 characters is cut: after the last sentence end in its second half;
      failing that, before its last whitespace; failing that, at its end. */
  predicate BestCut(window: string, cut: nat) {
    && 0 < cut <= |window|
    && (forall j :: cut <= j < |window| && j + 1 >= MAX_CHARACTERS / 2 ==> !IsSentenceEnd(window[j]))
    && (|| (cut >= MAX_CHARACTERS / 2 && IsSentenceEnd(window[cut - 1]))
        || (&& (forall j :: 0 <= j < |window| && j + 1 >= MAX_CHARACTERS / 2 ==> !IsSentenceEnd(window[j]))
            && (if cut < |window|
                then IsSpace(window[cut]) && forall j :: cut < j < |window| ==> !IsSpace(window[j])
                else forall j :: 0 <= j < |window| ==> !IsSpace(window[j]))))
  }

  /** Two neighbouring segments touch only after a sentence end, or when the first is a full
      window without any whitespace: no shorter word is ever cut in two. */
  predicate CleanSeam(segment: string, gap: string) {
    gap == [] ==>
      && segment != []
      && (|| IsSentenceEnd(segment[|segment| - 1])
          || (|segment| == MAX_CHARACTERS && forall j :: 0 <= j < |segment| ==> !IsSpace(segment[j])))
  }

  /** The position after the leading whitespace of `s`. */
  function LeadingSpace(s: string): (n: nat)
    ensures n <= |s| && AllSpace(s[..n])
    ensures n < |s| ==> !IsSpace(s[n])
  {
    if s == [] || !IsSpace(s[0]) then
      0
    else
      var n := LeadingSpace(s[1..]);
      assert s[..n + 1] == [s[0]] + s[1..][..n];
      n + 1
  }

  /** The position before the trailing whitespace of `s`. */
  function BeforeTrailingSpace(s: string): (n: nat)
    ensures n <= |s| && AllSpace(s[n..])
    ensures n > 0 ==> !IsSpace(s[n - 1])
  {
    if s == [] || !IsSpace(s[|s| - 1]) then
      |s|
    else
      var n := BeforeTrailingSpace(s[..|s| - 1]);
      assert s[n..] == s[..|s| - 1][n..] + [s[|s| - 1]];
      n
  }

  /** One past the last position below `end` whose character satisfies `p`; zero if none does. */
  function LastMatch(s: string, p: char -> bool, end: nat): (n: nat)
    requires end <= |s|
    ensures n <= end
    ensures n > 0 ==> p(s[n - 1])
    ensures forall j :: n <= j < end ==> !p(s[j])
  {
    if end == 0 || p(s[end - 1]) then end else LastMatch(s, p, end - 1)
  }

  /** The cut the splitter takes in a full window that does not start with whitespace. */
  function CutOf(window: string): (cut: nat)
    requires |window| == MAX_CHARACTERS && !IsSpace(window[0])
    ensures BestCut(window, cut)
  {
    var sentence := LastMatch(window, IsSentenceEnd, |window|);
    var space := LastMatch(window, IsSpace, |window|);
    if sentence >= MAX_CHARACTERS / 2 then sentence
    else if space > 0 && space - 1 > 0 then space - 1
    else |window|
  }

  datatype Piece = Piece(segment: string, gap: string, rest: string)

  /** Split one segment off a trimmed text that does not fit whole. */
  function NextPiece(remaining: string): Piece
    requires |remaining| > MAX_CHARACTERS && Trimmed(remaining)
  {
    var cut := CutOf(remaining[..MAX_CHARACTERS]);
    var head, tail := remaining[..cut], remaining[cut..];
    var body, skip := BeforeTrailingSpace(head), LeadingSpace(tail);
    Piece(head[..body], head[body..] + tail[..skip], tail[skip..])
  }

  lemma Reassemble(s: string, body: nat, cut: nat, skip: nat)
    requires body <= cut <= |s| && skip <= |s| - cut
    ensures s == s[..cut][..body] + (s[..cut][body..] + s[cut..][..skip]) + s[cut..][skip..]
  {
    assert s[..cut] == s[..cut][..body] + s[..cut][body..];
    assert s[cut..] == s[cut..][..skip] + s[cut..][skip..];
    assert s == s[..cut] + s[cut..];
  }

  lemma NextPieceParts(remaining: string)
    requires |remaining| > MAX_CHARACTERS && Trimmed(remaining)
    ensures var p := NextPiece(remaining);
            && remaining == p.segment + p.gap + p.rest
            && Trimmed(p.segment) && |p.segment| <= MAX_CHARACTERS && AllSpace(p.gap) && Trimmed(p.rest)
  {
    hide IsSpace, IsSentenceEnd, AllSpace, BestCut;
    var cut := CutOf(remaining[..MAX_CHARACTERS]);
    CutInside(remaining[..MAX_CHARACTERS], cut);
    var head, tail := remaining[..cut], remaining[cut..];
    var body, skip := BeforeTrailingSpace(head), LeadingSpace(tail);
    Reassemble(remaining, body, cut, skip);
    assert head[0] == remaining[0] && tail[|tail| - 1] == remaining[|remaining| - 1];
    TrimmedHead(head);
    TrimmedTail(tail);
    SpaceAppend(head[body..], tail[..skip]);
  }

  lemma CutInside(window: string, cut: nat)
    requires BestCut(window, cut)
    ensures 0 < cut <= |window|
  {
  }

  lemma TrimmedHead(head: string)
    requires head != [] && !IsSpace(head[0])
    ensures Trimmed(head[..BeforeTrailingSpace(head)])
  {
    hide IsSpace;
    SpaceAt(head[BeforeTrailingSpace(head)..], 0);
  }

  lemma TrimmedTail(tail: string)
    requires tail != [] && !IsSpace(tail[|tail| - 1])
    ensures Trimmed(tail[LeadingSpace(tail)..])
  {
    hide IsSpace;
    SpaceAt(tail[..LeadingSpace(tail)], |tail| - 1);
  }

  lemma SpaceAt(s: string, i: nat)
    requires AllSpace(s)
    ensures i < |s| ==> IsSpace(s[i])
  {
  }

  lemma SpaceAppend(a: string, b: string)
    requires AllSpace(a) && AllSpace(b)
    ensures AllSpace(a + b)
  {
  }

  lemma NextPieceSeam(remaining: string)
    requires |remaining| > MAX_CHARACTERS && Trimmed(remaining)
    ensures CleanSeam(NextPiece(remaining).segment, NextPiece(remaining).gap)
  {
    hide IsSpace, IsSentenceEnd;
    var window := remaining[..MAX_CHARACTERS];
    var cut := CutOf(window);
    var p := NextPiece(remaining);
    if p.gap == [] {
      assert p.segment == window[..cut];
      assert cut < |window| ==> remaining[cut..][0] == window[cut];
    }
  }

  /** Part-way through a text: what has been cut off is in order, and the rest still follows. */
  ghost predicate Cutting(text: string, gaps: seq<string>, segments: seq<string>, rest: string) {
    && |gaps| == |segments| + 1
    && (forall i :: 0 <= i < |segments| ==> Trimmed(segments[i]) && |segments[i]| <= MAX_CHARACTERS)
    && (forall i :: 0 <= i < |gaps| ==> AllSpace(gaps[i]))
    && (forall i :: 0 <= i < |segments| - 1 ==> CleanSeam(segments[i], gaps[i + 1]))
    && text == Weave(gaps, segments) + rest
  }

  lemma CutOne(text: string, gaps: seq<string>, segments: seq<string>, rest: string, p: Piece, after: string)
    requires Cutting(text, gaps, segments, rest) && rest == p.segment + p.gap + after
    requires segments != [] ==> CleanSeam(segments[|segments| - 1], gaps[|segments|])
    requires Trimmed(p.segment) && |p.segment| <= MAX_CHARACTERS && AllSpace(p.gap)
    ensures Cutting(text, gaps + [p.gap], segments + [p.segment], after)
  {
    hide AllSpace, Trimmed, CleanSeam;
    WeaveAppend(gaps, segments, p.segment, p.gap);
    var w := Weave(gaps, segments);
    assert w + (p.segment + p.gap + after) == w + p.segment + p.gap + after;
  }

  lemma CutEnd(text: string, gaps: seq<string>, segments: seq<string>, last: string)
    requires Cutting(text, gaps, segments, last) && AllSpace(last)
    ensures Cutting(text, gaps[..|gaps| - 1] + [gaps[|gaps| - 1] + last], segments, [])
  {
    hide Trimmed, CleanSeam;
    WeaveLastGap(gaps, segments, last);
    SpaceAppend(gaps[|gaps| - 1], last);
    hide AllSpace;
    var gaps' := gaps[..|gaps| - 1] + [gaps[|gaps| - 1] + last];
    assert Weave(gaps', segments) == Weave(gaps', segments) + [];
  }

  /** Every text is cut completely: the segments are nonempty, trimmed and short, and with
      whitespace-only gaps between them they spell the input, so no other character is lost,
      added or moved. */
  method SplitTtsText(text: string) returns (segments: seq<string>, ghost gaps: seq<string>)
    ensures forall i :: 0 <= i < |segments| ==> Trimmed(segments[i]) && |segments[i]| <= MAX_CHARACTERS
    ensures |gaps| == |segments| + 1 && forall i :: 0 <= i < |gaps| ==> AllSpace(gaps[i])
    ensures Weave(gaps, segments) == text
    ensures forall i :: 0 <= i < |segments| - 1 ==> CleanSeam(segments[i], gaps[i + 1])
  {
    var start := LeadingSpace(text);
    var end := BeforeTrailingSpace(text);
    if end < start {
      assert text == text[..start] + text[start..];
      segments, gaps := [], [text];
      return;
    }
    segments, gaps := CutTrimmed(text, start, end);
    assert Weave(gaps, segments) + [] == Weave(gaps, segments);
  }

  method CutTrimmed(text: string, start: nat, end: nat) returns (segments: seq<string>, ghost gaps: seq<string>)
    requires start <= end <= |text| && AllSpace(text[..start]) && AllSpace(text[end..])
    requires start < end ==> Trimmed(text[start..end])
    ensures Cutting(text, gaps, segments, [])
  {
    hide AllSpace, Trimmed, CleanSeam, Cutting, Weave, NextPiece;
    var remaining := text[start..end];
    segments, gaps := [], [text[..start]];
    ghost var last := text[end..];
    CutStart(text, start, end);
    while remaining != []
      invariant remaining != [] ==> Trimmed(remaining)
      invariant |gaps| == |segments| + 1 && Cutting(text, gaps, segments, remaining + last)
      invariant remaining != [] && segments != [] ==> CleanSeam(segments[|segments| - 1], gaps[|segments|])
      decreases |remaining|
    {
      var p := if |remaining| <= MAX_CHARACTERS then Piece(remaining, [], []) else NextPiece(remaining);
      PieceParts(remaining, p);
      assert remaining + last == p.segment + p.gap + (p.rest + last);
      CutOne(text, gaps, segments, remaining + last, p, p.rest + last);
      segments, gaps := segments + [p.segment], gaps + [p.gap];
      remaining := p.rest;
    }
    assert remaining + last == last;
    CutEnd(text, gaps, segments, last);
    gaps := gaps[..|gaps| - 1] + [gaps[|gaps| - 1] + last];
  }

  lemma CutStart(text: string, start: nat, end: nat)
    requires start <= end <= |text| && AllSpace(text[..start])
    ensures Cutting(text, [text[..start]], [], text[start..end] + text[end..])
  {
    assert text == text[..start] + (text[start..end] + text[end..]);
  }

  lemma PieceParts(remaining: string, p: Piece)
    requires Trimmed(remaining)
    requires p == if |remaining| <= MAX_CHARACTERS then Piece(remaining, [], []) else NextPiece(remaining)
    ensures remaining == p.segment + p.gap + p.rest && |p.rest| < |remaining|
    ensures Trimmed(p.segment) && |p.segment| <= MAX_CHARACTERS && AllSpace(p.gap)
    ensures p.rest != [] ==> Trimmed(p.rest) && CleanSeam(p.segment, p.gap)
  {
    if |remaining| > MAX_CHARACTERS {
      hide IsSpace, IsSentenceEnd;
      NextPieceParts(remaining);
      NextPieceSeam(remaining);
    }
  }
}
