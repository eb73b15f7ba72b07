/** What a client is shown of its own turns is what it said or typed: the segments heard for a spoken
    turn, the text of a typed one, in order; and what a response answers is the final one. */
module TurnMirror {
  import opened ClientView
  import opened SessionModel
  import E = EventSpool
  import T = Transcription

  // ---------- what was shown and recorded ----------

  function Talks(outputs: seq<Output>): seq<Output> {
    if outputs == [] then []
    else
      var last := outputs[|outputs| - 1];
      if last.Transcript? then Talks(outputs[..|outputs| - 1]) + [last] else Talks(outputs[..|outputs| - 1])
  }

  predicate Hearing(kind: E.EventType) {
    kind.SpeechPartial? || kind.SpeechFinal?
  }

  function Hearings(accepted: seq<E.Sealed>): seq<E.Event> {
    if accepted == [] then []
    else
      var last := accepted[|accepted| - 1].event;
      if Hearing(last.kind) then Hearings(accepted[..|accepted| - 1]) + [last] else Hearings(accepted[..|accepted| - 1])
  }

  /** The transcripts of one turn. */
  function WordsTo(talks: seq<Output>, k: nat): seq<T.Words> {
    if talks == [] then []
    else
      var last := talks[|talks| - 1];
      if last.Transcript? && last.turn == k then WordsTo(talks[..|talks| - 1], k) + [T.Words(last.text, last.isFinal)]
      else WordsTo(talks[..|talks| - 1], k)
  }

  /** Which of its recorded events were final. */
  function FinalsFor(hearings: seq<E.Event>, k: nat): seq<bool> {
    if hearings == [] then []
    else
      var last := hearings[|hearings| - 1];
      if last.epoch == k then FinalsFor(hearings[..|hearings| - 1], k) + [last.kind.SpeechFinal?] else FinalsFor(hearings[..|hearings| - 1], k)
  }

  // ---------- what is due ----------

  function DueTo(i: Listening, k: nat): seq<T.Words> {
    if k in i.delivered then T.Segments(i.delivered[k])
    else if k in i.typed then [T.Words(i.typed[k], true)]
    else []
  }

  function Marks(words: seq<T.Words>): seq<bool> {
    seq(|words|, j requires 0 <= j < |words| => words[j].isFinal)
  }

  /** Shown and recorded for a turn are prefixes of what is due. */
  ghost predicate Partly(talks: seq<Output>, hearings: seq<E.Event>, due: seq<T.Words>, k: nat) {
    WordsTo(talks, k) <= due && FinalsFor(hearings, k) <= Marks(due)
  }

  ghost predicate Fully(talks: seq<Output>, hearings: seq<E.Event>, due: seq<T.Words>, k: nat) {
    WordsTo(talks, k) == due && FinalsFor(hearings, k) == Marks(due)
  }

  /** A response answers the final transcript of the turn it came from. */
  ghost predicate Answering(talks: seq<Output>, d: Dialogue) {
    forall e :: e in d.turns ==> 1 <= e <= |d.origins| && T.Words(d.turns[e].text, true) in WordsTo(talks, d.origins[e - 1])
  }

  ghost predicate Turns(talks: seq<Output>, hearings: seq<E.Event>, i: Listening, d: Dialogue, going: bool) {
    && (forall k: nat :: Partly(talks, hearings, DueTo(i, k), k))
    && (going ==> Fully(talks, hearings, DueTo(i, i.epoch), i.epoch))
    && (forall k :: k in i.delivered || k in i.typed ==> k <= i.epoch)
    && Answering(talks, d)
  }

  lemma TalksOne(outputs: seq<Output>, o: Output)
    ensures Talks(outputs + [o]) == if o.Transcript? then Talks(outputs) + [o] else Talks(outputs)
  {
    assert (outputs + [o])[..|outputs|] == outputs;
  }

  lemma HearingsOne(accepted: seq<E.Sealed>, x: E.Sealed)
    ensures Hearings(accepted + [x]) == if Hearing(x.event.kind) then Hearings(accepted) + [x.event] else Hearings(accepted)
  {
    assert (accepted + [x])[..|accepted|] == accepted;
  }

  lemma WordsOne(talks: seq<Output>, o: Output, k: nat)
    ensures WordsTo(talks + [o], k) == if o.Transcript? && o.turn == k then WordsTo(talks, k) + [T.Words(o.text, o.isFinal)] else WordsTo(talks, k)
  {
    assert (talks + [o])[..|talks|] == talks;
  }

  lemma FinalsOne(hearings: seq<E.Event>, x: E.Event, k: nat)
    ensures FinalsFor(hearings + [x], k) == if x.epoch == k then FinalsFor(hearings, k) + [x.kind.SpeechFinal?] else FinalsFor(hearings, k)
  {
    assert (hearings + [x])[..|hearings|] == hearings;
  }

  // ---------- how it is kept ----------

  ghost predicate SameTurns(d: Dialogue, d': Dialogue) {
    d'.turns == d.turns && d.origins <= d'.origins
  }

  lemma AnsweringSame(talks: seq<Output>, d: Dialogue, d': Dialogue)
    requires Answering(talks, d) && SameTurns(d, d')
    ensures Answering(talks, d')
  {
    hide WordsTo;
  }

  /** Nothing is shown or recorded, and what is due stays. */
  lemma TurnsQuiet(talks: seq<Output>, hearings: seq<E.Event>, i: Listening, d: Dialogue, going: bool, i': Listening, d': Dialogue, going': bool)
    requires Turns(talks, hearings, i, d, going) && SameTurns(d, d') && (going' ==> going)
    requires i'.delivered == i.delivered && i'.typed == i.typed && i'.epoch == i.epoch
    ensures Turns(talks, hearings, i', d', going')
  {
    hide Partly, Fully, Answering, T.Segments;
    AnsweringSame(talks, d, d');
    assert forall k: nat :: DueTo(i', k) == DueTo(i, k);
  }

  /** A new utterance begins: nothing is due for it yet. */
  lemma TurnsBegin(talks: seq<Output>, hearings: seq<E.Event>, i: Listening, d: Dialogue, going: bool, i': Listening, d': Dialogue, going': bool)
    requires Turns(talks, hearings, i, d, going) && SameTurns(d, d')
    requires i'.delivered == i.delivered && i'.typed == i.typed && i'.epoch == i.epoch + 1
    ensures Turns(talks, hearings, i', d', going')
  {
    hide WordsTo, FinalsFor, Answering, T.Segments;
    AnsweringSame(talks, d, d');
    assert forall k: nat :: DueTo(i', k) == DueTo(i, k);
    assert Partly(talks, hearings, DueTo(i, i'.epoch), i'.epoch);
  }

  /** An utterance is committed: its segments are still to come. */
  lemma TurnsCommit(talks: seq<Output>, hearings: seq<E.Event>, i: Listening, d: Dialogue, going: bool, i': Listening)
    requires Turns(talks, hearings, i, d, going) && i.epoch !in i.delivered && i.epoch !in i.typed
    requires i'.delivered == i.delivered[i.epoch := []] && i'.typed == i.typed && i'.epoch == i.epoch
    ensures Turns(talks, hearings, i', d, going)
  {
    hide Partly, Fully, Answering;
    assert T.Segments([]) == [];
    hide T.Segments;
    assert forall k: nat :: DueTo(i', k) == DueTo(i, k);
  }

  /** What the turn in progress grows by, and how much of it was shown and recorded. */
  ghost predicate Told(talks: seq<Output>, hearings: seq<E.Event>, k: nat, w: T.Words, talks': seq<Output>, hearings': seq<E.Event>, full: bool) {
    && (talks' == talks || talks' == talks + [Transcript(k, w.text, w.isFinal)])
    && (hearings' == hearings || hearings' == hearings + [E.Event(if w.isFinal then E.SpeechFinal else E.SpeechPartial, k)])
    && (full ==> talks' == talks + [Transcript(k, w.text, w.isFinal)]
                 && hearings' == hearings + [E.Event(if w.isFinal then E.SpeechFinal else E.SpeechPartial, k)])
  }

  ghost predicate Replies(d: Dialogue, d': Dialogue, text: string, k: nat) {
    && d'.origins == d.origins + [k] && |d'.origins| !in d.turns
    && |d'.origins| in d'.turns && d'.turns[|d'.origins|].text == text
    && d'.turns == d.turns[|d'.origins| := d'.turns[|d'.origins|]]
  }

  /** The turn in progress grows by some words, shown and recorded unless a fault cuts in; if they are
      final a response may begin from them. */
  lemma TurnsGrow(talks: seq<Output>, hearings: seq<E.Event>, i: Listening, d: Dialogue, w: T.Words,
                  talks': seq<Output>, hearings': seq<E.Event>, i': Listening, d': Dialogue, going': bool)
    requires Turns(talks, hearings, i, d, true) || (Turns(talks, hearings, i, d, false) && i'.epoch == i.epoch + 1)
    requires i.epoch <= i'.epoch <= i.epoch + 1
    requires forall k: nat :: DueTo(i', k) == if k == i'.epoch then DueTo(i, k) + [w] else DueTo(i, k)
    requires forall k :: k in i'.delivered || k in i'.typed ==> k <= i'.epoch
    requires Told(talks, hearings, i'.epoch, w, talks', hearings', going')
    requires SameTurns(d, d') || (w.isFinal && talks' == talks + [Transcript(i'.epoch, w.text, true)] && Replies(d, d', w.text, i'.epoch))
    ensures Turns(talks', hearings', i', d', going')
  {
    var k0 := i'.epoch;
    var due := DueTo(i, k0);
    assert Fully(talks, hearings, due, k0) by {
      hide WordsTo, FinalsFor, Answering, T.Segments;
      assert Partly(talks, hearings, due, k0);
    }
    forall k: nat
      ensures Partly(talks', hearings', DueTo(i', k), k)
    {
      hide Answering, DueTo, Fully;
      assert Partly(talks, hearings, DueTo(i, k), k);
      if k != k0 {
        OtherTurns(talks, hearings, k0, w, talks', hearings', going', k);
      } else {
        hide Partly;
        GrowsHere(talks, hearings, due, k0, w, talks', hearings', going');
      }
    }
    if going' {
      hide Answering, DueTo, Partly;
      GrowsHere(talks, hearings, due, k0, w, talks', hearings', going');
    }
    AnsweringGrows(talks, d, w, talks', d', k0);
    hide DueTo, Partly, Fully, Answering;
  }

  lemma OtherTurns(talks: seq<Output>, hearings: seq<E.Event>, k0: nat, w: T.Words, talks': seq<Output>, hearings': seq<E.Event>, full: bool, k: nat)
    requires Told(talks, hearings, k0, w, talks', hearings', full) && k != k0
    ensures WordsTo(talks', k) == WordsTo(talks, k) && FinalsFor(hearings', k) == FinalsFor(hearings, k)
  {
    hide WordsTo, FinalsFor;
    WordsOne(talks, Transcript(k0, w.text, w.isFinal), k);
    FinalsOne(hearings, E.Event(if w.isFinal then E.SpeechFinal else E.SpeechPartial, k0), k);
  }

  lemma GrowsHere(talks: seq<Output>, hearings: seq<E.Event>, due: seq<T.Words>, k: nat, w: T.Words, talks': seq<Output>, hearings': seq<E.Event>, full: bool)
    requires Fully(talks, hearings, due, k) && Told(talks, hearings, k, w, talks', hearings', full)
    ensures Partly(talks', hearings', due + [w], k) && (full ==> Fully(talks', hearings', due + [w], k))
  {
    hide WordsTo, FinalsFor;
    WordsOne(talks, Transcript(k, w.text, w.isFinal), k);
    FinalsOne(hearings, E.Event(if w.isFinal then E.SpeechFinal else E.SpeechPartial, k), k);
    assert Marks(due + [w]) == Marks(due) + [w.isFinal];
  }

  lemma AnsweringGrows(talks: seq<Output>, d: Dialogue, w: T.Words, talks': seq<Output>, d': Dialogue, k: nat)
    requires Answering(talks, d) && (talks' == talks || talks' == talks + [Transcript(k, w.text, w.isFinal)])
    requires SameTurns(d, d') || (w.isFinal && talks' == talks + [Transcript(k, w.text, true)] && Replies(d, d', w.text, k))
    ensures Answering(talks', d')
  {
    hide WordsTo;
    forall e | e in d'.turns
      ensures 1 <= e <= |d'.origins| && T.Words(d'.turns[e].text, true) in WordsTo(talks', d'.origins[e - 1])
    {
      if e in d.turns {
        WordsOne(talks, Transcript(k, w.text, w.isFinal), d.origins[e - 1]);
        assert d'.origins[e - 1] == d.origins[e - 1];
      } else {
        WordsOne(talks, Transcript(k, w.text, w.isFinal), k);
      }
    }
  }

  /** A segment of an earlier turn is taken off the lane and dropped. */
  lemma TurnsStale(talks: seq<Output>, hearings: seq<E.Event>, i: Listening, d: Dialogue, going: bool, k: nat, e: T.SttEvent)
    requires Turns(talks, hearings, i, d, going) && k in i.delivered && (k != i.epoch || !e.Segment? || !going)
    ensures Turns(talks, hearings, i.(delivered := i.delivered[k := i.delivered[k] + [e]]), d, going)
  {
    hide WordsTo, FinalsFor, Answering, T.Segments;
    var i' := i.(delivered := i.delivered[k := i.delivered[k] + [e]]);
    T.SegmentsOne(i.delivered[k], e);
    forall j: nat
      ensures Partly(talks, hearings, DueTo(i', j), j)
    {
      assert Partly(talks, hearings, DueTo(i, j), j);
    }
  }
}
