/** What a client is sent and what is recorded about a response is what its task emitted: the same
    texts, the same audio, the same milestones, in the same order. */
module ResponseMirror {
  import opened Common
  import opened ClientView
  import opened SessionModel
  import opened DialogueInvariant
  import E = EventSpool
  import P = ResponsePipeline

  // ---------- what was sent ----------

  predicate Heeds(o: Output) {
    o.Delta? || o.Voice? || (o.ResponseCompleted? && !o.interrupted)
  }

  /** The outputs that carry a response's content or complete it. */
  function Speech(outputs: seq<Output>): seq<Output> {
    if outputs == [] then []
    else
      var last := outputs[|outputs| - 1];
      if Heeds(last) then Speech(outputs[..|outputs| - 1]) + [last] else Speech(outputs[..|outputs| - 1])
  }

  /** The milestones of a response that are recorded as events. */
  predicate Milestone(kind: E.EventType) {
    || kind.ReasoningDelta? || kind.ReasoningCompleted? || kind.ToolStarted? || kind.ToolCompleted? || kind.ToolFailed?
    || kind.TtsStarted? || kind.TtsFirstAudio? || kind.TtsCompleted?
  }

  function Minutes(accepted: seq<E.Sealed>): seq<E.Event> {
    if accepted == [] then []
    else
      var last := accepted[|accepted| - 1].event;
      if Milestone(last.kind) then Minutes(accepted[..|accepted| - 1]) + [last] else Minutes(accepted[..|accepted| - 1])
  }

  /** The texts, frames and milestones of one response. */
  function TextsTo(outputs: seq<Output>, e: nat): seq<string> {
    if outputs == [] then []
    else
      var last := outputs[|outputs| - 1];
      if last.Delta? && last.epoch == e then TextsTo(outputs[..|outputs| - 1], e) + [last.text] else TextsTo(outputs[..|outputs| - 1], e)
  }

  function FramesTo(outputs: seq<Output>, e: nat): seq<seq<byte>> {
    if outputs == [] then []
    else
      var last := outputs[|outputs| - 1];
      if last.Voice? && last.epoch == e then FramesTo(outputs[..|outputs| - 1], e) + [last.bytes] else FramesTo(outputs[..|outputs| - 1], e)
  }

  function KindsFor(events: seq<E.Event>, e: nat): seq<E.EventType> {
    if events == [] then []
    else
      var last := events[|events| - 1];
      if last.epoch == e then KindsFor(events[..|events| - 1], e) + [last.kind] else KindsFor(events[..|events| - 1], e)
  }

  // ---------- what is due ----------

  /** The milestone an emission is recorded as. */
  function Note(ev: P.PipelineEvent): Option<E.EventType> {
    match ev
    case ReasoningDelta(_) => Some(E.ReasoningDelta)
    case ToolStarted(_) => Some(E.ToolStarted)
    case ToolCompleted(_, _, _, _) => Some(E.ToolCompleted)
    case ToolFailed(_, _) => Some(E.ToolFailed)
    case ReasoningCompleted(_) => Some(E.ReasoningCompleted)
    case TtsStarted => Some(E.TtsStarted)
    case Audio(n, _) => if n == 0 then Some(E.TtsFirstAudio) else None
    case TtsCompleted => Some(E.TtsCompleted)
    case _ => None
  }

  function NotesOf(es: seq<P.PipelineEvent>): seq<E.EventType> {
    if es == [] then []
    else
      var note := Note(es[|es| - 1]);
      if note.Some? then NotesOf(es[..|es| - 1]) + [note.value] else NotesOf(es[..|es| - 1])
  }

  datatype Told = Told(texts: seq<string>, frames: seq<seq<byte>>, kinds: seq<E.EventType>)

  function ToldOf(speech: seq<Output>, minutes: seq<E.Event>, e: nat): Told {
    Told(TextsTo(speech, e), FramesTo(speech, e), KindsFor(minutes, e))
  }

  function Due(es: seq<P.PipelineEvent>): Told {
    Told(P.DeltaTexts(es), P.AudioFrames(es), NotesOf(es))
  }

  predicate Within(a: Told, b: Told) {
    a.texts <= b.texts && a.frames <= b.frames && a.kinds <= b.kinds
  }

  // ---------- the mirror ----------

  ghost predicate Mirror(speech: seq<Output>, minutes: seq<E.Event>, d: Dialogue, faulted: bool) {
    && (forall e :: e in d.delivered ==> Within(ToldOf(speech, minutes, e), Due(d.delivered[e])))
    && (forall e: nat :: e !in d.delivered ==> ToldOf(speech, minutes, e) == Told([], [], []))
    && (d.current.Some? && !faulted && d.current.value.epoch in d.delivered ==>
          ToldOf(speech, minutes, d.current.value.epoch) == Due(d.delivered[d.current.value.epoch]))
    && (forall e :: ResponseCompleted(e, false) in speech ==>
          e in d.delivered && P.Follow(d.delivered[e]).Finished? && ToldOf(speech, minutes, e) == Due(d.delivered[e]))
  }

  lemma SpeechOne(outputs: seq<Output>, o: Output)
    ensures Speech(outputs + [o]) == if Heeds(o) then Speech(outputs) + [o] else Speech(outputs)
  {
    assert (outputs + [o])[..|outputs|] == outputs;
  }

  lemma MinutesOne(accepted: seq<E.Sealed>, x: E.Sealed)
    ensures Minutes(accepted + [x]) == if Milestone(x.event.kind) then Minutes(accepted) + [x.event] else Minutes(accepted)
  {
    assert (accepted + [x])[..|accepted|] == accepted;
  }

  lemma TextsOne(speech: seq<Output>, o: Output, e: nat)
    ensures TextsTo(speech + [o], e) == if o.Delta? && o.epoch == e then TextsTo(speech, e) + [o.text] else TextsTo(speech, e)
    ensures FramesTo(speech + [o], e) == if o.Voice? && o.epoch == e then FramesTo(speech, e) + [o.bytes] else FramesTo(speech, e)
  {
    assert (speech + [o])[..|speech|] == speech;
  }

  lemma KindsOne(minutes: seq<E.Event>, x: E.Event, e: nat)
    ensures KindsFor(minutes + [x], e) == if x.epoch == e then KindsFor(minutes, e) + [x.kind] else KindsFor(minutes, e)
  {
    assert (minutes + [x])[..|minutes|] == minutes;
  }

  lemma NotesOne(es: seq<P.PipelineEvent>, ev: P.PipelineEvent)
    ensures NotesOf(es + [ev]) == if Note(ev).Some? then NotesOf(es) + [Note(ev).value] else NotesOf(es)
  {
    assert (es + [ev])[..|es|] == es;
  }

  /** One more emission makes one more thing due at most. */
  lemma DueOne(es: seq<P.PipelineEvent>, ev: P.PipelineEvent)
    ensures var a, b := Due(es), Due(es + [ev]);
            && b.texts == (if ev.ReasoningDelta? then a.texts + [ev.text] else a.texts)
            && b.frames == (if ev.Audio? then a.frames + [ev.bytes] else a.frames)
            && b.kinds == (if Note(ev).Some? then a.kinds + [Note(ev).value] else a.kinds)
  {
    P.EmittedOne(es, ev);
    NotesOne(es, ev);
  }

  // ---------- how it is kept ----------

  /** What an emission shows the client. */
  function Shows(ev: P.PipelineEvent, e: nat): Option<Output> {
    match ev
    case ReasoningDelta(text) => Some(Delta(e, text))
    case Audio(n, bytes) => Some(Voice(e, n, bytes))
    case Completed => Some(ResponseCompleted(e, false))
    case _ => None
  }

  /** Handling an emission of the current response: shown and noted in full, or cut off by a fault. */
  ghost predicate Follows(speech: seq<Output>, minutes: seq<E.Event>, d: Dialogue, ev: P.PipelineEvent,
                          speech': seq<Output>, minutes': seq<E.Event>, d': Dialogue, faulted': bool)
  {
    && d.current.Some? && d.current.value.epoch in d.delivered
    && var e := d.current.value.epoch;
    && P.Grammatical(d.delivered[e] + [ev])
    && (speech' == speech || (Shows(ev, e).Some? && speech' == speech + [Shows(ev, e).value]))
    && (minutes' == minutes || (Note(ev).Some? && minutes' == minutes + [E.Event(Note(ev).value, e)]))
    && d'.delivered == d.delivered[e := d.delivered[e] + [ev]]
    && (d'.current.None? || d'.current.value.epoch == e)
    && (d'.current.Some? && !faulted' ==>
          && (Shows(ev, e).Some? ==> speech' == speech + [Shows(ev, e).value])
          && (Note(ev).Some? ==> minutes' == minutes + [E.Event(Note(ev).value, e)]))
  }

  lemma MirrorFollows(speech: seq<Output>, minutes: seq<E.Event>, d: Dialogue, ev: P.PipelineEvent,
                      speech': seq<Output>, minutes': seq<E.Event>, d': Dialogue, faulted': bool)
    requires Mirror(speech, minutes, d, false) && Follows(speech, minutes, d, ev, speech', minutes', d', faulted')
    ensures Mirror(speech', minutes', d', faulted')
  {
    hide P.Grammatical, ToldOf, Due, P.Follow, Within;
    var e := d.current.value.epoch;
    forall k: nat
      ensures k != e ==> ToldOf(speech', minutes', k) == ToldOf(speech, minutes, k)
    {
      ElsewhereSame(speech, minutes, ev, e, speech', minutes', k);
    }
    HereGrows(speech, minutes, d.delivered[e], ev, e, speech', minutes');
    StillOpen(speech, minutes, d, e, ev, false);
    if ev.Completed? {
      P.FollowOne(d.delivered[e], ev);
      FinishesNow(d.delivered[e]);
    }
  }

  lemma FinishesNow(es: seq<P.PipelineEvent>)
    requires P.Grammatical(es + [P.Completed])
    ensures P.Follow(es + [P.Completed]).Finished?
  {
    P.FollowOne(es, P.Completed);
  }

  /** A response with something still to say has not completed. */
  lemma StillOpen(speech: seq<Output>, minutes: seq<E.Event>, d: Dialogue, e: nat, ev: P.PipelineEvent, faulted: bool)
    requires Mirror(speech, minutes, d, faulted) && e in d.delivered && P.Grammatical(d.delivered[e] + [ev])
    ensures ResponseCompleted(e, false) !in speech
  {
    hide P.Follow, P.Grammatical, ToldOf, Due;
    if ResponseCompleted(e, false) in speech {
      P.FinishedIsLast(d.delivered[e], [ev]);
      assert false;
    }
  }

  lemma ElsewhereSame(speech: seq<Output>, minutes: seq<E.Event>, ev: P.PipelineEvent, e: nat, speech': seq<Output>, minutes': seq<E.Event>, k: nat)
    requires speech' == speech || (Shows(ev, e).Some? && speech' == speech + [Shows(ev, e).value])
    requires minutes' == minutes || (Note(ev).Some? && minutes' == minutes + [E.Event(Note(ev).value, e)])
    ensures k != e ==> ToldOf(speech', minutes', k) == ToldOf(speech, minutes, k)
  {
    hide TextsTo, FramesTo, KindsFor;
    if Shows(ev, e).Some? {
      TextsOne(speech, Shows(ev, e).value, k);
    }
    if Note(ev).Some? {
      KindsOne(minutes, E.Event(Note(ev).value, e), k);
    }
  }

  lemma HereGrows(speech: seq<Output>, minutes: seq<E.Event>, es: seq<P.PipelineEvent>, ev: P.PipelineEvent, e: nat, speech': seq<Output>, minutes': seq<E.Event>)
    requires ToldOf(speech, minutes, e) == Due(es)
    requires speech' == speech || (Shows(ev, e).Some? && speech' == speech + [Shows(ev, e).value])
    requires minutes' == minutes || (Note(ev).Some? && minutes' == minutes + [E.Event(Note(ev).value, e)])
    ensures Within(ToldOf(speech', minutes', e), Due(es + [ev]))
    ensures (Shows(ev, e).Some? ==> speech' == speech + [Shows(ev, e).value])
            && (Note(ev).Some? ==> minutes' == minutes + [E.Event(Note(ev).value, e)]) ==>
              ToldOf(speech', minutes', e) == Due(es + [ev])
    ensures ev.Completed? ==> ToldOf(speech', minutes', e) == Due(es + [ev])
  {
    hide TextsTo, FramesTo, KindsFor, P.DeltaTexts, P.AudioFrames, NotesOf;
    DueOne(es, ev);
    if Shows(ev, e).Some? {
      TextsOne(speech, Shows(ev, e).value, e);
    }
    if Note(ev).Some? {
      KindsOne(minutes, E.Event(Note(ev).value, e), e);
    }
  }

  /** An emission of a response that is no longer current is taken off the lane and dropped. */
  lemma MirrorStale(speech: seq<Output>, minutes: seq<E.Event>, d: Dialogue, e: nat, ev: P.PipelineEvent, faulted: bool)
    requires Mirror(speech, minutes, d, faulted) && e in d.delivered && P.Grammatical(d.delivered[e] + [ev])
    requires d.current.None? || d.current.value.epoch != e
    ensures Mirror(speech, minutes, Log(d, e, ev), faulted)
  {
    hide ToldOf, Due, P.Follow, P.Grammatical;
    StillOpen(speech, minutes, d, e, ev, faulted);
    DueGrows(ToldOf(speech, minutes, e), d.delivered[e], ev);
  }

  lemma DueGrows(told: Told, es: seq<P.PipelineEvent>, ev: P.PipelineEvent)
    requires Within(told, Due(es))
    ensures Within(told, Due(es + [ev]))
  {
    DueOne(es, ev);
  }

  /** Everything else leaves the content alone; a response may stop being current or a new one begin. */
  ghost predicate Settles(d: Dialogue, d': Dialogue) {
    d'.delivered == d.delivered
    && (d'.current.None? || (d.current.Some? && d'.current.value.epoch == d.current.value.epoch))
  }

  ghost predicate Begins(d: Dialogue, d': Dialogue) {
    && d'.current.Some? && d'.current.value.epoch !in d.delivered
    && d'.delivered == d.delivered[d'.current.value.epoch := []]
  }

  lemma MirrorSettles(speech: seq<Output>, minutes: seq<E.Event>, d: Dialogue, faulted: bool, d': Dialogue, faulted': bool)
    requires Mirror(speech, minutes, d, faulted) && (faulted ==> faulted') && (Settles(d, d') || Begins(d, d'))
    ensures Mirror(speech, minutes, d', faulted')
  {
    hide ToldOf, Due, P.Follow;
    NothingDue();
  }

  lemma NothingDue()
    ensures Due([]) == Told([], [], [])
  {
  }
}
