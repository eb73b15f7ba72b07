/** Every step of the composed system keeps the two mirrors: of responses and of turns. */
module SessionMirror {
  import opened Common
  import opened History
  import opened ClientView
  import opened SessionModel
  import opened DialogueInvariant
  import opened ListeningInvariant
  import opened SessionSafety
  import opened PipelineSafety
  import opened SystemSafety
  import R = ResponseMirror
  import U = TurnMirror
  import H = Greetings
  import E = EventSpool
  import P = ResponsePipeline
  import T = Transcription

  /** The parts of what was sent and recorded that the mirrors are about. */
  datatype Trace = Trace(speech: seq<Output>, minutes: seq<E.Event>, talks: seq<Output>, hearings: seq<E.Event>,
                         greetings: seq<Output>, openings: seq<E.EventType>)

  function TraceOf(io: Io): Trace {
    Trace(R.Speech(io.outputs), R.Minutes(io.spool.accepted), U.Talks(io.outputs), U.Hearings(io.spool.accepted),
          H.Greetings(io.outputs), H.Openings(io.spool.accepted))
  }

  /** Interruptions are told to the client and then recorded, unless a fault comes between. */
  ghost predicate Even(io: Io) {
    && H.CutNotes(io.spool.accepted) <= H.Cuts(io.outputs)
    && (io.fault.None? ==> H.CutNotes(io.spool.accepted) == H.Cuts(io.outputs))
  }

  ghost predicate Mirrored(s: Session) {
    && R.Mirror(TraceOf(s.io).speech, TraceOf(s.io).minutes, s.dialogue, Faulted(s))
    && U.Turns(TraceOf(s.io).talks, TraceOf(s.io).hearings, s.input, s.dialogue, Running(s))
    && (s.input.speaking ==> s.input.epoch !in s.input.typed)
    && H.Greeted(TraceOf(s.io).greetings, TraceOf(s.io).openings, s.life, s.phase, Running(s)) && Even(s.io)
  }

  // ---------- emissions ----------

  lemma SayTrace(io: Io, o: Output)
    ensures var io' := EmitOutput(io, o);
            var a, b := TraceOf(io), TraceOf(io');
            && io'.spool == io.spool && (io.fault.Some? ==> io' == io) && (io'.fault.Some? && io.fault.None? ==> b == a)
            && (io'.fault.None? ==> b == a.(speech := if R.Heeds(o) then a.speech + [o] else a.speech,
                                            talks := if o.Transcript? then a.talks + [o] else a.talks,
                                            greetings := if H.IsGreeting(o) then a.greetings + [o] else a.greetings))
            && (!H.IsCut(o) && Even(io) ==> Even(io'))
  {
    R.SpeechOne(io.outputs, o);
    U.TalksOne(io.outputs, o);
    H.GreetingsOne(io.outputs, o);
    hide R.Speech, U.Talks, R.Minutes, U.Hearings, H.Greetings, H.Openings, H.Cuts, H.CutNotes;
  }

  lemma ReportTrace(io: Io, e: E.Event)
    requires SpoolOk(io)
    ensures var io' := EmitEvent(io, e);
            var a, b := TraceOf(io), TraceOf(io');
            && SpoolOk(io') && io'.outputs == io.outputs && (io.fault.Some? ==> io' == io) && (io'.fault.Some? && io.fault.None? ==> b == a)
            && (io'.fault.None? ==> b == a.(minutes := if R.Milestone(e.kind) then a.minutes + [e] else a.minutes,
                                            hearings := if U.Hearing(e.kind) then a.hearings + [e] else a.hearings,
                                            openings := if H.IsOpening(e.kind) then a.openings + [e.kind] else a.openings))
            && (!e.kind.SessionInterrupted? && Even(io) ==> Even(io'))
  {
    hide R.Speech, U.Talks, R.Minutes, U.Hearings, H.Greetings, H.Openings, H.Cuts, H.CutNotes, E.TryPublish, E.Inv;
    if io.fault.None? {
      E.TryPublishEffect(io.spool, e, Now(io).work);
      var x := E.Sealed(e, |io.spool.accepted| + 1);
      R.MinutesOne(io.spool.accepted, x);
      U.HearingsOne(io.spool.accepted, x);
      H.OpeningsOne(io.spool.accepted, x);
      assert io.spool.accepted + [] == io.spool.accepted;
    }
  }

  lemma TerminalTrace(spool: E.Spool, e: E.Event, w: E.Interleaving)
    requires E.Inv(spool) && spool.producer.Idle? && E.IsTerminal(e)
    ensures var t := E.PublishTerminal(spool, e, w);
            && R.Minutes(t.accepted) == R.Minutes(spool.accepted) && U.Hearings(t.accepted) == U.Hearings(spool.accepted)
            && H.Openings(t.accepted) == H.Openings(spool.accepted) && H.CutNotes(t.accepted) == H.CutNotes(spool.accepted)
  {
    hide R.Minutes, U.Hearings, H.Openings, H.CutNotes, E.PublishTerminal, E.Inv;
    E.PublishTerminalEffect(spool, e, w);
    var x := E.Sealed(e, |spool.accepted| + 1);
    R.MinutesOne(spool.accepted, x);
    U.HearingsOne(spool.accepted, x);
    H.OpeningsOne(spool.accepted, x);
    assert spool.accepted + [] == spool.accepted;
  }

  // ---------- gliding ----------

  /** Nothing the mirrors see is sent or recorded; a response may stop being current. */
  ghost predicate Glides(s: Session, t: Session) {
    && SpoolOk(t.io) && TraceOf(t.io) == TraceOf(s.io) && (Faulted(s) ==> Faulted(t))
    && R.Settles(s.dialogue, t.dialogue) && U.SameTurns(s.dialogue, t.dialogue) && t.input == s.input
    && t.life == s.life && (Running(t) ==> t.phase == s.phase) && (Even(s.io) ==> Even(t.io))
  }

  lemma GlidesOn(s: Session, t: Session, u: Session)
    requires Glides(s, t) && Glides(t, u)
    ensures Glides(s, u)
  {
    hide SpoolOk, TraceOf, Even;
  }

  lemma GlidesMirrored(s: Session, t: Session)
    requires Mirrored(s) && Glides(s, t)
    ensures Mirrored(t)
  {
    hide R.Mirror, U.Turns, SpoolOk, TraceOf, Even;
    H.GreetedKept(TraceOf(s.io).greetings, TraceOf(s.io).openings, s.life, s.phase, Running(s), t.phase, Running(t));
    var tr := TraceOf(s.io);
    R.MirrorSettles(tr.speech, tr.minutes, s.dialogue, Faulted(s), t.dialogue, Faulted(t));
    U.TurnsQuiet(tr.talks, tr.hearings, s.input, s.dialogue, Running(s), t.input, t.dialogue, Running(t));
  }

  lemma SayGlides(s: Session, o: Output)
    requires SpoolOk(s.io) && !R.Heeds(o) && !o.Transcript? && !H.IsGreeting(o) && !H.IsCut(o)
    ensures Glides(s, Say(s, o)) && Say(s, o) == s.(io := Say(s, o).io)
  {
    hide SpoolOk, TraceOf, Even, EmitOutput;
    SayTrace(s.io, o);
    SpoolSame(s.io, EmitOutput(s.io, o));
  }

  lemma SpoolSame(io: Io, io': Io)
    requires io'.spool == io.spool
    ensures SpoolOk(io') <==> SpoolOk(io)
  {
  }

  lemma ReportGlides(s: Session, kind: E.EventType, epoch: nat)
    requires SpoolOk(s.io) && !R.Milestone(kind) && !U.Hearing(kind) && !H.IsOpening(kind) && !kind.SessionInterrupted?
    ensures Glides(s, Report(s, kind, epoch)) && Report(s, kind, epoch) == s.(io := Report(s, kind, epoch).io)
  {
    hide SpoolOk, TraceOf, Even, EmitEvent;
    ReportTrace(s.io, E.Event(kind, epoch));
  }

  lemma InterruptGlides(s: Session)
    requires SpoolOk(s.io)
    ensures Glides(s, Interrupt(s)) && (!Faulted(Interrupt(s)) ==> Interrupt(s).dialogue.current.None?)
    ensures Interrupt(s).phase == s.phase && Interrupt(s).dialogue == s.dialogue.(current := Interrupt(s).dialogue.current)
  {
    hide SpoolOk, TraceOf, EmitEvent, EmitOutput, Even;
    if !Faulted(s) && s.dialogue.current.Some? {
      var e := s.dialogue.current.value.epoch;
      var io := EmitOutput(s.io, ResponseCompleted(e, true));
      SayTrace(s.io, ResponseCompleted(e, true));
      SpoolSame(s.io, io);
      ReportTrace(io, E.Event(E.SessionInterrupted, e));
      CutEven(s.io, e);
    }
  }

  /** The client is told of an interruption, and then it is recorded. */
  lemma CutEven(io: Io, e: nat)
    requires SpoolOk(io) && io.fault.None?
    ensures Even(io) ==> Even(EmitEvent(EmitOutput(io, ResponseCompleted(e, true)), E.Event(E.SessionInterrupted, e)))
  {
    hide E.TryPublish, E.Inv, H.Cuts, H.CutNotes;
    var o, x := ResponseCompleted(e, true), E.Sealed(E.Event(E.SessionInterrupted, e), |io.spool.accepted| + 1);
    H.GreetingsOne(io.outputs, o);
    H.OpeningsOne(io.spool.accepted, x);
    var said := EmitOutput(io, o);
    if said.fault.None? {
      E.TryPublishEffect(said.spool, x.event, Now(said).work);
      assert io.spool.accepted + [] == io.spool.accepted;
    }
  }

  lemma FailGlides(s: Session)
    requires SpoolOk(s.io)
    ensures Glides(s, FailSession(s))
  {
    hide SpoolOk, TraceOf, EmitOutput, Even;
    SayGlides(s.(phase := Failed, dialogue := s.dialogue.(current := None)), ErrorNotice);
  }

  lemma EndGlides(s: Session, phase: Phase, kind: E.EventType)
    requires SpoolOk(s.io) && E.IsTerminal(E.Event(kind, 0)) && TerminalPhase(phase)
    ensures Glides(s, EndSession(s, phase, kind))
  {
    hide SpoolOk, TraceOf, Interrupt, EmitTerminal, E.IsTerminal, Even;
    if !Faulted(s) && !TerminalPhase(s.phase) {
      var drained := s.(phase := Draining);
      InterruptGlides(drained);
      var t := Interrupt(drained);
      if !Faulted(t) {
        TerminalGlides(t.io, E.Event(kind, 0));
      }
    }
  }

  lemma TerminalGlides(io: Io, e: E.Event)
    requires SpoolOk(io) && io.fault.None? && E.IsTerminal(e)
    ensures SpoolOk(EmitTerminal(io, e)) && TraceOf(EmitTerminal(io, e)) == TraceOf(io) && (Even(io) ==> Even(EmitTerminal(io, e)))
  {
    hide R.Speech, U.Talks, R.Minutes, U.Hearings, H.Greetings, H.Openings, H.Cuts, H.CutNotes, E.PublishTerminal, E.Inv;
    TerminalTrace(io.spool, e, Now(io).work);
    E.PublishTerminalEffect(io.spool, e, Now(io).work);
  }

  // ---------- responses begin ----------

  /** The next response has a number of its own. */
  ghost predicate Unnumbered(d: Dialogue) {
    d.epoch < U64_MAX && |d.origins| == d.epoch && d.epoch + 1 !in d.delivered && d.epoch + 1 !in d.turns
  }

  lemma GoodUnnumbered(s: Session)
    requires Good(s) && s.input.epoch < U64_MAX
    ensures Unnumbered(s.dialogue) && SpoolOk(s.io)
  {
    hide See, Starts, E.Terminals, E.Inv, SttTasks, AudioLogs, Sound, Buffer, Order, Last;
    EpochBound(s.input, s.dialogue.origins, s.dialogue.epoch, ViewOf(s).finals);
  }

  /** A response begins from a text, or a fault cuts in. */
  ghost predicate Launches(s: Session, t: Session, text: string) {
    && SpoolOk(t.io) && TraceOf(t.io) == TraceOf(s.io) && (Faulted(s) ==> Faulted(t)) && t.input == s.input && t.phase == s.phase
    && t.life == s.life && (Even(s.io) ==> Even(t.io))
    && ((R.Settles(s.dialogue, t.dialogue) && U.SameTurns(s.dialogue, t.dialogue) && Faulted(t))
        || (!Faulted(s) && R.Begins(s.dialogue, t.dialogue) && U.Replies(s.dialogue, t.dialogue, text, s.input.epoch)))
  }

  lemma RaiseTrace(io: Io, f: Fault)
    ensures TraceOf(Raise(io, f)) == TraceOf(io) && (SpoolOk(Raise(io, f)) <==> SpoolOk(io)) && (Even(io) ==> Even(Raise(io, f)))
  {
  }

  lemma LaunchLaunches(s: Session, text: string)
    requires SpoolOk(s.io) && (!Faulted(s) ==> Unnumbered(s.dialogue) && s.dialogue.current.None?)
    ensures Launches(s, StartResponseIf(s, text), text)
  {
    hide SpoolOk, TraceOf, Even, EmitEvent, Fits, Retained, Concat, Announce;
    RaiseTrace(s.io, HistoryBound);
    if !Faulted(s) && Fits([User(text)], s.config.history) {
      AnnounceLaunches(Push(s, [User(text)]), Turn(s.dialogue.pushed, text), Concat(s.dialogue.history) + [User(text)]);
    }
  }

  lemma AnnounceLaunches(s: Session, turn: Turn, request: seq<Message>)
    requires SpoolOk(s.io) && !Faulted(s) && Unnumbered(s.dialogue) && s.dialogue.current.None?
    ensures Launches(s, Announce(s, turn, request), turn.text)
  {
    hide SpoolOk, TraceOf, Even, EmitEvent;
    var d := s.dialogue;
    var counted := s.(dialogue := d.(epoch := d.epoch + 1, origins := d.origins + [s.input.epoch]));
    ReportGlides(counted, E.ReasoningStarted, d.epoch + 1);
  }

  // ---------- final transcripts ----------

  function Concluded(s: Session, text: string): Session {
    StartResponseIf(Report(Say(s, Transcript(s.input.epoch, text, true)), E.SpeechFinal, s.input.epoch), text)
  }

  /** A final transcript is shown, recorded and answered, or a fault cuts in. */
  ghost predicate Concludes(s: Session, t: Session, text: string) {
    var a, b := TraceOf(s.io), TraceOf(t.io);
    && SpoolOk(t.io) && b == a.(talks := b.talks, hearings := b.hearings) && (Faulted(s) ==> Faulted(t)) && t.input == s.input && t.phase == s.phase
    && t.life == s.life && (Even(s.io) ==> Even(t.io))
    && U.Told(a.talks, a.hearings, s.input.epoch, T.Words(text, true), b.talks, b.hearings, !Faulted(t))
    && (R.Settles(s.dialogue, t.dialogue) || R.Begins(s.dialogue, t.dialogue))
    && (U.SameTurns(s.dialogue, t.dialogue)
        || (b.talks == a.talks + [Transcript(s.input.epoch, text, true)] && U.Replies(s.dialogue, t.dialogue, text, s.input.epoch)))
  }

  lemma ConcludedConcludes(s: Session, text: string)
    requires SpoolOk(s.io) && (!Faulted(s) ==> Unnumbered(s.dialogue) && s.dialogue.current.None?)
    ensures Concludes(s, Concluded(s, text), text)
  {
    hide SpoolOk, TraceOf, Even, EmitEvent, EmitOutput, StartResponseIf, Unnumbered;
    var o := Transcript(s.input.epoch, text, true);
    var told := Say(s, o);
    SayTrace(s.io, o);
    SpoolSame(s.io, told.io);
    ReportTrace(told.io, E.Event(E.SpeechFinal, s.input.epoch));
    LaunchLaunches(Report(told, E.SpeechFinal, s.input.epoch), text);
  }

  // ---------- typed turns ----------

  lemma TypedDue(i: Listening, text: string, i': Listening)
    requires i'.epoch == i.epoch + 1 && i'.delivered == i.delivered && i'.typed == i.typed[i.epoch + 1 := text]
    requires forall k :: k in i.delivered || k in i.typed ==> k <= i.epoch
    ensures forall k: nat :: U.DueTo(i', k) == if k == i'.epoch then U.DueTo(i, k) + [T.Words(text, true)] else U.DueTo(i, k)
    ensures forall k :: k in i'.delivered || k in i'.typed ==> k <= i'.epoch
  {
    hide T.Segments;
  }

  lemma KeysWithin(s: Session)
    requires Mirrored(s)
    ensures forall k :: k in s.input.delivered || k in s.input.typed ==> k <= s.input.epoch
  {
    hide R.Mirror, U.Partly, U.Fully, U.Answering, TraceOf, Even;
  }

  lemma TextMirrored(s: Session, text: string)
    requires Mirrored(s) && Good(s) && Running(s) && s.input.epoch < U64_MAX
    ensures Mirrored(HandleText(LogTyped(s, text), text))
  {
    hide Good, R.Mirror, U.Turns, SpoolOk, TraceOf, Interrupt, StartResponseIf, EmitEvent, EmitOutput;
    GoodUnnumbered(s);
    KeysWithin(s);
    var begun := s.(input := s.input.(epoch := s.input.epoch + 1, speaking := false, audio := [], typed := s.input.typed[s.input.epoch + 1 := text]));
    InterruptGlides(begun);
    var heard := NewInput(LogTyped(s, text), false, []);
    assert heard == Interrupt(begun);
    ConcludedConcludes(heard, text);
    var t := Concluded(heard, text);
    TypedDue(s.input, text, heard.input);
    var a, b := TraceOf(s.io), TraceOf(t.io);
    R.MirrorSettles(a.speech, a.minutes, s.dialogue, false, t.dialogue, Faulted(t));
    U.TurnsGrow(a.talks, a.hearings, s.input, s.dialogue, T.Words(text, true), b.talks, b.hearings, t.input, t.dialogue, Running(t));
  }

  // ---------- spoken turns ----------

  lemma SegmentDue(i: Listening, e: T.SttEvent, i': Listening)
    requires i.epoch in i.delivered && e.Segment? && i' == i.(delivered := i.delivered[i.epoch := i.delivered[i.epoch] + [e]])
    ensures forall k: nat :: U.DueTo(i', k) == if k == i.epoch then U.DueTo(i, k) + [T.Words(e.text, e.isFinal)] else U.DueTo(i, k)
  {
    T.SegmentsOne(i.delivered[i.epoch], e);
    hide T.Segments;
  }

  /** A transcription event that shows nothing: stale, not a segment, or failing the session. */
  lemma UnheardMirrored(s: Session, k: nat, e: T.SttEvent, t: Session)
    requires Mirrored(s) && k in s.input.delivered && (Running(t) ==> Running(s)) && (k != s.input.epoch || !e.Segment? || !Running(t))
    requires Glides(s.(input := LogHeard(s.input, k, e)), t)
    ensures Mirrored(t)
  {
    hide R.Mirror, U.Turns, SpoolOk, TraceOf, Even;
    var tr := TraceOf(s.io);
    U.TurnsQuiet(tr.talks, tr.hearings, s.input, s.dialogue, Running(s), s.input, s.dialogue, Running(t));
    U.TurnsStale(tr.talks, tr.hearings, s.input, s.dialogue, Running(t), k, e);
    U.TurnsQuiet(tr.talks, tr.hearings, t.input, s.dialogue, Running(t), t.input, t.dialogue, Running(t));
    R.MirrorSettles(tr.speech, tr.minutes, s.dialogue, Faulted(s), t.dialogue, Faulted(t));
  }

  lemma PartialMirrored(s: Session, e: T.SttEvent)
    requires Mirrored(s) && Running(s) && SpoolOk(s.io) && s.input.epoch in s.input.delivered && e.Segment? && !e.isFinal
    ensures var h, k := s.(input := LogHeard(s.input, s.input.epoch, e)), s.input.epoch;
            Mirrored(Report(Say(h, Transcript(k, e.text, false)), E.SpeechPartial, k))
  {
    hide R.Mirror, U.Turns, SpoolOk, TraceOf, EmitEvent, EmitOutput;
    var h, k := s.(input := LogHeard(s.input, s.input.epoch, e)), s.input.epoch;
    KeysWithin(s);
    var told := Say(h, Transcript(k, e.text, false));
    SayTrace(h.io, Transcript(k, e.text, false));
    SpoolSame(h.io, told.io);
    ReportTrace(told.io, E.Event(E.SpeechPartial, k));
    var t := Report(told, E.SpeechPartial, k);
    SegmentDue(s.input, e, h.input);
    var a, b := TraceOf(s.io), TraceOf(t.io);
    R.MirrorSettles(a.speech, a.minutes, s.dialogue, false, t.dialogue, Faulted(t));
    U.TurnsGrow(a.talks, a.hearings, s.input, s.dialogue, T.Words(e.text, false), b.talks, b.hearings, t.input, t.dialogue, Running(t));
  }

  lemma FinalMirrored(s: Session, e: T.SttEvent)
    requires Mirrored(s) && Running(s) && SpoolOk(s.io) && s.input.epoch in s.input.delivered && e.Segment? && e.isFinal
    requires Unnumbered(s.dialogue) && s.dialogue.current.None?
    ensures Mirrored(Concluded(s.(input := LogHeard(s.input, s.input.epoch, e)), e.text))
  {
    hide R.Mirror, U.Turns, SpoolOk, TraceOf, StartResponseIf, EmitEvent, EmitOutput, Unnumbered;
    var h := s.(input := LogHeard(s.input, s.input.epoch, e));
    KeysWithin(s);
    ConcludedConcludes(h, e.text);
    var t := Concluded(h, e.text);
    SegmentDue(s.input, e, h.input);
    var a, b := TraceOf(s.io), TraceOf(t.io);
    R.MirrorSettles(a.speech, a.minutes, s.dialogue, false, t.dialogue, Faulted(t));
    U.TurnsGrow(a.talks, a.hearings, s.input, s.dialogue, T.Words(e.text, true), b.talks, b.hearings, t.input, t.dialogue, Running(t));
  }

  lemma MirroredControl(s: Session, control: seq<Command>)
    requires Mirrored(s)
    ensures Mirrored(s.(control := control))
  {
    hide R.Mirror, U.Turns, TraceOf, Even;
  }

  /** Taking a transcription event off the lane and handling it. */
  lemma SttMirrored(s: Session)
    requires Mirrored(s) && Good(s) && Running(s) && s.input.epoch < U64_MAX && s.control != [] && s.control[0].Stt?
    ensures Mirrored(HandleControl(s.(control := s.control[1..]), s.control[0]))
  {
    hide Good, Mirrored, Unnumbered, FailSession, StartResponseIf, EmitEvent, EmitOutput, Glides, Fresh, Concluding, See;
    SttTaken(s);
    GoodUnnumbered(s);
    SttKnown(s);
    var k, e := s.control[0].epoch, s.control[0].heard;
    var r := s.(control := s.control[1..]);
    MirroredControl(s, r.control);
    var h := r.(input := LogHeard(s.input, k, e));
    assert LogStt(r, k, e) == h;
    SameGlides(h);
    FailGlides(h);
    if k == s.input.epoch && e.Segment? && 0 < |e.text| <= s.config.maxSegment {
      if e.isFinal {
        FinalMirrored(r, e);
      } else {
        PartialMirrored(r, e);
      }
    } else if k != s.input.epoch || !e.Segment? {
      var t := HandleStt(h, k, e);
      UnheardMirrored(r, k, e, t);
    } else {
      FailKept(h);
      UnheardMirrored(r, k, e, FailSession(h));
    }
  }

  lemma SameGlides(s: Session)
    requires SpoolOk(s.io)
    ensures Glides(s, s)
  {
    hide SpoolOk, TraceOf, Even;
  }

  lemma SttKnown(s: Session)
    requires Good(s) && s.control != [] && s.control[0].Stt?
    ensures s.control[0].epoch in s.input.delivered
  {
    hide See, Starts, E.Terminals, E.Inv, Tasks, AudioLogs, InputLogs, Sound, Buffer, Order;
    SttLog(s.input, s.control);
  }

  // ---------- audio ----------

  lemma OpenedMirrored(s: Session)
    requires Mirrored(s) && SpoolOk(s.io) && Running(s) && s.input.epoch < U64_MAX
    ensures var t := Report(NewInput(s, true, s.input.audio), E.SpeechStarted, 0);
            Mirrored(t) && SpoolOk(t.io) && t.phase == s.phase
  {
    hide R.Mirror, U.Turns, SpoolOk, TraceOf, Interrupt, EmitEvent;
    KeysWithin(s);
    var begun := s.(input := s.input.(epoch := s.input.epoch + 1, speaking := true));
    InterruptGlides(begun);
    var heard := NewInput(s, true, s.input.audio);
    assert heard == Interrupt(begun);
    ReportGlides(heard, E.SpeechStarted, 0);
    var t := Report(heard, E.SpeechStarted, 0);
    GlidesOn(begun, heard, t);
    var tr := TraceOf(s.io);
    R.MirrorSettles(tr.speech, tr.minutes, s.dialogue, false, t.dialogue, Faulted(t));
    U.TurnsBegin(tr.talks, tr.hearings, s.input, s.dialogue, true, t.input, t.dialogue, Running(t));
  }

  lemma FrameMirrored(s: Session, frame: seq<byte>)
    requires Mirrored(s)
    ensures Mirrored(s.(input := s.input.(audio := s.input.audio + frame, heard := s.input.heard + [Heard(s.input.epoch, frame)])))
  {
    hide R.Mirror, U.Turns, TraceOf, Even;
    var tr := TraceOf(s.io);
    var i := s.input.(audio := s.input.audio + frame, heard := s.input.heard + [Heard(s.input.epoch, frame)]);
    U.TurnsQuiet(tr.talks, tr.hearings, s.input, s.dialogue, Running(s), i, s.dialogue, Running(s));
  }

  lemma AudioMirrored(s: Session, frame: seq<byte>)
    requires Mirrored(s) && SpoolOk(s.io) && Running(s) && s.input.epoch < U64_MAX
    ensures Mirrored(HandleAudio(s, frame))
  {
    hide Mirrored, SpoolOk, Glides, NewInput, FailSession, EmitEvent, EmitOutput;
    if !s.phase.Active? {
      SayGlides(s, ErrorNotice);
      GlidesMirrored(s, Say(s, ErrorNotice));
    } else {
      if !s.input.speaking {
        OpenedMirrored(s);
      }
      var ready := if s.input.speaking then s else Report(NewInput(s, true, s.input.audio), E.SpeechStarted, 0);
      FailGlides(ready);
      GlidesMirrored(ready, FailSession(ready));
      FrameMirrored(ready, frame);
    }
  }

  lemma CommitMirrored(s: Session)
    requires Mirrored(s) && Good(s) && Running(s) && s.input.audio != []
    ensures Mirrored(CommitAudio(s))
  {
    hide R.Mirror, U.Turns, TraceOf, Even, See, Starts, E.Terminals, E.Inv, Tasks, AudioLogs, InputLogs, Sound, Order;
    var tr := TraceOf(s.io);
    SpokenUnheard(s);
    U.TurnsCommit(tr.talks, tr.hearings, s.input, s.dialogue, true, CommitAudio(s).input);
  }

  lemma SpokenUnheard(s: Session)
    requires Good(s) && Running(s) && s.input.audio != []
    ensures s.input.speaking && s.input.epoch !in s.input.delivered
  {
    hide See, Starts, E.Terminals, E.Inv, Tasks, AudioLogs, InputLogs, Sound, Order;
  }

  // ---------- client messages ----------

  lemma MirroredSeen(s: Session, seen: seq<string>)
    requires Mirrored(s)
    ensures Mirrored(s.(seen := seen))
  {
    hide R.Mirror, U.Turns, TraceOf, Even;
  }

  lemma BodyMirrored(s: Session, body: ClientBody)
    requires Mirrored(s) && Good(s) && Running(s) && s.life.Live? && s.input.epoch < U64_MAX
    ensures Mirrored(HandleBody(s, body))
  {
    hide Good, Mirrored, SpoolOk, Glides, HandleText, CommitAudio, Interrupt, EndSession, EmitEvent, EmitOutput, Unnumbered;
    GoodUnnumbered(s);
    SayGlides(s, ErrorNotice);
    GlidesMirrored(s, Say(s, ErrorNotice));
    match body
    case Start =>
      if s.phase.Ready? {
        GreetMirrored(s, s.life, Active, E.SessionStarted, ClientView.SessionStarted);
      }
    case Text(text) => TextMirrored(s, text);
    case CommitInput =>
      if s.input.audio != [] {
        CommitMirrored(s);
      }
    case CancelResponse(_) =>
      InterruptGlides(s);
      GlidesMirrored(s, Interrupt(s));
    case Ack =>
    case End =>
      EndGlides(s, Completed, E.SessionCompleted);
      GlidesMirrored(s, EndSession(s, Completed, E.SessionCompleted));
  }

  /** A greeting: recorded, then sent, unless a fault cuts in. */
  lemma GreetMirrored(s: Session, life: Life, phase: Phase, kind: E.EventType, o: Output)
    requires Mirrored(s) && SpoolOk(s.io) && Running(s) && s.phase.Ready?
    requires (s.life.Booting? && life.Live? && phase.Ready? && o == ClientView.SessionReady && kind == E.SessionReady)
             || (s.life.Live? && life.Live? && phase.Active? && o == ClientView.SessionStarted && kind == E.SessionStarted)
    ensures Mirrored(Say(Report(s.(life := life, phase := phase), kind, 0), o))
  {
    hide R.Mirror, U.Turns, TraceOf, SpoolOk, EmitEvent, EmitOutput, Even, H.Greeted;
    var reported := Report(s.(life := life, phase := phase), kind, 0);
    ReportTrace(s.io, E.Event(kind, 0));
    var t := Say(reported, o);
    SayTrace(reported.io, o);
    var a, b := TraceOf(s.io), TraceOf(t.io);
    H.GreetedNext(a.greetings, a.openings, s.life, s.phase, o, kind, b.greetings, b.openings, life, phase, Running(t));
    R.MirrorSettles(a.speech, a.minutes, s.dialogue, false, t.dialogue, Faulted(t));
    U.TurnsQuiet(a.talks, a.hearings, s.input, s.dialogue, true, t.input, t.dialogue, Running(t));
  }

  lemma ClientMirrored(s: Session, m: ClientMessage)
    requires Mirrored(s) && Good(s) && Running(s) && s.life.Live? && s.input.epoch < U64_MAX
    ensures Mirrored(HandleClient(s, m))
  {
    hide Mid, Mirrored, HandleBody;
    MirroredSeen(s, s.seen + [m.id]);
    GoodSeen(s, m.id);
    BodyMirrored(s.(seen := s.seen + [m.id]), m.body);
  }

  // ---------- pipeline events ----------

  /** How the handling of an emission of the current response shows: `s` is the session after the
      emission was logged, `d` its dialogue before. */
  ghost predicate Relays(s: Session, d: Dialogue, ev: P.PipelineEvent, t: Session) {
    var a, b := TraceOf(s.io), TraceOf(t.io);
    && R.Follows(a.speech, a.minutes, d, ev, b.speech, b.minutes, t.dialogue, Faulted(t))
    && b == a.(speech := b.speech, minutes := b.minutes) && SpoolOk(t.io)
    && U.SameTurns(d, t.dialogue) && t.input == s.input && (Running(t) ==> Running(s) && t.phase == s.phase)
    && t.life == s.life && (Even(s.io) ==> Even(t.io))
  }

  /** Logged and about to be handled. */
  ghost predicate Taken(s: Session, d: Dialogue, c: Current, ev: P.PipelineEvent) {
    && SpoolOk(s.io) && Running(s) && d.current == Some(c) && c.epoch in d.delivered && s.dialogue == Log(d, c.epoch, ev)
    && P.Grammatical(d.delivered[c.epoch] + [ev]) && Expected(c, ev)
  }

  lemma DeltaRelays(s: Session, d: Dialogue, c: Current, ev: P.PipelineEvent)
    requires Taken(s, d, c, ev) && ev.ReasoningDelta?
    ensures Relays(s, d, ev, ApplyPipeline(s, c, ev))
  {
    hide SpoolOk, TraceOf, EmitEvent, EmitOutput, P.Grammatical;
    var o := Delta(c.epoch, ev.text);
    var told := Say(s, o);
    SayTrace(s.io, o);
    SpoolSame(s.io, told.io);
    ReportTrace(told.io, E.Event(E.ReasoningDelta, c.epoch));
  }

  lemma AudioRelays(s: Session, d: Dialogue, c: Current, ev: P.PipelineEvent)
    requires Taken(s, d, c, ev) && ev.Audio?
    ensures Relays(s, d, ev, ApplyPipeline(s, c, ev))
  {
    hide SpoolOk, TraceOf, EmitEvent, EmitOutput, P.Grammatical;
    var o := Voice(c.epoch, ev.sequence, ev.bytes);
    ReportTrace(s.io, E.Event(E.TtsFirstAudio, c.epoch));
    var first := if ev.sequence == 0 then Report(s, E.TtsFirstAudio, c.epoch) else s;
    SayTrace(first.io, o);
    SpoolSame(first.io, EmitOutput(first.io, o));
    assert ApplyPipeline(s, c, ev) == Say(first, o);
  }

  /** An emission that only records a milestone. */
  lemma NoteRelays(s: Session, d: Dialogue, c: Current, ev: P.PipelineEvent, moved: Session, kind: E.EventType)
    requires Taken(s, d, c, ev) && R.Note(ev) == Some(kind) && R.Shows(ev, c.epoch).None? && R.Milestone(kind)
    requires moved == s.(dialogue := moved.dialogue) && moved.dialogue.delivered == s.dialogue.delivered && U.SameTurns(d, moved.dialogue)
    requires moved.dialogue.current.Some? && moved.dialogue.current.value.epoch == c.epoch
    ensures Relays(s, d, ev, Report(moved, kind, c.epoch))
  {
    hide SpoolOk, TraceOf, EmitEvent, P.Grammatical;
    ReportTrace(moved.io, E.Event(kind, c.epoch));
  }

  lemma ExchangeRelays(s: Session, d: Dialogue, c: Current, ev: P.PipelineEvent)
    requires Taken(s, d, c, ev) && ev.ToolCompleted?
    ensures Relays(s, d, ev, ApplyPipeline(s, c, ev))
  {
    hide SpoolOk, TraceOf, EmitEvent, P.Grammatical, Fits, Retained, P.PairOf;
    var pair := P.PairOf(c.pendingTool.value, ev.output);
    var moved := Push(SetCurrent(s, c.(pendingTool := None)), pair);
    RaiseTrace(s.io, HistoryBound);
    if Fits(pair, s.config.history) {
      NoteRelays(s, d, c, ev, moved, E.ToolCompleted);
    } else {
      ReportFaulted(moved, E.ToolCompleted, c.epoch);
    }
  }

  lemma FinishRelays(s: Session, d: Dialogue, c: Current, ev: P.PipelineEvent)
    requires Taken(s, d, c, ev) && ev.Completed?
    ensures Relays(s, d, ev, ApplyPipeline(s, c, ev))
  {
    hide SpoolOk, TraceOf, Even, EmitOutput, P.Grammatical, Fits, Retained;
    RaiseTrace(s.io, HistoryBound);
    var o := ResponseCompleted(c.epoch, false);
    SayTrace(s.io, o);
    SpoolSame(s.io, EmitOutput(s.io, o));
  }

  lemma FailRelays(s: Session, d: Dialogue, c: Current, ev: P.PipelineEvent)
    requires Taken(s, d, c, ev) && ev.Failed?
    ensures Relays(s, d, ev, ApplyPipeline(s, c, ev))
  {
    hide SpoolOk, TraceOf, Even, EmitOutput, P.Grammatical;
    FailGlides(s);
  }

  lemma PlainRelays(s: Session, d: Dialogue, c: Current, ev: P.PipelineEvent)
    requires Taken(s, d, c, ev)
    requires ev.ToolStarted? || ev.ToolFailed? || ev.ReasoningCompleted? || ev.TtsStarted? || ev.TtsCompleted?
    ensures Relays(s, d, ev, ApplyPipeline(s, c, ev))
  {
    hide SpoolOk, EmitEvent, P.Grammatical, Expected, ApplyPipeline, Relays;
    PlainApplied(s, c, ev);
    NoteRelays(s, d, c, ev, SetCurrent(s, Updated(c, ev)), KindOf(ev));
  }

  lemma ApplyRelays(s: Session, d: Dialogue, c: Current, ev: P.PipelineEvent)
    requires Taken(s, d, c, ev)
    ensures Relays(s, d, ev, ApplyPipeline(s, c, ev))
  {
    hide Taken, Relays, ApplyPipeline;
    match ev
    case ReasoningDelta(_) => DeltaRelays(s, d, c, ev);
    case Audio(_, _) => AudioRelays(s, d, c, ev);
    case ToolCompleted(_, _, _, _) => ExchangeRelays(s, d, c, ev);
    case Completed => FinishRelays(s, d, c, ev);
    case Failed => FailRelays(s, d, c, ev);
    case _ => PlainRelays(s, d, c, ev);
  }

  lemma RelaysMirrored(s: Session, d: Dialogue, ev: P.PipelineEvent, t: Session)
    requires Relays(s, d, ev, t) && Running(s) && Mirrored(s.(dialogue := d))
    ensures Mirrored(t)
  {
    hide R.Mirror, U.Turns, TraceOf, Even, SpoolOk, R.Follows;
    var a, b := TraceOf(s.io), TraceOf(t.io);
    R.MirrorFollows(a.speech, a.minutes, d, ev, b.speech, b.minutes, t.dialogue, Faulted(t));
    U.TurnsQuiet(a.talks, a.hearings, s.input, d, true, t.input, t.dialogue, Running(t));
  }

  lemma PipelineMirrored(s: Session)
    requires Mirrored(s) && Good(s) && Running(s) && s.control != [] && s.control[0].Pipeline?
    ensures Mirrored(HandleControl(s.(control := s.control[1..]), s.control[0]))
  {
    hide Mid, Mirrored, Always, P.Grammatical, ApplyPipeline, Talk, Story, Context, Expected;
    LoggedOk(s);
    var e, ev := s.control[0].epoch, s.control[0].event;
    var r := s.(control := s.control[1..]);
    MirroredControl(s, r.control);
    var d := s.dialogue;
    var logged := LogPipeline(r, e, ev);
    if d.current.Some? && d.current.value.epoch == e {
      CurrentTaken(s, logged);
      ApplyRelays(logged, d, d.current.value, ev);
      assert logged.(dialogue := d) == r;
      RelaysMirrored(logged, d, ev, ApplyPipeline(logged, d.current.value, ev));
    } else {
      StaleMirrored(r, e, ev);
    }
  }

  lemma CurrentTaken(s: Session, logged: Session)
    requires Good(s) && Running(s) && s.control != [] && s.control[0].Pipeline?
    requires s.dialogue.current.Some? && s.dialogue.current.value.epoch == s.control[0].epoch
    requires logged == LogPipeline(s.(control := s.control[1..]), s.control[0].epoch, s.control[0].event)
    ensures Taken(logged, s.dialogue, s.dialogue.current.value, s.control[0].event)
  {
    LoggedOk(s);
    hide See, Starts, E.Terminals, E.Inv, Tasks, SttTasks, AudioLogs, InputLogs, Buffer, Order, Story, Context, P.Grammatical, Talk, Expected;
    CurrentEpoch(s.dialogue, ViewOf(s));
    ExpectedNext(s.dialogue, ViewOf(s), s.control[0].event);
  }

  lemma StaleMirrored(s: Session, e: nat, ev: P.PipelineEvent)
    requires Mirrored(s) && e in s.dialogue.delivered && P.Grammatical(s.dialogue.delivered[e] + [ev])
    requires s.dialogue.current.None? || s.dialogue.current.value.epoch != e
    ensures Mirrored(s.(dialogue := Log(s.dialogue, e, ev)))
  {
    hide R.Mirror, U.Turns, TraceOf, Even, P.Grammatical;
    var tr := TraceOf(s.io);
    R.MirrorStale(tr.speech, tr.minutes, s.dialogue, e, ev, Faulted(s));
    U.TurnsQuiet(tr.talks, tr.hearings, s.input, s.dialogue, Running(s), s.input, Log(s.dialogue, e, ev), Running(s));
  }

  // ---------- every step ----------

  lemma ControlMirrored(s: Session)
    requires Mirrored(s) && Good(s) && Running(s) && s.life.Live? && s.input.epoch < U64_MAX && s.control != []
    ensures Mirrored(HandleControl(s.(control := s.control[1..]), s.control[0]))
  {
    hide Mid, Mirrored, Glides, HandleClient, HandleStt, HandlePipeline, EndSession, LogStt, LogPipeline, SpoolOk, Unnumbered;
    var t := s.(control := s.control[1..]);
    match s.control[0]
    case Stt(_, _) => SttMirrored(s);
    case Pipeline(_, _) => PipelineMirrored(s);
    case Client(m) =>
      GoodDequeued(s);
      MirroredControl(s, t.control);
      ClientMirrored(t, m);
    case CompleteSession => EndMirrored(s, t.control, Completed, E.SessionCompleted);
    case CancelSession => EndMirrored(s, t.control, Canceled, E.SessionCanceled);
  }

  lemma EndMirrored(s: Session, control: seq<Command>, phase: Phase, kind: E.EventType)
    requires Mirrored(s) && Good(s) && s.input.epoch < U64_MAX && E.IsTerminal(E.Event(kind, 0)) && TerminalPhase(phase)
    ensures Mirrored(EndSession(s.(control := control), phase, kind))
  {
    hide Good, Mirrored, Glides, EndSession, SpoolOk, Unnumbered;
    GoodUnnumbered(s);
    MirroredControl(s, control);
    var t := s.(control := control);
    EndGlides(t, phase, kind);
    GlidesMirrored(t, EndSession(t, phase, kind));
  }

  lemma MirroredMedia(s: Session, media: seq<Media>)
    requires Mirrored(s)
    ensures Mirrored(s.(media := media))
  {
    hide R.Mirror, U.Turns, TraceOf, Even;
  }

  lemma MediaMirrored(s: Session)
    requires Mirrored(s) && Good(s) && Running(s) && s.life.Live? && s.input.epoch < U64_MAX && s.media != []
    ensures Mirrored(HandleMedia(s.(media := s.media[1..]), s.media[0]))
  {
    hide Mid, Mirrored, HandleClient, HandleAudio, SpoolOk, Unnumbered;
    var t := s.(media := s.media[1..]);
    GoodLanes(s, t.media);
    MirroredMedia(s, t.media);
    GoodUnnumbered(t);
    match s.media[0]
    case Frame(bytes) => AudioMirrored(t, bytes);
    case Ordered(m) => ClientMirrored(t, m);
  }

  lemma MirroredScript(s: Session, script: seq<Choice>)
    requires Mirrored(s)
    ensures Mirrored(WithScript(s, script))
  {
    hide R.Mirror, U.Turns, R.Speech, R.Minutes, U.Talks, U.Hearings, H.Greetings, H.Openings, H.Cuts, H.CutNotes, H.Greeted;
  }

  lemma OverrunMirrored(s: Session)
    requires Mirrored(s) && SpoolOk(s.io) && Running(s)
    ensures Mirrored(FailSession(DropAudio(Report(s, E.AudioOverrun, 0))))
  {
    hide Mirrored, Glides, SpoolOk, FailSession, EmitEvent;
    ReportGlides(s, E.AudioOverrun, 0);
    var t := Report(s, E.AudioOverrun, 0);
    GlidesMirrored(s, t);
    GlidesSpool(s, t);
    DropMirrored(t);
    FailGlides(DropAudio(t));
    GlidesMirrored(DropAudio(t), FailSession(DropAudio(t)));
  }

  lemma GlidesSpool(s: Session, t: Session)
    requires Glides(s, t)
    ensures SpoolOk(t.io)
  {
  }

  lemma DropMirrored(s: Session)
    requires Mirrored(s)
    ensures Mirrored(DropAudio(s)) && DropAudio(s).io == s.io
  {
    hide R.Mirror, U.Turns, TraceOf, Even;
    var tr := TraceOf(s.io);
    var i := s.input.(audio := []);
    U.TurnsQuiet(tr.talks, tr.hearings, s.input, s.dialogue, Running(s), i, s.dialogue, Running(s));
  }

  lemma LoopSpool(s: Session, script: seq<Choice>)
    requires Loop(s) && Running(s)
    ensures Good(WithScript(s, script)) && Running(WithScript(s, script)) && SpoolOk(WithScript(s, script).io)
  {
    LoopGoes(s, script);
    hide GoingBut, Tasks, SttTasks, AudioLogs, InputLogs, Loop;
  }

  lemma BootMirrored(s: Session, script: seq<Choice>)
    requires Inv(s) && Mirrored(s)
    ensures Mirrored(Next(s, Boot(script)))
  {
    hide Always, Loop, Ended, Clean, Lanes, Mirrored, EmitEvent, EmitOutput, Glides, Good;
    if s.life.Booting? {
      LoopSpool(s, script);
      MirroredScript(s, script);
      hide SpoolOk;
      var t := WithScript(s, script);
      StillReady(t);
      GreetMirrored(t, Live, Ready, E.SessionReady, ClientView.SessionReady);
    }
  }

  lemma StillReady(s: Session)
    requires Mirrored(s) && s.life.Booting? && Running(s)
    ensures s.phase.Ready?
  {
    hide R.Mirror, U.Turns, TraceOf, Even;
  }

  lemma TakeMirrored(s: Session, step: Step)
    requires Inv(s) && Mirrored(s) && s.input.epoch < U64_MAX && (step.TakeControl? || step.TakeMedia?)
    ensures Mirrored(Next(s, step))
  {
    hide Always, Loop, Ended, Clean, Lanes, Mirrored, Good, HandleControl, HandleMedia;
    if s.life.Live? && Running(s) {
      var t := WithScript(s, step.script);
      LoopGoes(s, step.script);
      MirroredScript(s, step.script);
      if step.TakeControl? && s.control != [] {
        ControlMirrored(t);
      } else if step.TakeMedia? && s.media != [] {
        MediaMirrored(t);
      }
    }
  }

  lemma StopMirrored(s: Session, step: Step)
    requires Inv(s) && Mirrored(s) && (step.Deadline? || step.ForceCancel? || step.MediaOverrun?)
    ensures Mirrored(Next(s, step))
  {
    hide Always, Loop, Ended, Clean, Lanes, Mirrored, Good, EndSession, FailSession, DropAudio, EmitEvent, Glides;
    if s.life.Live? && Running(s) {
      var t := WithScript(s, step.script);
      LoopSpool(s, step.script);
      MirroredScript(s, step.script);
      hide SpoolOk;
      FailGlides(t);
      GlidesMirrored(t, FailSession(t));
      EndGlides(t, Completed, E.SessionCompleted);
      GlidesMirrored(t, EndSession(t, Completed, E.SessionCompleted));
      OverrunMirrored(t);
    }
  }

  /** Steps outside the actor. */
  lemma AsideMirrored(s: Session, t: Session)
    requires Mirrored(s) && t.io.outputs == s.io.outputs && t.io.spool.accepted == s.io.spool.accepted
    requires t.io.fault == s.io.fault && t.phase == s.phase && t.life == s.life
    requires t.dialogue == s.dialogue.(tasks := t.dialogue.tasks) && t.input == s.input.(tasks := t.input.tasks)
    ensures Mirrored(t)
  {
    hide R.Mirror, U.Turns, R.Speech, R.Minutes, U.Talks, U.Hearings, H.Greetings, H.Openings, H.Cuts, H.CutNotes, H.Greeted;
    var tr := TraceOf(s.io);
    R.MirrorSettles(tr.speech, tr.minutes, s.dialogue, Faulted(s), t.dialogue, Faulted(t));
    U.TurnsQuiet(tr.talks, tr.hearings, s.input, s.dialogue, Running(s), t.input, t.dialogue, Running(t));
  }

  lemma TeardownMirrored(s: Session, script: seq<Choice>)
    requires Inv(s) && Mirrored(s)
    ensures Mirrored(Next(s, Teardown(script)))
  {
    hide Always, Loop, Ended, Clean, Lanes, Mirrored, TeardownSession;
    if s.life.Live? && !Running(s) {
      MirroredScript(s, script);
      LoopScript(s, script);
      ClosesMirrored(WithScript(s, script));
    }
  }

  lemma ClosesMirrored(s: Session)
    requires Loop(s) && !Running(s) && Mirrored(s)
    ensures Mirrored(TeardownSession(s))
  {
    hide R.Mirror, U.Turns, R.Speech, R.Minutes, U.Talks, U.Hearings, H.Greetings, H.Openings, H.Cuts, H.CutNotes, E.PublishTerminal, E.Inv, Going, Told, Clean, Tasks, SttTasks, AudioLogs, InputLogs, See;
    var failed := E.Event(E.SessionFailed, 0);
    TerminalTrace(s.io.spool, failed, Now(s.io).work);
    var t := TeardownSession(s);
    var tr := TraceOf(s.io);
    assert TraceOf(t.io) == tr;
    R.MirrorSettles(tr.speech, tr.minutes, s.dialogue, Faulted(s), t.dialogue, Faulted(t));
    U.TurnsQuiet(tr.talks, tr.hearings, s.input, s.dialogue, Running(s), t.input, t.dialogue, Running(t));
  }

  lemma OverMirrored(s: Session, outcome: Outcome)
    requires Mirrored(s)
    ensures Mirrored(s.(life := Over, outcome := outcome))
  {
    hide R.Mirror, U.Turns, TraceOf, Even;
  }

  lemma DeliverMirrored(s: Session, a: E.Action)
    requires Inv(s) && Mirrored(s)
    ensures Mirrored(Next(s, Deliver(a)))
  {
    hide Mirrored, Stage, Lanes, Tasks, SttTasks, AudioLogs, InputLogs, See, E.WorkerStep, E.Inv;
    E.WorkerEffect(s.io.spool, a);
    AsideMirrored(s, Next(s, Deliver(a)));
  }

  /** What arrives from outside, and what tasks do on their own. */
  lemma OutsideMirrored(s: Session, step: Step)
    requires Mirrored(s) && (step.Arrive? || step.ArriveFrame? || step.Operate? || step.RespondTask? || step.ListenTask?)
    ensures Mirrored(Next(s, step))
  {
    hide Mirrored, StepResponseTask, StepListenTask;
    match step
    case RespondTask(e, answer) => RespondMirrored(s, e, answer);
    case ListenTask(e, hears) => ListenMirrored(s, e, hears);
    case _ => AsideMirrored(s, Next(s, step));
  }

  lemma RespondMirrored(s: Session, e: nat, answer: P.Input)
    requires Mirrored(s)
    ensures Mirrored(StepResponseTask(s, e, answer))
  {
    hide Mirrored, P.Step;
    AsideMirrored(s, StepResponseTask(s, e, answer));
  }

  lemma ListenMirrored(s: Session, e: nat, hears: T.Input)
    requires Mirrored(s)
    ensures Mirrored(StepListenTask(s, e, hears))
  {
    hide Mirrored, T.Step;
    AsideMirrored(s, StepListenTask(s, e, hears));
  }

  lemma NextMirrored(s: Session, step: Step)
    requires Inv(s) && Mirrored(s) && s.input.epoch < U64_MAX
    ensures Mirrored(Next(s, step))
  {
    hide Inv, Mirrored;
    match step
    case Boot(script) => BootMirrored(s, script);
    case TakeControl(_) => TakeMirrored(s, step);
    case TakeMedia(_) => TakeMirrored(s, step);
    case Deadline(_) => StopMirrored(s, step);
    case ForceCancel(_) => StopMirrored(s, step);
    case MediaOverrun(_) => StopMirrored(s, step);
    case Deliver(a) => DeliverMirrored(s, a);
    case Teardown(script) => TeardownMirrored(s, script);
    case Join => OverMirrored(s, Next(s, Join).outcome);
    case Abort => OverMirrored(s, Broken);
    case _ => OutsideMirrored(s, step);
  }

  lemma BeginMirrored(c: Config)
    ensures Mirrored(Begin(c))
  {
    assert R.Speech([]) == [] && R.Minutes([]) == [] && U.Talks([]) == [] && U.Hearings([]) == [];
    assert H.Greetings([]) == [] && H.Openings([]) == [] && H.Cuts([]) == [] && H.CutNotes([]) == [];
  }

  lemma {:induction false} RunMirrored(s: Session, steps: seq<Step>)
    requires Inv(s) && Mirrored(s) && Run(s, steps).input.epoch < U64_MAX
    ensures Mirrored(Run(s, steps))
    decreases |steps|
  {
    if steps != [] {
      hide Inv, Next, Mirrored;
      RunEpoch(s, steps);
      NextInv(s, steps[0]);
      NextMirrored(s, steps[0]);
      RunMirrored(Next(s, steps[0]), steps[1..]);
    }
  }
}
