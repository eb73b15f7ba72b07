/** The session's invariant, kept by every step of the composed system: actor, mailboxes, response
    and transcription tasks, event spool, delivery worker and sink. */
module SessionSafety {
  import opened Common
  import opened History
  import opened ClientView
  import opened SessionModel
  import opened DialogueInvariant
  import opened ListeningInvariant
  import EventSpool
  import P = ResponsePipeline
  import T = Transcription

  function ViewOf(s: Session): View {
    See(s.io.outputs)
  }

  function StartsOf(io: Io): seq<nat> {
    Starts(io.spool.accepted)
  }

  function TermsOf(io: Io): nat {
    EventSpool.Terminals(io.spool.accepted)
  }

  /** Faults that guard against an ill-behaved response task never arise. */
  ghost predicate Benign(io: Io) {
    io.fault.Some? ==> io.fault.value.OutputRefused? || io.fault.value.EventRefused? || io.fault.value.HistoryBound?
  }

  ghost predicate SpoolOk(io: Io) {
    EventSpool.Inv(io.spool) && io.spool.producer.Idle?
  }

  /** Holds at all times. */
  ghost predicate Always(s: Session) {
    && SpoolOk(s.io) && Benign(s.io) && ViewOf(s).ok && s.dialogue.superseded == 0
    && Tasks(s.dialogue, s.control) && SttTasks(s.input, s.control)
    && AudioLogs(s.input, s.config.maxBufferedAudio)
    && InputLogs(s.input, s.dialogue.origins, s.dialogue.epoch, ViewOf(s).finals)
  }

  /** Holds while the actor's loop runs, up to whether a response is under way. */
  ghost predicate GoingBut(s: Session, talking: bool) {
    && Sound(s.dialogue, ViewOf(s), StartsOf(s.io), s.config.history)
    && Buffer(s.input, s.config.maxBufferedAudio)
    && Order(s.input, s.dialogue.origins, ViewOf(s).finals, talking)
  }

  ghost predicate Going(s: Session) {
    GoingBut(s, s.dialogue.current.Some?)
  }

  /** Within a handler: nothing terminal has been published, and unless an error is propagating
      the loop's invariant holds. */
  ghost predicate Mid(s: Session, talking: bool) {
    && Always(s) && TermsOf(s.io) == 0 && s.io.spool.open && !s.terminalError
    && (Faulted(s) || GoingBut(s, talking))
  }

  ghost predicate Good(s: Session) {
    Mid(s, s.dialogue.current.Some?) && (Faulted(s) || Running(s))
  }

  /** Exactly one terminal event was accepted, it is the last, and it is not session.failed. */
  ghost predicate Clean(accepted: seq<EventSpool.Sealed>) {
    && EventSpool.Terminals(accepted) == 1 && accepted != []
    && var last := accepted[|accepted| - 1].event.kind;
    last.SessionCompleted? || last.SessionCanceled?
  }

  /** The dialogue's story is told to its end. */
  ghost predicate Told(s: Session) {
    s.dialogue.current.None? && Story(s.dialogue, ViewOf(s), StartsOf(s.io))
  }

  /** Between handlers: running, failing, or ended with its terminal event accepted. */
  ghost predicate Loop(s: Session) {
    && Always(s) && s.io.spool.open && (s.terminalError ==> s.phase.Failed?)
    && (if Faulted(s) || s.terminalError then TermsOf(s.io) == 0
        else if Running(s) then TermsOf(s.io) == 0 && Going(s)
        else Clean(s.io.spool.accepted) && Told(s))
  }

  lemma GoodIsLoop(s: Session)
    requires Good(s)
    ensures Loop(s)
  {
    hide Always, GoingBut;
  }

  // ---------- emissions ----------

  lemma SayIo(io: Io, o: Output)
    ensures var io' := EmitOutput(io, o);
            && io'.spool == io.spool && (io.fault.Some? ==> io' == io)
            && (io'.fault.Some? && io.fault.None? ==> io'.fault == Some(OutputRefused) && io'.outputs == io.outputs)
            && (io'.fault.None? ==> io.fault.None? && See(io'.outputs) == Observe(See(io.outputs), o))
  {
    SeeOne(io.outputs, o);
    hide See;
  }

  lemma ReportIo(io: Io, e: EventSpool.Event)
    requires SpoolOk(io) && !EventSpool.IsTerminal(e)
    ensures var io' := EmitEvent(io, e);
            && SpoolOk(io') && io'.outputs == io.outputs && io'.spool.open == io.spool.open && (io.fault.Some? ==> io' == io)
            && TermsOf(io') == TermsOf(io)
            && (io'.fault.Some? && io.fault.None? ==> io'.fault == Some(EventRefused) && StartsOf(io') == StartsOf(io))
            && (io'.fault.None? ==>
                  io.fault.None? && StartsOf(io') == StartsOf(io) + (if e.kind.ReasoningStarted? then [e.epoch] else []))
  {
    if io.fault.None? {
      var w := Now(io).work;
      EventSpool.TryPublishEffect(io.spool, e, w);
      var sealed' := EventSpool.Sealed(e, |io.spool.accepted| + 1);
      StartsOne(io.spool.accepted, sealed');
      EventSpool.TerminalsAppend(io.spool.accepted, sealed');
      hide EventSpool.TryPublish, EventSpool.Inv, Starts, EventSpool.Terminals;
      assert io.spool.accepted + [] == io.spool.accepted;
    }
  }

  /** Outputs that say nothing about responses or final transcripts. */
  predicate Neutral(o: Output) {
    !OfResponse(o) && !(o.Transcript? && o.isFinal)
  }

  lemma SayMid(s: Session, o: Output, talking: bool)
    requires Mid(s, talking) && Neutral(o)
    ensures var t := Say(s, o);
            && Mid(t, talking)
            && (!Faulted(t) ==> !Faulted(s) && ViewOf(t) == ViewOf(s) && StartsOf(t.io) == StartsOf(s.io))
  {
    hide See, Starts, EventSpool.Terminals, EventSpool.Inv, Tasks, SttTasks, AudioLogs, InputLogs, Sound, Buffer, Order, EmitOutput;
    SayIo(s.io, o);
  }

  lemma ReportMid(s: Session, kind: EventSpool.EventType, epoch: nat, talking: bool)
    requires Mid(s, talking) && !EventSpool.IsTerminal(EventSpool.Event(kind, epoch)) && !kind.ReasoningStarted?
    ensures var t := Report(s, kind, epoch);
            && Mid(t, talking) && ViewOf(t) == ViewOf(s)
            && (!Faulted(t) ==> !Faulted(s) && StartsOf(t.io) == StartsOf(s.io))
  {
    hide See, Starts, EventSpool.Terminals, EventSpool.Inv, Tasks, SttTasks, AudioLogs, InputLogs, Sound, Buffer, Order, EmitEvent;
    ReportIo(s.io, EventSpool.Event(kind, epoch));
    assert StartsOf(s.io) + [] == StartsOf(s.io);
  }

  // ---------- interrupting ----------

  lemma ObserveCompletion(d: Dialogue, v: View)
    requires Talk(d, v) && d.current.Some?
    ensures forall interrupted :: Observe(v, ResponseCompleted(d.epoch, interrupted)).ok
              && Observe(v, ResponseCompleted(d.epoch, interrupted)).finals == v.finals
  {
  }

  lemma OrderDrops(i: Listening, origins: seq<nat>, finals: seq<nat>, talking: bool)
    requires Order(i, origins, finals, talking)
    ensures Order(i, origins, finals, false)
  {
  }

  /** Dropping the current response, if any. */
  lemma InterruptMid(s: Session)
    requires Mid(s, false)
    ensures var t := Interrupt(s);
            && Mid(t, false) && t.dialogue.origins == s.dialogue.origins && t.dialogue.epoch == s.dialogue.epoch
            && (!Faulted(t) ==> !Faulted(s) && t.dialogue.current.None? && ViewOf(t).finals == ViewOf(s).finals)
            && t == s.(dialogue := t.dialogue, io := t.io)
  {
    hide Always, GoingBut, EmitEvent, EmitOutput, See;
    if !Faulted(s) && s.dialogue.current.Some? {
      InterruptCurrentMid(s);
    }
  }

  lemma InterruptCurrentMid(s: Session)
    requires Mid(s, false) && !Faulted(s) && s.dialogue.current.Some?
    ensures var t := Interrupt(s);
            Mid(t, false) && (!Faulted(t) ==> ViewOf(t).finals == ViewOf(s).finals)
  {
    hide See, Starts, EventSpool.Terminals, EventSpool.Inv, Tasks, SttTasks, AudioLogs, InputLogs, Buffer, Order, Talk, Story, Context,
         EmitEvent, EmitOutput, Observe;
    var d := s.dialogue;
    ObserveCompletion(d, ViewOf(s));
    InterruptSound(d, ViewOf(s), StartsOf(s.io), s.config.history);
    CurrentEpoch(d, ViewOf(s));
    TasksFrame(d, d.(current := None), s.control);
    var io1 := EmitOutput(s.io, ResponseCompleted(d.epoch, true));
    SayIo(s.io, ResponseCompleted(d.epoch, true));
    ReportIo(io1, EventSpool.Event(EventSpool.SessionInterrupted, d.epoch));
    assert StartsOf(s.io) + [] == StartsOf(s.io);
  }

  lemma CurrentEpoch(d: Dialogue, v: View)
    requires Talk(d, v) && d.current.Some?
    ensures d.current.value.epoch == d.epoch
  {
  }

  // ---------- starting a response ----------

  /** The current input epoch is neither being spoken nor awaiting a final transcript. */
  ghost predicate Concluding(i: Listening) {
    !i.speaking && (i.epoch in i.tasks && i.epoch in i.delivered ==> T.HasFinal(i.delivered[i.epoch]))
  }

  ghost predicate Unanswered(s: Session) {
    Concluding(s.input) && Last(s.dialogue.origins) < s.input.epoch
  }

  lemma OrderConcluded(i: Listening, origins: seq<nat>, finals: seq<nat>, talking: bool)
    requires Concluding(i) && (talking ==> Last(origins) == i.epoch)
    ensures Order(i, origins, finals, talking)
  {
  }

  lemma InputLogsLaunch(i: Listening, origins: seq<nat>, responses: nat, finals: seq<nat>)
    requires InputLogs(i, origins, responses, finals) && Last(origins) < i.epoch
    ensures InputLogs(i, origins + [i.epoch], responses + 1, finals) && Last(origins + [i.epoch]) == i.epoch
  {
    AscendingOne(origins, i.epoch);
  }

  lemma EpochBound(i: Listening, origins: seq<nat>, responses: nat, finals: seq<nat>)
    requires InputLogs(i, origins, responses, finals)
    ensures responses <= Last(origins)
  {
    AscendingBound(origins, Last(origins));
  }

  /** A response starts: at most one for an input epoch, and never over a current one. */
  lemma LaunchMid(s: Session, text: string)
    requires Mid(s, false) && s.input.epoch <= U64_MAX
    requires !Faulted(s) ==> s.dialogue.current.None? && Unanswered(s)
    ensures var t := Launch(s, text);
            Mid(t, true) && t == s.(dialogue := t.dialogue, io := t.io)
  {
    hide Always, GoingBut, Retained, Fits, EmitEvent, Concluding, Last;
    if Faulted(s) {
    } else if !Fits([User(text)], s.config.history) {
      LaunchRefused(s, text);
    } else {
      LaunchGrows(s, text);
    }
  }

  lemma LaunchRefused(s: Session, text: string)
    requires Mid(s, false) && !Faulted(s) && !Fits([User(text)], s.config.history)
    ensures Mid(Launch(s, text), true)
  {
    hide See, Starts, EventSpool.Terminals, EventSpool.Inv, Tasks, SttTasks, AudioLogs, InputLogs, Sound, Buffer, Order, Fits, EmitEvent, Retained;
  }

  lemma LaunchGrows(s: Session, text: string)
    requires Mid(s, false) && s.input.epoch <= U64_MAX && !Faulted(s) && Fits([User(text)], s.config.history)
    requires s.dialogue.current.None? && Unanswered(s)
    ensures Mid(Launch(s, text), true)
  {
    hide See, Starts, EventSpool.Terminals, EventSpool.Inv, Tasks, SttTasks, AudioLogs, InputLogs, Buffer, Order, Fits, EmitEvent, Retained, Sound, Last, Concluding;
    var d, i := s.dialogue, s.input;
    EpochBound(i, d.origins, d.epoch, ViewOf(s).finals);
    var t := Launch(s, text);
    var e := d.epoch + 1;
    var counted := d.(pushed := d.pushed + [[User(text)]], history := Retained(d.history + [[User(text)]], s.config.history),
                      epoch := e, origins := d.origins + [i.epoch]);
    ReportIo(s.io, EventSpool.Event(EventSpool.ReasoningStarted, e));
    InputLogsLaunch(i, d.origins, d.epoch, ViewOf(s).finals);
    TasksFrame(d, counted, s.control);
    OrderConcluded(i, d.origins + [i.epoch], ViewOf(s).finals, true);
    if !Faulted(t) {
      var launched := t.dialogue;
      FreshEpoch(d, s.control);
      TasksSpawn(d, launched, s.control, Concat(d.history) + [User(text)], Turn(d.pushed, text));
      LaunchSound(d, launched, ViewOf(s), StartsOf(s.io), s.config.history, text);
    }
  }

  lemma FreshEpoch(d: Dialogue, control: seq<Command>)
    requires Tasks(d, control)
    ensures d.epoch + 1 !in d.delivered
  {
  }

  /** `start_response` finds no current response, so its own interrupt does nothing. */
  lemma StartResponseMid(s: Session, text: string)
    requires Mid(s, false) && s.input.epoch <= U64_MAX
    requires !Faulted(s) ==> s.dialogue.current.None? && Unanswered(s)
    ensures !Faulted(s) ==> StartResponse(s, text) == Launch(s, text)
    ensures var t := StartResponseIf(s, text);
            Mid(t, true) && t == s.(dialogue := t.dialogue, io := t.io)
  {
    LaunchMid(s, text);
    hide Mid, Launch;
  }

  // ---------- inputs ----------

  lemma NewInputMid(s: Session, speaking: bool)
    requires Mid(s, false) && !Faulted(s) && s.input.epoch < U64_MAX
    ensures var t := NewInput(s, speaking, []);
            && Mid(t, false) && t == s.(dialogue := t.dialogue, io := t.io, input := t.input)
            && t.input.epoch == s.input.epoch + 1 && t.input.speaking == speaking && t.input.audio == []
            && (!Faulted(t) ==> t.dialogue.current.None? && Fresh(t.input, t.dialogue.origins, ViewOf(t).finals) && t.input.epoch !in t.input.tasks)
  {
    hide See, Starts, EventSpool.Terminals, EventSpool.Inv, Tasks, SttTasks, AudioLogs, InputLogs, Sound, Buffer, Order, Interrupt;
    var i := s.input;
    var i' := i.(epoch := i.epoch + 1, speaking := speaking, audio := []);
    NewInputKeeps(i, i', s.config.maxBufferedAudio, s.dialogue.origins, s.dialogue.epoch, ViewOf(s).finals);
    SttFrame(i, i', s.control);
    InterruptMid(s.(input := i'));
  }

  lemma FinalLogs(i: Listening, origins: seq<nat>, responses: nat, finals: seq<nat>)
    requires InputLogs(i, origins, responses, finals) && Last(finals) < i.epoch
    ensures InputLogs(i, origins, responses, finals + [i.epoch])
  {
    AscendingOne(finals, i.epoch);
  }

  /** Telling the client the final transcript of the current input epoch. */
  lemma SayFinalMid(s: Session, text: string)
    requires Mid(s, false) && !Faulted(s) && Concluding(s.input) && Last(ViewOf(s).finals) < s.input.epoch
    ensures var t := Say(s, Transcript(s.input.epoch, text, true));
            Mid(t, false) && t == s.(io := t.io)
  {
    hide See, Starts, EventSpool.Terminals, EventSpool.Inv, Tasks, SttTasks, AudioLogs, InputLogs, Buffer, Order, EmitOutput, Last, Concluding;
    var v := ViewOf(s);
    SayIo(s.io, Transcript(s.input.epoch, text, true));
    FinalLogs(s.input, s.dialogue.origins, s.dialogue.epoch, v.finals);
    OrderConcluded(s.input, s.dialogue.origins, v.finals + [s.input.epoch], false);
    SoundFinals(s.dialogue, v, StartsOf(s.io), s.config.history, v.finals + [s.input.epoch]);
    hide Sound;
  }

  lemma SoundFinals(d: Dialogue, v: View, starts: seq<nat>, limits: Limits, finals: seq<nat>)
    requires Sound(d, v, starts, limits)
    ensures Sound(d, v.(finals := finals), starts, limits)
  {
    hide P.Follow, P.ToolPairs, Answered, AssistantTexts, Retained;
  }

  /** Telling, reporting and answering a final transcript. */
  lemma ConcludeMid(s: Session, text: string)
    requires Mid(s, false) && s.input.epoch <= U64_MAX
    requires !Faulted(s) ==> s.dialogue.current.None? && Concluding(s.input) && Fresh(s.input, s.dialogue.origins, ViewOf(s).finals)
    ensures var t := StartResponseIf(Report(Say(s, Transcript(s.input.epoch, text, true)), EventSpool.SpeechFinal, s.input.epoch), text);
            Mid(t, true) && t == s.(dialogue := t.dialogue, io := t.io)
  {
    var told := Say(s, Transcript(s.input.epoch, text, true));
    if Faulted(s) {
      hide Always, GoingBut;
    } else {
      hide See, Concluding, Always, GoingBut, Last, StartResponseIf, EmitOutput, EmitEvent;
      FreshParts(s.input, s.dialogue.origins, ViewOf(s).finals);
      SayFinalMid(s, text);
      ReportMid(told, EventSpool.SpeechFinal, s.input.epoch, false);
      StartResponseMid(Report(told, EventSpool.SpeechFinal, s.input.epoch), text);
    }
  }

  lemma FreshParts(i: Listening, origins: seq<nat>, finals: seq<nat>)
    requires Fresh(i, origins, finals)
    ensures Last(finals) < i.epoch && Last(origins) < i.epoch
  {
  }

  // ---------- ending ----------

  /** `fail_session` drops the response; the story is cut, and nothing terminal is published yet. */
  lemma FailAlways(s: Session)
    requires Always(s) && TermsOf(s.io) == 0 && s.io.spool.open && !s.terminalError && (Faulted(s) || Running(s))
    ensures Loop(FailSession(s))
  {
    hide See, Starts, EventSpool.Terminals, EventSpool.Inv, Tasks, SttTasks, AudioLogs, InputLogs, Sound, Buffer, Order, EmitOutput;
    SayIo(s.io, ErrorNotice);
    TasksFrame(s.dialogue, s.dialogue.(current := None), s.control);
  }

  lemma FailLoop(s: Session)
    requires Mid(s, false) && (Faulted(s) || Running(s))
    ensures Loop(FailSession(s))
  {
    hide Always, GoingBut, Loop, FailSession;
    FailAlways(s);
  }

  lemma TerminalIo(io: Io, e: EventSpool.Event)
    requires SpoolOk(io) && EventSpool.IsTerminal(e) && io.fault.None?
    ensures var io' := EmitTerminal(io, e);
            && SpoolOk(io') && io'.outputs == io.outputs && io'.spool.open == io.spool.open
            && (io'.fault.Some? ==> io'.fault == Some(EventRefused) && io'.spool.accepted == io.spool.accepted)
            && (io'.fault.None? ==> exists n :: io'.spool.accepted == io.spool.accepted + [EventSpool.Sealed(e, n)])
  {
    hide EventSpool.PublishTerminal, EventSpool.Inv;
    EventSpool.PublishTerminalEffect(io.spool, e, Now(io).work);
    assert io.spool.accepted + [] == io.spool.accepted;
  }

  lemma CleanEnd(accepted: seq<EventSpool.Sealed>, kind: EventSpool.EventType, n: nat)
    requires EventSpool.Terminals(accepted) == 0 && (kind.SessionCompleted? || kind.SessionCanceled?)
    ensures var grown := accepted + [EventSpool.Sealed(EventSpool.Event(kind, 0), n)];
            Clean(grown) && Starts(grown) == Starts(accepted)
  {
    var x := EventSpool.Sealed(EventSpool.Event(kind, 0), n);
    EventSpool.TerminalsAppend(accepted, x);
    StartsOne(accepted, x);
    assert Starts(accepted) + [] == Starts(accepted);
  }

  /** `complete` and `cancel_session`: interrupt, then the one terminal event. */
  lemma EndLoop(s: Session, phase: Phase, kind: EventSpool.EventType)
    requires Mid(s, false) && (Faulted(s) || Running(s))
    requires (phase.Completed? && kind.SessionCompleted?) || (phase.Canceled? && kind.SessionCanceled?)
    ensures Loop(EndSession(s, phase, kind))
  {
    hide See, Starts, EventSpool.Terminals, EventSpool.Inv, Tasks, SttTasks, AudioLogs, InputLogs, Buffer, Order, Interrupt, EmitTerminal,
         Talk, Story, Context, Clean;
    InterruptMid(s.(phase := Draining));
    var t := Interrupt(s.(phase := Draining));
    if !Faulted(s) && !Faulted(t) {
      TerminalIo(t.io, EventSpool.Event(kind, 0));
      var io' := EmitTerminal(t.io, EventSpool.Event(kind, 0));
      if io'.fault.None? {
        var n :| io'.spool.accepted == t.io.spool.accepted + [EventSpool.Sealed(EventSpool.Event(kind, 0), n)];
        CleanEnd(t.io.spool.accepted, kind, n);
      }
    }
  }

  lemma MidDrops(s: Session)
    requires Mid(s, s.dialogue.current.Some?)
    ensures Mid(s, false)
  {
    hide Always, Sound, Buffer, Order;
    if !Faulted(s) {
      OrderDrops(s.input, s.dialogue.origins, ViewOf(s).finals, s.dialogue.current.Some?);
    }
  }

  // ---------- inputs, session by session ----------

  lemma GoodAfter(t: Session)
    requires Mid(t, true) && (Faulted(t) || (Running(t)))
    ensures Good(t)
  {
    hide Always, Sound, Buffer;
    if !Faulted(t) {
      OrderAny(t.input, t.dialogue.origins, ViewOf(t).finals, t.dialogue.current.Some?);
    }
  }

  lemma OrderAny(i: Listening, origins: seq<nat>, finals: seq<nat>, talking: bool)
    requires Order(i, origins, finals, true)
    ensures Order(i, origins, finals, talking)
  {
  }

  lemma TextGood(s: Session, text: string)
    requires Good(s) && Running(s) && s.input.epoch < U64_MAX
    ensures Good(HandleText(s, text))
  {
    hide Mid, Always, GoingBut, NewInput, StartResponseIf, EmitOutput, EmitEvent, Fresh, See;
    MidDrops(s);
    NewInputMid(s, false);
    var t := NewInput(s, false, []);
    assert !Faulted(t) ==> Concluding(t.input);
    ConcludeMid(t, text);
    GoodAfter(HandleText(s, text));
  }

  lemma BufferQuiet(s: Session)
    requires Good(s) && !Faulted(s) && !s.input.speaking
    ensures s.input.audio == []
  {
  }

  lemma FrameMid(s: Session, frame: seq<byte>)
    requires Good(s) && !Faulted(s) && s.input.speaking && |frame| % 2 == 0
    requires |s.input.audio| + |frame| <= s.config.maxBufferedAudio
    ensures Good(s.(input := s.input.(audio := s.input.audio + frame, heard := s.input.heard + [Heard(s.input.epoch, frame)])))
  {
    hide See, Starts, EventSpool.Terminals, EventSpool.Inv, Tasks, SttTasks, AudioLogs, InputLogs, Buffer, Sound;
    var i' := s.input.(audio := s.input.audio + frame, heard := s.input.heard + [Heard(s.input.epoch, frame)]);
    FrameKeeps(s.input, i', frame, s.config.maxBufferedAudio);
    SttFrame(s.input, i', s.control);
    InputLogsFrame(s.input, i', s.dialogue.origins, s.dialogue.epoch, ViewOf(s).finals);
  }

  lemma InputLogsFrame(i: Listening, i': Listening, origins: seq<nat>, responses: nat, finals: seq<nat>)
    requires InputLogs(i, origins, responses, finals) && i'.epoch == i.epoch
    ensures InputLogs(i', origins, responses, finals)
  {
  }

  lemma AudioReady(s: Session)
    requires Good(s) && Running(s) && s.input.epoch < U64_MAX && !s.input.speaking
    ensures var t := Report(NewInput(s, true, s.input.audio), EventSpool.SpeechStarted, 0);
            && Mid(t, false) && t == s.(dialogue := t.dialogue, io := t.io, input := t.input)
            && t.input.epoch <= s.input.epoch + 1 && t.input.speaking
            && (!Faulted(t) ==> t.dialogue.current.None?)
  {
    hide Mid, Always, GoingBut, NewInput, EmitEvent, Fresh, See;
    BufferQuiet(s);
    MidDrops(s);
    NewInputMid(s, true);
    ReportMid(NewInput(s, true, []), EventSpool.SpeechStarted, 0, false);
  }

  lemma AudioLoop(s: Session, frame: seq<byte>)
    requires Good(s) && Running(s) && s.input.epoch < U64_MAX && |frame| % 2 == 0
    ensures Loop(HandleAudio(s, frame))
  {
    hide Mid, Loop, NewInput, EmitEvent, EmitOutput, FailSession, See, StartsOf;
    var t := HandleAudio(s, frame);
    if !s.phase.Active? {
      SayMid(s, ErrorNotice, s.dialogue.current.Some?);
      GoodIsLoop(t);
    } else if s.input.speaking {
      AudioTail(s, s, frame);
    } else {
      var ready := Report(NewInput(s, true, s.input.audio), EventSpool.SpeechStarted, 0);
      AudioReady(s);
      AudioTail(s, ready, frame);
    }
  }

  lemma AudioTail(s: Session, ready: Session, frame: seq<byte>)
    requires Mid(ready, ready.dialogue.current.Some?) || (Mid(ready, false) && (!Faulted(ready) ==> ready.dialogue.current.None?))
    requires ready.phase.Active? && ready.input.speaking && |frame| % 2 == 0
    ensures var t := if Faulted(ready) then ready
                     else if |ready.input.audio| + |frame| > ready.config.maxBufferedAudio then FailSession(ready)
                     else ready.(input := ready.input.(audio := ready.input.audio + frame,
                                                       heard := ready.input.heard + [Heard(ready.input.epoch, frame)]));
            Loop(t) && t.input.epoch == ready.input.epoch
  {
    hide Always, GoingBut, FailSession;
    if Faulted(ready) {
    } else {
      MidDrops(ready);
      if |ready.input.audio| + |frame| > ready.config.maxBufferedAudio {
        hide Mid, Loop;
        FailLoop(ready);
        FailInput(ready);
      } else {
        hide Mid, Loop;
        FrameMid(ready, frame);
        GoodIsLoop(ready.(input := ready.input.(audio := ready.input.audio + frame,
                                                heard := ready.input.heard + [Heard(ready.input.epoch, frame)])));
      }
    }
  }

  lemma FailInput(s: Session)
    ensures FailSession(s).input == s.input && FailSession(s).config == s.config && FailSession(s).control == s.control
  {
  }

  lemma CommitGood(s: Session)
    requires Good(s) && !Faulted(s) && s.input.audio != []
    ensures Good(CommitAudio(s)) && CommitAudio(s).input.epoch == s.input.epoch
  {
    hide See, Starts, EventSpool.Terminals, EventSpool.Inv, Tasks, SttTasks, AudioLogs, InputLogs, Buffer, Sound, Order;
    var i := s.input;
    var t := CommitAudio(s);
    CommitKeeps(i, t.input, s.control, s.config.maxBufferedAudio, s.dialogue.origins, ViewOf(s).finals, s.dialogue.current.Some?);
    InputLogsFrame(i, t.input, s.dialogue.origins, s.dialogue.epoch, ViewOf(s).finals);
  }

  /** Nothing but the named parts of a session matters to its invariant. */
  lemma GoodSeen(s: Session, id: string)
    requires Good(s)
    ensures Good(s.(seen := s.seen + [id]))
  {
    hide See, Starts, EventSpool.Terminals, EventSpool.Inv, Tasks, SttTasks, AudioLogs, InputLogs, Buffer, Sound, Order;
  }

  lemma GoodTyped(s: Session, text: string)
    requires Good(s)
    ensures Good(LogTyped(s, text)) && Running(LogTyped(s, text)) == Running(s)
  {
    hide See, Starts, EventSpool.Terminals, EventSpool.Inv, Tasks, SttTasks, AudioLogs, InputLogs, Sound;
    var i := LogTyped(s, text).input;
    SttFrame(s.input, i, s.control);
    InputLogsFrame(s.input, i, s.dialogue.origins, s.dialogue.epoch, ViewOf(s).finals);
    AudioLogsTyped(s.input, i, s.config.maxBufferedAudio);
  }

  lemma AudioLogsTyped(i: Listening, i': Listening, budget: nat)
    requires AudioLogs(i, budget) && i' == i.(typed := i'.typed)
    ensures AudioLogs(i', budget)
  {
    forall e | e in i'.tasks
      ensures Faithful(i', e, budget)
    {
      assert Faithful(i, e, budget);
    }
  }

  lemma StartGood(s: Session)
    requires Good(s) && Running(s)
    ensures Good(Say(Report(s.(phase := Active), EventSpool.SessionStarted, 0), ClientView.SessionStarted))
  {
    hide See, Starts, EventSpool.Terminals, EventSpool.Inv, Tasks, SttTasks, AudioLogs, InputLogs, Buffer, Sound, Order, EmitEvent, EmitOutput;
    var talking := s.dialogue.current.Some?;
    var active := s.(phase := Active);
    ReportMid(active, EventSpool.SessionStarted, 0, talking);
    SayMid(Report(active, EventSpool.SessionStarted, 0), ClientView.SessionStarted, talking);
  }

  lemma InterruptGood(s: Session)
    requires Good(s)
    ensures Good(Interrupt(s)) && Interrupt(s).input == s.input
  {
    hide Mid, Always, GoingBut, Interrupt, See;
    MidDrops(s);
    InterruptMid(s);
    GoodQuiet(Interrupt(s));
  }

  lemma GoodQuiet(t: Session)
    requires Mid(t, false) && (Faulted(t) || (Running(t) && t.dialogue.current.None?))
    ensures Good(t)
  {
    hide Always, GoingBut;
  }

  lemma ErrorGood(s: Session)
    requires Good(s)
    ensures Good(Say(s, ErrorNotice)) && Say(s, ErrorNotice).input == s.input
  {
    hide Mid, EmitOutput, See, StartsOf;
    SayMid(s, ErrorNotice, s.dialogue.current.Some?);
  }

  lemma EndInput(s: Session, phase: Phase, kind: EventSpool.EventType)
    ensures EndSession(s, phase, kind).input == s.input
  {
    hide EmitEvent, EmitOutput, EmitTerminal;
  }

  lemma BodyLoop(s: Session, body: ClientBody)
    requires Good(s) && Running(s) && s.input.epoch < U64_MAX
    ensures Loop(HandleBody(s, body))
  {
    hide Mid, Loop, EmitEvent, EmitOutput, HandleText, CommitAudio, Interrupt, EndSession;
    ErrorGood(s);
    GoodIsLoop(Say(s, ErrorNotice));
    match body
    case Start =>
      if s.phase.Ready? {
        StartGood(s);
        GoodIsLoop(Say(Report(s.(phase := Active), EventSpool.SessionStarted, 0), ClientView.SessionStarted));
      }
    case Text(text) =>
      if s.phase.Active? {
        GoodTyped(s, text);
        TextGood(LogTyped(s, text), text);
        GoodIsLoop(HandleText(LogTyped(s, text), text));
      }
    case CommitInput =>
      if s.phase.Active? && s.input.audio != [] {
        CommitGood(s);
        GoodIsLoop(CommitAudio(s));
      }
    case CancelResponse(epoch) =>
      InterruptGood(s);
      GoodIsLoop(Interrupt(s));
      GoodIsLoop(s);
    case Ack => GoodIsLoop(s);
    case End =>
      MidDrops(s);
      EndLoop(s, Completed, EventSpool.SessionCompleted);
      EndInput(s, Completed, EventSpool.SessionCompleted);
  }

  lemma ClientLoop(s: Session, m: ClientMessage)
    requires Good(s) && Running(s) && s.input.epoch < U64_MAX
    ensures Loop(HandleClient(s, m))
  {
    hide Mid, Loop, HandleBody;
    GoodIsLoop(s);
    GoodSeen(s, m.id);
    BodyLoop(s.(seen := s.seen + [m.id]), m.body);
  }

  // ---------- transcription events ----------

  lemma OrderLogged(i: Listening, e: nat, heard: T.SttEvent, origins: seq<nat>, finals: seq<nat>, talking: bool)
    requires Order(i, origins, finals, talking) && e in i.delivered
    ensures Order(LogHeard(i, e, heard), origins, finals, talking)
  {
    T.HasFinalOne(i.delivered[e], heard);
  }

  lemma AudioLogsLogged(i: Listening, e: nat, heard: T.SttEvent, budget: nat)
    requires AudioLogs(i, budget) && e in i.delivered
    ensures AudioLogs(LogHeard(i, e, heard), budget)
  {
    forall k | k in i.tasks
      ensures Faithful(LogHeard(i, e, heard), k, budget)
    {
      assert Faithful(i, k, budget);
    }
  }

  /** Taking a transcription event off the lane leaves the session good; if it is the final one
      of the current epoch, that epoch is fresh. */
  lemma SttTaken(s: Session)
    requires Good(s) && Running(s) && s.control != [] && s.control[0].Stt?
    ensures var t := LogStt(s.(control := s.control[1..]), s.control[0].epoch, s.control[0].heard);
            && Good(t) && Running(t) && t == s.(control := s.control[1..], input := t.input) && t.input.epoch == s.input.epoch
            && (T.IsFinal(s.control[0].heard) && s.control[0].epoch == s.input.epoch ==>
                  t.dialogue.current.None? && Concluding(t.input) && Fresh(t.input, t.dialogue.origins, ViewOf(t).finals))
  {
    hide See, Starts, EventSpool.Terminals, EventSpool.Inv, Tasks, SttTasks, AudioLogs, InputLogs, Sound, Order, Fresh, Concluding, T.HasFinal;
    var e, heard := s.control[0].epoch, s.control[0].heard;
    SttLog(s.input, s.control);
    TasksDequeue(s.dialogue, s.control);
    AudioLogsLogged(s.input, e, heard, s.config.maxBufferedAudio);
    OrderLogged(s.input, e, heard, s.dialogue.origins, ViewOf(s).finals, s.dialogue.current.Some?);
    InputLogsFrame(s.input, LogHeard(s.input, e, heard), s.dialogue.origins, s.dialogue.epoch, ViewOf(s).finals);
    if T.IsFinal(heard) && e == s.input.epoch {
      FinalIsFresh(s.input, heard, s.dialogue, ViewOf(s), s.config.maxBufferedAudio);
    }
  }

  lemma FinalIsFresh(i: Listening, heard: T.SttEvent, d: Dialogue, v: View, budget: nat)
    requires Order(i, d.origins, v.finals, d.current.Some?) && Buffer(i, budget) && i.epoch in i.tasks && i.epoch in i.delivered
    requires T.IsFinal(heard) && !T.HasFinal(i.delivered[i.epoch])
    ensures d.current.None? && Concluding(LogHeard(i, i.epoch, heard)) && Fresh(LogHeard(i, i.epoch, heard), d.origins, v.finals)
  {
    T.HasFinalOne(i.delivered[i.epoch], heard);
  }

  lemma SttLoop(s: Session, epoch: nat, e: T.SttEvent)
    requires Good(s) && Running(s) && s.input.epoch < U64_MAX
    requires T.IsFinal(e) && epoch == s.input.epoch ==>
               s.dialogue.current.None? && Concluding(s.input) && Fresh(s.input, s.dialogue.origins, ViewOf(s).finals)
    ensures Loop(HandleStt(s, epoch, e)) && HandleStt(s, epoch, e).input.epoch == s.input.epoch
  {
    hide Mid, Loop, FailSession, StartResponseIf, EmitEvent, EmitOutput, See, StartsOf, Fresh, Concluding;
    GoodIsLoop(s);
    MidDrops(s);
    FailLoop(s);
    FailInput(s);
    if epoch == s.input.epoch && e.Segment? {
      if e.isFinal {
        ConcludeMid(s, e.text);
        var t := StartResponseIf(Report(Say(s, Transcript(s.input.epoch, e.text, true)), EventSpool.SpeechFinal, s.input.epoch), e.text);
        GoodAfter(t);
        GoodIsLoop(t);
      } else {
        var talking := s.dialogue.current.Some?;
        var told := Say(s, Transcript(epoch, e.text, false));
        SayMid(s, Transcript(epoch, e.text, false), talking);
        ReportMid(told, EventSpool.SpeechPartial, epoch, talking);
        GoodIsLoop(Report(told, EventSpool.SpeechPartial, epoch));
      }
    }
  }
}
