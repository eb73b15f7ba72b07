/** One step of the composed system, whatever it is, keeps the session's invariant. */
module SystemSafety {
  import opened Common
  import opened History
  import opened ClientView
  import opened SessionModel
  import opened DialogueInvariant
  import opened ListeningInvariant
  import opened SessionSafety
  import opened PipelineSafety
  import EventSpool
  import P = ResponsePipeline
  import T = Transcription

  /** Queued audio frames passed the frame check. */
  ghost predicate Lanes(media: seq<Media>) {
    forall m :: m in media && m.Frame? ==> |m.bytes| % 2 == 0
  }

  /** A terminal event is the last one accepted, so there is at most one. */
  ghost predicate TerminalLast(accepted: seq<EventSpool.Sealed>) {
    forall i :: 0 <= i < |accepted| - 1 ==> !EventSpool.IsTerminal(accepted[i].event)
  }

  /** Once the loop has been left: the verdict on what was accepted. */
  ghost predicate Ended(s: Session) {
    TerminalLast(s.io.spool.accepted) && (Clean(s.io.spool.accepted) ==> Told(s))
  }

  ghost predicate Stage(s: Session) {
    match s.life
    case Booting => Loop(s) && Running(s) && s.outcome.Pending?
    case Live => Loop(s) && s.outcome.Pending?
    case Flushing(err) => Ended(s) && (!err <==> Clean(s.io.spool.accepted)) && s.outcome.Pending?
    case Over =>
      && Ended(s) && !s.outcome.Pending?
      && (s.outcome.Flushed? ==> Clean(s.io.spool.accepted) && s.io.spool.worker == EventSpool.Stopped(true))
  }

  ghost predicate Inv(s: Session) {
    Always(s) && Lanes(s.media) && Stage(s)
  }

  // ---------- what the handlers leave alone ----------

  /** No handler touches the mailboxes or the session's life, and input epochs never go back. */
  ghost predicate Kept(s: Session, t: Session) {
    && t.config == s.config && t.control == s.control && t.media == s.media
    && t.life == s.life && t.outcome == s.outcome && s.input.epoch <= t.input.epoch
  }

  lemma InterruptKept(s: Session)
    ensures Kept(s, Interrupt(s)) && Interrupt(s).input == s.input
  {
  }

  lemma PushKept(s: Session, g: Group)
    ensures Kept(s, Push(s, g)) && Push(s, g).input == s.input
  {
    hide Retained, Fits;
  }

  lemma LaunchKept(s: Session, text: string)
    ensures Kept(s, Launch(s, text)) && Launch(s, text).input == s.input
  {
    hide EmitEvent, Push;
    PushKept(s, [User(text)]);
  }

  lemma StartKept(s: Session, text: string)
    ensures Kept(s, StartResponseIf(s, text)) && StartResponseIf(s, text).input == s.input
  {
    hide Interrupt, Launch;
    var t := NoteSuperseded(s);
    InterruptKept(t);
    LaunchKept(Interrupt(t), text);
  }

  lemma NewInputKept(s: Session, speaking: bool, audio: seq<byte>)
    ensures Kept(s, NewInput(s, speaking, audio))
    ensures NewInput(s, speaking, audio).input == s.input.(epoch := Bump(s.input.epoch), speaking := speaking, audio := audio)
  {
    hide Interrupt;
    InterruptKept(s.(input := s.input.(epoch := Bump(s.input.epoch), speaking := speaking, audio := audio)));
  }

  lemma EndKept(s: Session, phase: Phase, kind: EventSpool.EventType)
    ensures Kept(s, EndSession(s, phase, kind)) && EndSession(s, phase, kind).input == s.input
  {
    hide Interrupt, EmitTerminal;
    InterruptKept(s.(phase := Draining));
  }

  lemma FailKept(s: Session)
    ensures Kept(s, FailSession(s)) && FailSession(s).input == s.input && !Running(FailSession(s))
  {
    hide EmitOutput;
  }

  lemma TextKept(s: Session, text: string)
    ensures Kept(s, HandleText(s, text))
    ensures HandleText(s, text).input == s.input.(epoch := Bump(s.input.epoch), speaking := false, audio := [])
  {
    hide NewInput, StartResponseIf, EmitOutput, EmitEvent;
    NewInputKept(s, false, []);
    var heard := NewInput(s, false, []);
    StartKept(Report(Say(heard, Transcript(heard.input.epoch, text, true)), EventSpool.SpeechFinal, heard.input.epoch), text);
  }

  lemma ClientKept(s: Session, m: ClientMessage)
    ensures Kept(s, HandleClient(s, m)) && HandleClient(s, m).input.heard == s.input.heard
    ensures var i := HandleClient(s, m).input;
            if m.body.Text? && s.phase.Active? && m.id !in LastN(s.seen, 1024) then
              i.epoch == Bump(s.input.epoch) && i.typed == s.input.typed[Bump(s.input.epoch) := m.body.text]
            else i.epoch == s.input.epoch && i.typed == s.input.typed
  {
    hide HandleText, EndSession, Interrupt, EmitEvent, EmitOutput;
    var t := s.(seen := s.seen + [m.id]);
    EndKept(t, Completed, EventSpool.SessionCompleted);
    InterruptKept(t);
    if m.body.Text? {
      TextKept(LogTyped(t, m.body.text), m.body.text);
    }
  }

  lemma AudioKept(s: Session, frame: seq<byte>)
    ensures Kept(s, HandleAudio(s, frame)) && HandleAudio(s, frame).input.typed == s.input.typed
    ensures var t := HandleAudio(s, frame);
            && t.input.epoch <= Bump(s.input.epoch)
            && (t.input.heard == s.input.heard || t.input.heard == s.input.heard + [Heard(t.input.epoch, frame)])
            && (Running(s) && Running(t) ==> t.input.heard == s.input.heard + if s.phase.Active? then [Heard(t.input.epoch, frame)] else [])
  {
    hide NewInput, EmitEvent, EmitOutput, FailSession;
    NewInputKept(s, true, s.input.audio);
    var ready := if s.input.speaking then s else Report(NewInput(s, true, s.input.audio), EventSpool.SpeechStarted, 0);
    FailKept(ready);
  }

  lemma SttKept(s: Session, epoch: nat, e: T.SttEvent)
    ensures Kept(s, HandleStt(s, epoch, e)) && HandleStt(s, epoch, e).input == s.input
  {
    hide StartResponseIf, EmitEvent, EmitOutput, FailSession;
    FailKept(s);
    if e.Segment? {
      StartKept(Report(Say(s, Transcript(epoch, e.text, e.isFinal)), EventSpool.SpeechFinal, epoch), e.text);
    }
  }

  lemma FinishKept(s: Session, c: Current)
    ensures Kept(s, FinishResponse(s, c)) && FinishResponse(s, c).input == s.input
  {
    hide EmitOutput, Push;
    if c.pendingAssistant.Some? {
      PushKept(s.(dialogue := s.dialogue.(current := None)), [Assistant(c.pendingAssistant.value)]);
    }
  }

  lemma ApplyKept(s: Session, c: Current, ev: P.PipelineEvent)
    ensures Kept(s, ApplyPipeline(s, c, ev)) && ApplyPipeline(s, c, ev).input == s.input
  {
    hide EmitOutput, EmitEvent, Push, FailSession, FinishResponse;
    FailKept(s);
    FinishKept(s, c);
    if ev.ToolCompleted? && c.pendingTool.Some? {
      PushKept(SetCurrent(s, c.(pendingTool := None)), P.PairOf(c.pendingTool.value, ev.output));
    }
  }

  lemma ControlKept(s: Session, c: Command)
    ensures Kept(s, HandleControl(s, c)) && HandleControl(s, c).input.heard == s.input.heard
    ensures (c.Client? ==> !c.message.body.Text?) ==>
              HandleControl(s, c).input.epoch == s.input.epoch && HandleControl(s, c).input.typed == s.input.typed
  {
    hide HandleClient, HandleStt, ApplyPipeline, EndSession;
    match c
    case Client(m) => ClientKept(s, m);
    case Stt(epoch, e) => SttKept(LogStt(s, epoch, e), epoch, e);
    case Pipeline(epoch, e) =>
      var t := LogPipeline(s, epoch, e);
      if t.dialogue.current.Some? {
        ApplyKept(t, t.dialogue.current.value, e);
      }
    case CompleteSession => EndKept(s, Completed, EventSpool.SessionCompleted);
    case CancelSession => EndKept(s, Canceled, EventSpool.SessionCanceled);
  }

  // ---------- steps that run a handler ----------

  lemma LoopGoes(s: Session, script: seq<Choice>)
    requires Loop(s) && Running(s)
    ensures Good(WithScript(s, script)) && Running(WithScript(s, script))
  {
    hide See, Starts, EventSpool.Terminals, EventSpool.Inv, Tasks, SttTasks, AudioLogs, InputLogs, Sound, Buffer, Order, Clean, Told;
  }

  lemma GoodDequeued(s: Session)
    requires Good(s) && s.control != [] && !s.control[0].Pipeline? && !s.control[0].Stt?
    ensures Good(s.(control := s.control[1..]))
  {
    hide See, Starts, EventSpool.Terminals, EventSpool.Inv, Tasks, SttTasks, AudioLogs, InputLogs, Sound, Buffer, Order;
    TasksDequeue(s.dialogue, s.control);
    SttDequeue(s.input, s.control);
  }

  /** Whatever command is taken off the control lane. */
  lemma ControlLoop(s: Session)
    requires Good(s) && Running(s) && s.input.epoch < U64_MAX && s.control != []
    ensures Loop(HandleControl(s.(control := s.control[1..]), s.control[0]))
  {
    hide Mid, Loop, HandleClient, HandleStt, HandlePipeline, EndSession, LogStt, LogPipeline, See, Fresh, Concluding;
    var t := s.(control := s.control[1..]);
    match s.control[0]
    case Stt(epoch, e) =>
      SttTaken(s);
      SttLoop(LogStt(t, epoch, e), epoch, e);
    case Pipeline(_, _) => PipelineLoop(s);
    case Client(m) =>
      GoodDequeued(s);
      ClientLoop(t, m);
    case CompleteSession =>
      GoodDequeued(s);
      MidDrops(t);
      EndLoop(t, Completed, EventSpool.SessionCompleted);
    case CancelSession =>
      GoodDequeued(s);
      MidDrops(t);
      EndLoop(t, Canceled, EventSpool.SessionCanceled);
  }

  lemma GoodLanes(s: Session, media: seq<Media>)
    requires Good(s)
    ensures Good(s.(media := media))
  {
    hide See, Starts, EventSpool.Terminals, EventSpool.Inv, Tasks, SttTasks, AudioLogs, InputLogs, Sound, Buffer, Order;
  }

  lemma MediaLoop(s: Session)
    requires Good(s) && Running(s) && s.input.epoch < U64_MAX && s.media != [] && Lanes(s.media)
    ensures Loop(HandleMedia(s.(media := s.media[1..]), s.media[0]))
    ensures Kept(s.(media := s.media[1..]), HandleMedia(s.(media := s.media[1..]), s.media[0])) && Lanes(s.media[1..])
  {
    hide Mid, Loop, HandleClient, HandleAudio;
    var t := s.(media := s.media[1..]);
    GoodLanes(s, t.media);
    assert s.media[0] in s.media;
    assert forall m :: m in t.media ==> m in s.media;
    match s.media[0]
    case Frame(bytes) =>
      AudioLoop(t, bytes);
      AudioKept(t, bytes);
    case Ordered(m) =>
      ClientLoop(t, m);
      ClientKept(t, m);
  }

  /** A live session whose handler left it in its loop invariant. */
  lemma LiveInv(s: Session)
    requires Loop(s) && s.life.Live? && s.outcome.Pending? && Lanes(s.media)
    ensures Inv(s)
  {
    hide Always, Clean, Told, Going;
  }

  lemma BootInv(s: Session, script: seq<Choice>)
    requires Inv(s)
    ensures Inv(Next(s, Boot(script)))
  {
    hide Always, Loop, Clean, Told, GoingBut, EmitEvent, EmitOutput, Ended, Lanes, Mid;
    if s.life.Booting? {
      LoopGoes(s, script);
      var t := WithScript(s.(life := Live), script);
      GoodLife(WithScript(s, script), Live);
      BootGood(t);
      LiveInv(Next(s, Boot(script)));
    }
  }

  lemma GoodLife(s: Session, life: Life)
    requires Good(s)
    ensures Good(s.(life := life))
  {
    hide See, Starts, EventSpool.Terminals, EventSpool.Inv, Tasks, SttTasks, AudioLogs, InputLogs, Sound, Buffer, Order;
  }

  lemma BootGood(s: Session)
    requires Good(s) && Running(s)
    ensures Loop(Say(Report(s, EventSpool.SessionReady, 0), ClientView.SessionReady))
  {
    hide Mid, Loop, EmitEvent, EmitOutput, See, StartsOf;
    var talking := s.dialogue.current.Some?;
    ReportMid(s, EventSpool.SessionReady, 0, talking);
    SayMid(Report(s, EventSpool.SessionReady, 0), ClientView.SessionReady, talking);
    GoodIsLoop(Say(Report(s, EventSpool.SessionReady, 0), ClientView.SessionReady));
  }

  lemma TakeInv(s: Session, step: Step)
    requires Inv(s) && s.input.epoch < U64_MAX && (step.TakeControl? || step.TakeMedia?)
    ensures Inv(Next(s, step))
  {
    hide Always, Loop, Ended, Clean, Lanes, Good, HandleControl, HandleMedia;
    var t := WithScript(s, step.script);
    if step.TakeControl? && s.life.Live? && Running(s) && s.control != [] {
      LoopGoes(s, step.script);
      ControlLoop(t);
      ControlKept(t.(control := s.control[1..]), s.control[0]);
      LiveInv(Next(s, step));
    } else if step.TakeMedia? && s.life.Live? && Running(s) && s.media != [] {
      LoopGoes(s, step.script);
      MediaLoop(t);
      LiveInv(Next(s, step));
    }
  }

  lemma OverrunLoop(s: Session)
    requires Good(s) && Running(s)
    ensures var t := FailSession(DropAudio(Report(s, EventSpool.AudioOverrun, 0)));
            Loop(t) && Kept(s, t)
  {
    hide Mid, Loop, EmitEvent, FailSession, Always, GoingBut, See;
    var talking := s.dialogue.current.Some?;
    ReportMid(s, EventSpool.AudioOverrun, 0, talking);
    var t := Report(s, EventSpool.AudioOverrun, 0);
    DropKept(t, talking);
    FailAlways(DropAudio(t));
    FailKept(DropAudio(t));
  }

  lemma DropKept(s: Session, talking: bool)
    requires Mid(s, talking)
    ensures var t := DropAudio(s);
            Always(t) && TermsOf(t.io) == 0 && t.io.spool.open && !t.terminalError
  {
    hide See, Starts, EventSpool.Terminals, EventSpool.Inv, Tasks, SttTasks, AudioLogs, InputLogs, Sound, Buffer, Order;
    var i := s.input.(audio := []);
    SttFrame(s.input, i, s.control);
    InputLogsFrame(s.input, i, s.dialogue.origins, s.dialogue.epoch, ViewOf(s).finals);
    AudioLogsDropped(s.input, s.config.maxBufferedAudio);
  }

  lemma AudioLogsDropped(i: Listening, budget: nat)
    requires AudioLogs(i, budget)
    ensures AudioLogs(i.(audio := []), budget)
  {
    forall e | e in i.tasks
      ensures Faithful(i.(audio := []), e, budget)
    {
      assert Faithful(i, e, budget);
    }
  }

  lemma StopInv(s: Session, step: Step)
    requires Inv(s) && (step.Deadline? || step.ForceCancel? || step.MediaOverrun?)
    ensures Inv(Next(s, step))
  {
    hide Always, Loop, Ended, Clean, Lanes, Mid, EndSession, FailSession, DropAudio, EmitEvent;
    if s.life.Live? && Running(s) {
      var t := WithScript(s, step.script);
      LoopGoes(s, step.script);
      MidDrops(t);
      EndLoop(t, Completed, EventSpool.SessionCompleted);
      EndKept(t, Completed, EventSpool.SessionCompleted);
      FailLoop(t);
      FailKept(t);
      OverrunLoop(t);
      if !step.MediaOverrun? || s.overrun {
        LiveInv(Next(s, step));
      }
    }
  }

  // ---------- steps outside the actor ----------

  /** The mailboxes, the tasks and the delivery worker move; the actor does not. */
  ghost predicate Aside(s: Session, t: Session) {
    && t == s.(control := t.control, media := t.media, overrun := t.overrun,
               io := s.io.(spool := t.io.spool),
               dialogue := s.dialogue.(tasks := t.dialogue.tasks), input := s.input.(tasks := t.input.tasks))
    && t.io.spool.accepted == s.io.spool.accepted && t.io.spool.open == s.io.spool.open
    && (s.io.spool.worker.Stopped? ==> t.io.spool.worker == s.io.spool.worker)
    && t.dialogue.tasks.Keys == s.dialogue.tasks.Keys && t.input.tasks.Keys == s.input.tasks.Keys
    && (forall e :: e in s.dialogue.tasks ==> t.dialogue.tasks[e].initial == s.dialogue.tasks[e].initial)
  }

  lemma SoundAside(d: Dialogue, d': Dialogue, v: View, starts: seq<nat>, limits: Limits)
    requires Sound(d, v, starts, limits) && d' == d.(tasks := d'.tasks) && d'.tasks.Keys == d.tasks.Keys
    requires forall e :: e in d.tasks ==> d'.tasks[e].initial == d.tasks[e].initial
    ensures Sound(d', v, starts, limits)
  {
    hide P.Follow, P.ToolPairs, AssistantTexts, Retained, PendingAgrees;
    StoryAside(d, d', v, starts);
    hide Story, Answered;
  }

  lemma StoryAside(d: Dialogue, d': Dialogue, v: View, starts: seq<nat>)
    requires Story(d, v, starts) && d' == d.(tasks := d'.tasks)
    ensures Story(d', v, starts)
  {
    hide P.Follow, AssistantTexts, Epochs, Texts, Upto;
    forall i | 0 <= i < |d'.answers|
      ensures Answered(d', d'.answers[i])
    {
      assert Answered(d, d.answers[i]);
    }
  }

  lemma LoopAside(s: Session, t: Session)
    requires Loop(s) && Always(t) && Aside(s, t)
    ensures Loop(t)
  {
    hide Always, Sound, Story, See, Starts, EventSpool.Terminals;
    if !Faulted(s) && !s.terminalError {
      if Running(s) {
        SoundAside(s.dialogue, t.dialogue, ViewOf(s), StartsOf(s.io), s.config.history);
      } else {
        StoryAside(s.dialogue, t.dialogue, ViewOf(s), StartsOf(s.io));
      }
    }
  }

  lemma EndedAside(s: Session, t: Session)
    requires Ended(s) && Aside(s, t)
    ensures Ended(t)
  {
    hide Story, See, Starts, EventSpool.Terminals, TerminalLast, Clean;
    if Clean(s.io.spool.accepted) {
      StoryAside(s.dialogue, t.dialogue, ViewOf(s), StartsOf(s.io));
    }
  }

  lemma AsideInv(s: Session, t: Session)
    requires Inv(s) && Always(t) && Lanes(t.media) && Aside(s, t)
    ensures Inv(t)
  {
    hide Always, Loop, Ended, Clean, Lanes;
    match s.life
    case Booting => LoopAside(s, t);
    case Live => LoopAside(s, t);
    case _ => EndedAside(s, t);
  }

  lemma EnqueueInv(s: Session, c: Command)
    requires Inv(s) && !c.Pipeline? && !c.Stt?
    ensures Inv(EnqueueControl(s, c))
  {
    hide See, Starts, EventSpool.Terminals, EventSpool.Inv, Tasks, SttTasks, AudioLogs, InputLogs, Stage, Lanes;
    TasksEnqueue(s.dialogue, s.control, c);
    SttEnqueue(s.input, s.control, c);
    AsideInv(s, EnqueueControl(s, c));
  }

  lemma ArriveInv(s: Session, m: Media)
    requires Inv(s) && (m.Frame? ==> |m.bytes| % 2 == 0)
    ensures Inv(EnqueueMedia(s, m))
  {
    hide See, Starts, EventSpool.Terminals, EventSpool.Inv, Tasks, SttTasks, AudioLogs, InputLogs, Stage;
    AsideInv(s, EnqueueMedia(s, m));
  }

  lemma RespondInv(s: Session, e: nat, answer: P.Input)
    requires Inv(s)
    ensures Inv(StepResponseTask(s, e, answer))
  {
    hide See, Starts, EventSpool.Terminals, EventSpool.Inv, Tasks, SttTasks, AudioLogs, InputLogs, Stage, Lanes, P.Step;
    if e in s.dialogue.tasks && |s.control| < s.config.controlCapacity {
      TasksStep(s.dialogue, s.control, e, s.config.pipeline, answer);
      var t, u := s.dialogue.tasks[e], P.Step(s.dialogue.tasks[e], s.config.pipeline, answer);
      if |u.emitted| > |t.emitted| {
        SttEnqueue(s.input, s.control, Pipeline(e, u.emitted[|t.emitted|]));
      } else {
        assert s.control + [] == s.control;
      }
      AsideInv(s, StepResponseTask(s, e, answer));
    }
  }

  lemma AudioLogsStepped(i: Listening, e: nat, u: T.Task, budget: nat)
    requires AudioLogs(i, budget) && e in i.tasks && u.audio == i.tasks[e].audio
    ensures AudioLogs(i.(tasks := i.tasks[e := u]), budget)
  {
    var i' := i.(tasks := i.tasks[e := u]);
    forall k | k in i'.tasks
      ensures Faithful(i', k, budget)
    {
      assert Faithful(i, k, budget);
    }
    assert i'.tasks.Keys == i.tasks.Keys;
  }

  lemma ListenInv(s: Session, e: nat, hears: T.Input)
    requires Inv(s)
    ensures Inv(StepListenTask(s, e, hears))
  {
    hide See, Starts, EventSpool.Terminals, EventSpool.Inv, Tasks, SttTasks, AudioLogs, InputLogs, Stage, Lanes, T.Step;
    if e in s.input.tasks && |s.control| < s.config.controlCapacity {
      SttStep(s.input, s.control, e, hears);
      var t, u := s.input.tasks[e], T.Step(s.input.tasks[e], hears);
      AudioLogsStepped(s.input, e, u, s.config.maxBufferedAudio);
      InputLogsFrame(s.input, s.input.(tasks := s.input.tasks[e := u]), s.dialogue.origins, s.dialogue.epoch, ViewOf(s).finals);
      if |u.emitted| > |t.emitted| {
        TasksEnqueue(s.dialogue, s.control, Stt(e, u.emitted[|t.emitted|]));
      } else {
        assert s.control + [] == s.control;
      }
      AsideInv(s, StepListenTask(s, e, hears));
    }
  }

  lemma StoppedStays(s: EventSpool.Spool, a: EventSpool.Action)
    requires s.worker.Stopped?
    ensures EventSpool.WorkerStep(s, a).worker == s.worker
  {
  }

  lemma DeliverInv(s: Session, a: EventSpool.Action)
    requires Inv(s)
    ensures Inv(Next(s, Deliver(a)))
  {
    hide See, Starts, EventSpool.Terminals, EventSpool.Inv, Tasks, SttTasks, AudioLogs, InputLogs, Stage, Lanes, EventSpool.WorkerStep;
    EventSpool.WorkerEffect(s.io.spool, a);
    if s.io.spool.worker.Stopped? {
      StoppedStays(s.io.spool, a);
    }
    AsideInv(s, Next(s, Deliver(a)));
  }

  // ---------- the end ----------

  lemma {:induction false} NoTerminals(accepted: seq<EventSpool.Sealed>)
    requires EventSpool.Terminals(accepted) == 0
    ensures forall i :: 0 <= i < |accepted| ==> !EventSpool.IsTerminal(accepted[i].event)
  {
    if accepted != [] {
      NoTerminals(accepted[..|accepted| - 1]);
    }
  }

  lemma CleanIsLast(accepted: seq<EventSpool.Sealed>)
    requires Clean(accepted)
    ensures TerminalLast(accepted)
  {
    var prior := accepted[..|accepted| - 1];
    NoTerminals(prior);
    forall i | 0 <= i < |accepted| - 1
      ensures !EventSpool.IsTerminal(accepted[i].event)
    {
      assert prior[i] == accepted[i];
    }
  }

  lemma LoopVerdict(s: Session)
    requires Loop(s)
    ensures Ended(s)
  {
    hide Always, Going, Told, EventSpool.Terminals;
    if TermsOf(s.io) == 0 {
      NoTerminals(s.io.spool.accepted);
    } else {
      CleanIsLast(s.io.spool.accepted);
    }
  }

  lemma FailureRecorded(accepted: seq<EventSpool.Sealed>, grown: seq<EventSpool.Sealed>, n: nat)
    requires EventSpool.Terminals(accepted) == 0
    requires grown == accepted || grown == accepted + [EventSpool.Sealed(EventSpool.Event(EventSpool.SessionFailed, 0), n)]
    ensures TerminalLast(grown) && !Clean(grown)
  {
    NoTerminals(accepted);
    hide EventSpool.Terminals;
  }

  lemma TeardownSpool(spool: EventSpool.Spool, err: bool, w: EventSpool.Interleaving)
    requires EventSpool.Inv(spool) && spool.producer.Idle? && spool.open
    ensures var failed := EventSpool.Event(EventSpool.SessionFailed, 0);
            var recorded := if err then EventSpool.PublishTerminal(spool, failed, w) else spool;
            var closed := EventSpool.ProducerStep(recorded, EventSpool.Close);
            && EventSpool.Inv(closed) && closed.producer.Idle?
            && (closed.accepted == spool.accepted || (err && closed.accepted == spool.accepted + [EventSpool.Sealed(failed, |spool.accepted| + 1)]))
  {
    hide EventSpool.Inv, EventSpool.PublishTerminal;
    var failed := EventSpool.Event(EventSpool.SessionFailed, 0);
    EventSpool.PublishTerminalEffect(spool, failed, w);
    var recorded := if err then EventSpool.PublishTerminal(spool, failed, w) else spool;
    EventSpool.ProducerEffect(recorded, EventSpool.Close);
    assert spool.accepted + [] == spool.accepted;
  }

  lemma TeardownInv(s: Session)
    requires Loop(s) && !Running(s) && Lanes(s.media) && s.outcome.Pending?
    ensures Inv(TeardownSession(s))
  {
    hide See, Starts, EventSpool.Terminals, EventSpool.Inv, Tasks, SttTasks, AudioLogs, InputLogs, Story, Lanes, Clean, TerminalLast, Going,
         EventSpool.PublishTerminal, EventSpool.ProducerStep;
    var err := s.io.fault.Some? || s.terminalError;
    TeardownSpool(s.io.spool, err, Now(s.io).work);
    var t := TeardownSession(s);
    TasksFrame(s.dialogue, t.dialogue, s.control);
    if err {
      FailureRecorded(s.io.spool.accepted, t.io.spool.accepted, |s.io.spool.accepted| + 1);
    } else {
      CleanIsLast(s.io.spool.accepted);
    }
  }

  lemma TeardownStep(s: Session, script: seq<Choice>)
    requires Inv(s)
    ensures Inv(Next(s, Teardown(script)))
  {
    hide Always, Loop, Ended, Clean, Lanes, TeardownSession;
    if s.life.Live? && !Running(s) {
      LoopScript(s, script);
      TeardownInv(WithScript(s, script));
    }
  }

  lemma LoopScript(s: Session, script: seq<Choice>)
    requires Loop(s)
    ensures Loop(WithScript(s, script))
  {
    hide See, Starts, EventSpool.Terminals, EventSpool.Inv, Tasks, SttTasks, AudioLogs, InputLogs, Sound, Buffer, Order, Clean, Story;
  }

  lemma LeaveInv(s: Session, outcome: Outcome)
    requires Inv(s) && !s.life.Over? && !outcome.Pending?
    requires outcome.Flushed? ==> s.life == Flushing(false) && s.io.spool.worker == EventSpool.Stopped(true)
    ensures Inv(s.(life := Over, outcome := outcome))
  {
    hide See, Starts, EventSpool.Terminals, EventSpool.Inv, Tasks, SttTasks, AudioLogs, InputLogs, Story, Lanes, Loop, Clean, TerminalLast;
    if s.life.Booting? || s.life.Live? {
      LoopVerdict(s);
    }
  }

  // ---------- every step ----------

  lemma NextInv(s: Session, step: Step)
    requires Inv(s) && s.input.epoch < U64_MAX
    ensures Inv(Next(s, step))
  {
    hide Inv, StepResponseTask, StepListenTask, EnqueueControl, EnqueueMedia;
    match step
    case Boot(script) => BootInv(s, script);
    case Arrive(m) =>
      if NeedsOrder(m.body) {
        ArriveInv(s, Ordered(m));
      } else {
        EnqueueInv(s, Client(m));
      }
    case ArriveFrame(frame) =>
      if |frame| % 2 == 0 {
        ArriveInv(s, Frame(frame));
      }
    case Operate(cancel) => EnqueueInv(s, if cancel then CancelSession else CompleteSession);
    case TakeControl(_) => TakeInv(s, step);
    case TakeMedia(_) => TakeInv(s, step);
    case Deadline(_) => StopInv(s, step);
    case ForceCancel(_) => StopInv(s, step);
    case MediaOverrun(_) => StopInv(s, step);
    case RespondTask(e, answer) => RespondInv(s, e, answer);
    case ListenTask(e, hears) => ListenInv(s, e, hears);
    case Deliver(a) => DeliverInv(s, a);
    case Teardown(script) => TeardownStep(s, script);
    case Join =>
      if s.life.Flushing? && s.io.spool.worker.Stopped? {
        LeaveInv(s, if !s.life.err && s.io.spool.worker.delivered then Flushed else Broken);
      }
    case Abort =>
      if !s.life.Over? {
        LeaveInv(s, Broken);
      }
  }

  /** Input epochs never go back. */
  lemma NextEpoch(s: Session, step: Step)
    ensures Next(s, step).input.epoch >= s.input.epoch
  {
    hide HandleControl, HandleMedia, EndSession, FailSession, EmitEvent, EmitOutput, EventSpool.WorkerStep, EventSpool.PublishTerminal, EventSpool.ProducerStep, P.Step, T.Step;
    match step
    case TakeControl(script) =>
      if s.control != [] {
        ControlKept(WithScript(s, script).(control := s.control[1..]), s.control[0]);
      }
    case TakeMedia(script) =>
      if s.media != [] {
        MediaKept(WithScript(s, script).(media := s.media[1..]), s.media[0]);
      }
    case Deadline(script) =>
      FailKept(WithScript(s, script));
      EndKept(WithScript(s, script), Completed, EventSpool.SessionCompleted);
    case ForceCancel(script) => FailKept(WithScript(s, script));
    case MediaOverrun(script) => FailKept(DropAudio(Report(WithScript(s, script), EventSpool.AudioOverrun, 0)));
    case _ =>
  }

  lemma MediaKept(s: Session, m: Media)
    ensures Kept(s, HandleMedia(s, m))
  {
    hide HandleClient, HandleAudio;
    match m
    case Frame(bytes) => AudioKept(s, bytes);
    case Ordered(message) => ClientKept(s, message);
  }

  lemma BeginInv(config: Config)
    requires EventSpool.ValidConfig(config.spool)
    ensures Inv(Begin(config))
  {
    EventSpool.StartInv(config.spool);
    hide EventSpool.Inv;
    assert See([]) == BLANK && Starts([]) == [] && EventSpool.Terminals([]) == 0 && AssistantTexts([]) == [];
    assert Retained([], config.history) == [];
  }

  lemma {:induction false} RunEpoch(s: Session, steps: seq<Step>)
    ensures Run(s, steps).input.epoch >= s.input.epoch
    decreases |steps|
  {
    if steps != [] {
      hide Next;
      NextEpoch(s, steps[0]);
      RunEpoch(Next(s, steps[0]), steps[1..]);
    }
  }

  /** The invariant holds after any run in which the input epoch counter has not saturated. */
  lemma {:induction false} RunInv(s: Session, steps: seq<Step>)
    requires Inv(s) && Run(s, steps).input.epoch < U64_MAX
    ensures Inv(Run(s, steps))
    decreases |steps|
  {
    if steps != [] {
      hide Inv, Next;
      RunEpoch(s, steps);
      NextInv(s, steps[0]);
      RunInv(Next(s, steps[0]), steps[1..]);
    }
  }
}
