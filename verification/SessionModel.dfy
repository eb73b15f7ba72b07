/** The session actor as a value: its state, its handlers, and the whole system it lives in
    (mailboxes, response and transcription tasks, event spool, delivery worker). Everything the
    environment decides is an input of a step: which ready branch fires, what providers answer,
    whether the transport takes an output, and how the delivery worker runs in between. */
module SessionModel {
  import opened Common
  import opened History
  import opened ClientView
  import EventSpool
  import P = ResponsePipeline
  import T = Transcription

  datatype Config = Config(
    history: Limits,
    pipeline: P.Budgets,
    spool: EventSpool.Config,
    maxFrame: nat,
    maxBufferedAudio: nat,
    maxSegment: nat,
    controlCapacity: nat,
    mediaCapacity: nat)

  datatype Phase = Ready | Active | Draining | Completed | Canceled | Failed

  /** Why the actor's loop returned an error. The last five come from branches that guard
      against an ill-behaved response task. */
  datatype Fault =
    | OutputRefused | EventRefused | HistoryBound
    | ToolsOverlap | ToolUnmatched | ToolMismatched | ToolUnfinished | NoAssistantText

  // ---------- emissions ----------

  /** The environment's part in one emission. */
  datatype Choice = Choice(outputOk: bool, work: EventSpool.Interleaving)

  datatype Io = Io(outputs: seq<Output>, spool: EventSpool.Spool, script: seq<Choice>, fault: Option<Fault>)

  function Now(io: Io): Choice {
    if io.script == [] then Choice(true, EventSpool.Interleaving([], [], [])) else io.script[0]
  }

  function Later(io: Io): seq<Choice> {
    if io.script == [] then [] else io.script[1..]
  }

  function Raise(io: Io, f: Fault): Io {
    if io.fault.Some? then io else io.(fault := Some(f))
  }

  /** `emit_output`: a full or closed transport queue is an error. */
  function EmitOutput(io: Io, o: Output): Io {
    if io.fault.Some? then io
    else if Now(io).outputOk then io.(outputs := io.outputs + [o], script := Later(io))
    else io.(fault := Some(OutputRefused), script := Later(io))
  }

  function Published(io: Io, spool: EventSpool.Spool): Io {
    io.(spool := spool, script := Later(io),
        fault := if EventSpool.Accepts(io.spool, spool) then None else Some(EventRefused))
  }

  /** `emit_event`: a refused publish is an error. */
  function EmitEvent(io: Io, e: EventSpool.Event): Io {
    if io.fault.Some? then io else Published(io, EventSpool.TryPublish(io.spool, e, Now(io).work))
  }

  function EmitTerminal(io: Io, e: EventSpool.Event): Io {
    if io.fault.Some? then io else Published(io, EventSpool.PublishTerminal(io.spool, e, Now(io).work))
  }

  // ---------- state ----------

  datatype Current = Current(epoch: nat, pendingAssistant: Option<string>, pendingTool: Option<P.Call>)

  /** What a response began from: everything pushed to the history before it, and its user text. */
  datatype Turn = Turn(before: seq<Group>, text: string)

  datatype Answer = Answer(epoch: nat, text: string)

  datatype Dialogue = Dialogue(
    current: Option<Current>,
    epoch: nat,
    history: seq<Group>,                           // the retained groups
    tasks: map<nat, P.Task>,                       // every response task ever spawned, by epoch
    // logs
    origins: seq<nat>,                             // the input epoch of each response
    pushed: seq<Group>,                            // every group ever pushed
    turns: map<nat, Turn>,
    delivered: map<nat, seq<P.PipelineEvent>>,     // pipeline events taken off the queue
    answers: seq<Answer>,                          // assistant texts pushed
    superseded: nat)                               // responses interrupted by the start of another

  datatype Heard = Heard(epoch: nat, frame: seq<byte>)

  datatype Commit = Commit(epoch: nat, audio: seq<byte>)

  datatype Listening = Listening(
    epoch: nat,
    audio: seq<byte>,
    speaking: bool,
    tasks: map<nat, T.Task>,
    // logs
    heard: seq<Heard>,                             // every buffered frame
    commits: seq<Commit>,
    delivered: map<nat, seq<T.SttEvent>>,
    typed: map<nat, string>)                       // the text of each typed turn, as it arrived

  datatype ClientBody = Start | Text(text: string) | CommitInput | CancelResponse(epoch: nat) | Ack | End

  datatype ClientMessage = ClientMessage(id: string, body: ClientBody)

  datatype Command =
    | Client(message: ClientMessage)
    | Stt(epoch: nat, heard: T.SttEvent)
    | Pipeline(epoch: nat, event: P.PipelineEvent)
    | CompleteSession
    | CancelSession

  datatype Media = Frame(bytes: seq<byte>) | Ordered(message: ClientMessage)

  datatype Outcome = Pending | Flushed | Broken

  datatype Life = Booting | Live | Flushing(err: bool) | Over

  datatype Session = Session(
    config: Config,
    phase: Phase,
    terminalError: bool,
    io: Io,
    dialogue: Dialogue,
    input: Listening,
    seen: seq<string>,
    control: seq<Command>,
    media: seq<Media>,
    overrun: bool,
    life: Life,
    outcome: Outcome)

  function Begin(config: Config): Session {
    Session(config, Ready, false, Io([], EventSpool.Start(config.spool), [], None),
            Dialogue(None, 0, [], map[], [], [], map[], map[], [], 0),
            Listening(0, [], false, map[], [], [], map[], map[]),
            [], [], [], false, Booting, Pending)
  }

  /** The loop goes round again: no error is propagating and no terminal phase was reached. */
  predicate Running(s: Session) {
    s.io.fault.None? && (s.phase.Ready? || s.phase.Active?)
  }

  function Bump(n: nat): nat {
    if n >= U64_MAX then n else n + 1
  }

  function Say(s: Session, o: Output): Session {
    s.(io := EmitOutput(s.io, o))
  }

  function Report(s: Session, kind: EventSpool.EventType, epoch: nat): Session {
    s.(io := EmitEvent(s.io, EventSpool.Event(kind, epoch)))
  }

  predicate Faulted(s: Session) {
    s.io.fault.Some?
  }

  // ---------- responses ----------

  /** `interrupt_current`. */
  function Interrupt(s: Session): Session {
    if Faulted(s) || s.dialogue.current.None? then s
    else
      var e := s.dialogue.current.value.epoch;
      Report(Say(s.(dialogue := s.dialogue.(current := None)), ResponseCompleted(e, true)), EventSpool.SessionInterrupted, e)
  }

  /** `push_history_group`, by what it leaves in the history. */
  function Push(s: Session, g: Group): Session {
    if Faulted(s) then s
    else if !Fits(g, s.config.history) then s.(io := Raise(s.io, HistoryBound))
    else s.(dialogue := s.dialogue.(pushed := s.dialogue.pushed + [g],
                                    history := Retained(s.dialogue.history + [g], s.config.history)))
  }

  /** `start_response`. */
  function StartResponse(s: Session, text: string): Session {
    Launch(Interrupt(NoteSuperseded(s)), text)
  }

  function NoteSuperseded(s: Session): Session {
    if s.dialogue.current.None? then s else s.(dialogue := s.dialogue.(superseded := s.dialogue.superseded + 1))
  }

  function Launch(s: Session, text: string): Session {
    var pushed := Push(s, [User(text)]);
    if Faulted(pushed) then pushed
    else Announce(pushed, Turn(s.dialogue.pushed, text), Concat(s.dialogue.history) + [User(text)])
  }

  /** Count the response, announce it, and spawn its task with the first request. */
  function Announce(s: Session, turn: Turn, request: seq<Message>): Session {
    var d := s.dialogue;
    var e := Bump(d.epoch);
    var counted := s.(dialogue := d.(epoch := e, origins := d.origins + [s.input.epoch]));
    var announced := Report(counted, EventSpool.ReasoningStarted, e);
    if Faulted(announced) then announced
    else announced.(dialogue := counted.dialogue.(
      current := Some(Current(e, None, None)),
      tasks := d.tasks[e := P.Spawn(request)],
      turns := d.turns[e := turn],
      delivered := d.delivered[e := []]))
  }

  function SetCurrent(s: Session, c: Current): Session {
    if Faulted(s) then s else s.(dialogue := s.dialogue.(current := Some(c)))
  }

  /** `handle_pipeline` for an event of the current response. */
  function ApplyPipeline(s: Session, c: Current, event: P.PipelineEvent): Session {
    match event
    case ReasoningDelta(text) => Report(Say(s, Delta(c.epoch, text)), EventSpool.ReasoningDelta, c.epoch)
    case ToolStarted(call) =>
      if c.pendingTool.Some? then s.(io := Raise(s.io, ToolsOverlap))
      else Report(SetCurrent(s, c.(pendingTool := Some(call))), EventSpool.ToolStarted, c.epoch)
    case ToolCompleted(callId, name, output, _) =>
      if c.pendingTool.None? then s.(io := Raise(s.io, ToolUnmatched))
      else if c.pendingTool.value.callId != callId || c.pendingTool.value.name != name then
        SetCurrent(s, c.(pendingTool := None)).(io := Raise(s.io, ToolMismatched))
      else
        Report(Push(SetCurrent(s, c.(pendingTool := None)), P.PairOf(c.pendingTool.value, output)), EventSpool.ToolCompleted, c.epoch)
    case ToolFailed(callId, name) =>
      if c.pendingTool.None? then s.(io := Raise(s.io, ToolUnmatched))
      else if c.pendingTool.value.callId != callId || c.pendingTool.value.name != name then
        SetCurrent(s, c.(pendingTool := None)).(io := Raise(s.io, ToolMismatched))
      else Report(SetCurrent(s, c.(pendingTool := None)), EventSpool.ToolFailed, c.epoch)
    case ReasoningCompleted(text) =>
      Report(SetCurrent(s, c.(pendingAssistant := Some(text))), EventSpool.ReasoningCompleted, c.epoch)
    case TtsStarted => Report(s, EventSpool.TtsStarted, c.epoch)
    case Audio(sequence, bytes) =>
      Say(if sequence == 0 then Report(s, EventSpool.TtsFirstAudio, c.epoch) else s, Voice(c.epoch, sequence, bytes))
    case TtsCompleted => Report(s, EventSpool.TtsCompleted, c.epoch)
    case Completed => FinishResponse(s, c)
    case Failed => FailSession(s)
  }

  function FinishResponse(s: Session, c: Current): Session {
    var taken := s.(dialogue := s.dialogue.(current := None));
    if c.pendingTool.Some? then taken.(io := Raise(s.io, ToolUnfinished))
    else if c.pendingAssistant.None? then taken.(io := Raise(s.io, NoAssistantText))
    else
      var pushed := Push(taken, [Assistant(c.pendingAssistant.value)]);
      if Faulted(pushed) then pushed
      else Say(pushed.(dialogue := pushed.dialogue.(answers := pushed.dialogue.answers + [Answer(c.epoch, c.pendingAssistant.value)])),
               ResponseCompleted(c.epoch, false))
  }

  /** `handle_pipeline`: stale events are dropped. */
  function HandlePipeline(s: Session, epoch: nat, event: P.PipelineEvent): Session {
    if s.dialogue.current.Some? && s.dialogue.current.value.epoch == epoch then
      ApplyPipeline(s, s.dialogue.current.value, event)
    else s
  }

  // ---------- ending ----------

  predicate TerminalPhase(p: Phase) {
    p.Completed? || p.Canceled? || p.Failed?
  }

  /** `fail_session`. */
  function FailSession(s: Session): Session {
    if Faulted(s) || TerminalPhase(s.phase) then s
    else
      var told := Say(s.(phase := Failed, dialogue := s.dialogue.(current := None)), ErrorNotice);
      if Faulted(told) then told else told.(terminalError := true)
  }

  /** `complete` and `cancel_session`, which differ in the phase and the event. */
  function EndSession(s: Session, phase: Phase, kind: EventSpool.EventType): Session {
    if Faulted(s) || TerminalPhase(s.phase) then s
    else
      var interrupted := Interrupt(s.(phase := Draining));
      if Faulted(interrupted) then interrupted
      else interrupted.(phase := phase, io := EmitTerminal(interrupted.io, EventSpool.Event(kind, 0)))
  }

  // ---------- inputs ----------

  /** `begin_input` followed by the barge-in interrupt. */
  function NewInput(s: Session, speaking: bool, audio: seq<byte>): Session {
    Interrupt(s.(input := s.input.(epoch := Bump(s.input.epoch), speaking := speaking, audio := audio)))
  }

  function HandleText(s: Session, text: string): Session {
    var heard := NewInput(s, false, []);
    var told := Say(heard, Transcript(heard.input.epoch, text, true));
    StartResponseIf(Report(told, EventSpool.SpeechFinal, heard.input.epoch), text)
  }

  function StartResponseIf(s: Session, text: string): Session {
    if Faulted(s) then s else StartResponse(s, text)
  }

  /** `commit_audio`. */
  function CommitAudio(s: Session): Session {
    var i := s.input;
    s.(input := i.(speaking := false, audio := [],
                   commits := i.commits + [Commit(i.epoch, i.audio)],
                   tasks := i.tasks[i.epoch := T.Spawn(i.audio)],
                   delivered := i.delivered[i.epoch := []]))
  }

  /** `handle_audio`. */
  function HandleAudio(s: Session, frame: seq<byte>): Session {
    if !s.phase.Active? then Say(s, ErrorNotice)
    else
      var ready := if s.input.speaking then s else Report(NewInput(s, true, s.input.audio), EventSpool.SpeechStarted, 0);
      if Faulted(ready) then ready
      else if |ready.input.audio| + |frame| > s.config.maxBufferedAudio then FailSession(ready)
      else ready.(input := ready.input.(audio := ready.input.audio + frame,
                                        heard := ready.input.heard + [Heard(ready.input.epoch, frame)]))
  }

  /** `handle_client` on a message whose identifier is new. */
  function HandleBody(s: Session, body: ClientBody): Session {
    match body
    case Start =>
      if s.phase.Ready? then
        Say(Report(s.(phase := Active), EventSpool.SessionStarted, 0), ClientView.SessionStarted)
      else Say(s, ErrorNotice)
    case Text(text) => if s.phase.Active? then HandleText(LogTyped(s, text), text) else Say(s, ErrorNotice)
    case CommitInput =>
      if s.phase.Active? && s.input.audio != [] then CommitAudio(s) else Say(s, ErrorNotice)
    case CancelResponse(epoch) =>
      if s.dialogue.current.Some? && s.dialogue.current.value.epoch == epoch then Interrupt(s) else s
    case Ack => s
    case End => EndSession(s, Completed, EventSpool.SessionCompleted)
  }

  function LogTyped(s: Session, text: string): Session {
    s.(input := s.input.(typed := s.input.typed[Bump(s.input.epoch) := text]))
  }

  function HandleClient(s: Session, m: ClientMessage): Session {
    if m.id in LastN(s.seen, 1024) then s else HandleBody(s.(seen := s.seen + [m.id]), m.body)
  }

  /** `handle_stt_update` and the `SttEnded` notice. */
  function HandleStt(s: Session, epoch: nat, e: T.SttEvent): Session {
    if epoch != s.input.epoch then s
    else match e
      case Segment(text, isFinal) =>
        if |text| == 0 || |text| > s.config.maxSegment then FailSession(s)
        else
          var told := Say(s, Transcript(epoch, text, isFinal));
          if isFinal then StartResponseIf(Report(told, EventSpool.SpeechFinal, epoch), text)
          else Report(told, EventSpool.SpeechPartial, epoch)
      case Error(cancelled) => if cancelled then s else FailSession(s)
      case Ended(sawFinal) => if sawFinal then s else FailSession(s)
  }

  /** A command taken off the control lane. */
  function HandleControl(s: Session, c: Command): Session {
    match c
    case Client(m) => HandleClient(s, m)
    case Stt(epoch, e) => HandleStt(LogStt(s, epoch, e), epoch, e)
    case Pipeline(epoch, e) => HandlePipeline(LogPipeline(s, epoch, e), epoch, e)
    case CompleteSession => EndSession(s, Completed, EventSpool.SessionCompleted)
    case CancelSession => EndSession(s, Canceled, EventSpool.SessionCanceled)
  }

  function LogPipeline(s: Session, epoch: nat, e: P.PipelineEvent): Session {
    var d := s.dialogue;
    if epoch in d.delivered then s.(dialogue := d.(delivered := d.delivered[epoch := d.delivered[epoch] + [e]])) else s
  }

  function LogStt(s: Session, epoch: nat, e: T.SttEvent): Session {
    var i := s.input;
    if epoch in i.delivered then s.(input := i.(delivered := i.delivered[epoch := i.delivered[epoch] + [e]])) else s
  }

  function HandleMedia(s: Session, m: Media): Session {
    match m
    case Frame(bytes) => HandleAudio(s, bytes)
    case Ordered(message) => HandleClient(s, message)
  }

  // ---------- the system ----------

  datatype Step =
    | Boot(script: seq<Choice>)
    | Arrive(message: ClientMessage)
    | ArriveFrame(frame: seq<byte>)
    | Operate(cancel: bool)
    | TakeControl(script: seq<Choice>)
    | TakeMedia(script: seq<Choice>)
    | Deadline(script: seq<Choice>)
    | ForceCancel(script: seq<Choice>)
    | MediaOverrun(script: seq<Choice>)
    | RespondTask(epoch: nat, answer: P.Input)
    | ListenTask(epoch: nat, hears: T.Input)
    | Deliver(action: EventSpool.Action)
    | Teardown(script: seq<Choice>)
    | Join
    | Abort

  predicate NeedsOrder(b: ClientBody) {
    b.Start? || b.Text? || b.CommitInput?
  }

  predicate ValidBody(b: ClientBody) {
    b.Text? ==> 0 < |b.text| <= 16000
  }

  /** `try_control` and `try_audio`: bounded lanes; an overfull media lane is remembered. */
  function EnqueueMedia(s: Session, m: Media): Session {
    if |s.media| < s.config.mediaCapacity then s.(media := s.media + [m]) else s.(overrun := true)
  }

  function EnqueueControl(s: Session, c: Command): Session {
    if |s.control| < s.config.controlCapacity then s.(control := s.control + [c]) else s
  }

  function WithScript(s: Session, script: seq<Choice>): Session {
    s.(io := s.io.(script := script))
  }

  /** `run` after the loop: record an unexpected failure, then drop the event sender. */
  function TeardownSession(s: Session): Session {
    var err := s.io.fault.Some? || s.terminalError;
    var recorded :=
      if err then
        s.(phase := Failed, dialogue := s.dialogue.(current := None),
           io := s.io.(spool := EventSpool.PublishTerminal(s.io.spool, EventSpool.Event(EventSpool.SessionFailed, 0), Now(s.io).work)))
      else s;
    recorded.(life := Flushing(err), io := recorded.io.(spool := EventSpool.ProducerStep(recorded.io.spool, EventSpool.Close)))
  }

  /** A response task sends at most one event, waiting while the lane is full. */
  function StepResponseTask(s: Session, e: nat, answer: P.Input): Session {
    if e !in s.dialogue.tasks || |s.control| >= s.config.controlCapacity then s
    else
      var t := s.dialogue.tasks[e];
      var u := P.Step(t, s.config.pipeline, answer);
      s.(dialogue := s.dialogue.(tasks := s.dialogue.tasks[e := u]),
         control := s.control + (if |u.emitted| > |t.emitted| then [Pipeline(e, u.emitted[|t.emitted|])] else []))
  }

  function StepListenTask(s: Session, e: nat, hears: T.Input): Session {
    if e !in s.input.tasks || |s.control| >= s.config.controlCapacity then s
    else
      var t := s.input.tasks[e];
      var u := T.Step(t, hears);
      s.(input := s.input.(tasks := s.input.tasks[e := u]),
         control := s.control + (if |u.emitted| > |t.emitted| then [Stt(e, u.emitted[|t.emitted|])] else []))
  }

  /** One step of the system; a step that is not enabled changes nothing. */
  function Next(s: Session, step: Step): Session {
    match step
    case Boot(script) =>
      if s.life.Booting? then
        Say(Report(WithScript(s.(life := Live), script), EventSpool.SessionReady, 0), ClientView.SessionReady)
      else s
    case Arrive(m) =>
      if !ValidBody(m.body) then s
      else if NeedsOrder(m.body) then EnqueueMedia(s, Ordered(m))
      else EnqueueControl(s, Client(m))
    case ArriveFrame(frame) =>
      if 0 < |frame| <= s.config.maxFrame && |frame| % 2 == 0 then EnqueueMedia(s, Frame(frame)) else s
    case Operate(cancel) => EnqueueControl(s, if cancel then CancelSession else CompleteSession)
    case TakeControl(script) =>
      if s.life.Live? && Running(s) && s.control != [] then
        HandleControl(WithScript(s, script).(control := s.control[1..]), s.control[0])
      else s
    case TakeMedia(script) =>
      if s.life.Live? && Running(s) && s.media != [] then
        HandleMedia(WithScript(s, script).(media := s.media[1..]), s.media[0])
      else s
    case Deadline(script) =>
      if s.life.Live? && Running(s) then
        if s.phase.Ready? then FailSession(WithScript(s, script))
        else EndSession(WithScript(s, script), Completed, EventSpool.SessionCompleted)
      else s
    case ForceCancel(script) =>
      if s.life.Live? && Running(s) then FailSession(WithScript(s, script)) else s
    case MediaOverrun(script) =>
      if s.life.Live? && Running(s) && s.overrun then
        FailSession(DropAudio(Report(WithScript(s, script), EventSpool.AudioOverrun, 0)))
      else s
    case RespondTask(e, answer) => StepResponseTask(s, e, answer)
    case ListenTask(e, hears) => StepListenTask(s, e, hears)
    case Deliver(action) => s.(io := s.io.(spool := EventSpool.WorkerStep(s.io.spool, action)))
    case Teardown(script) =>
      if s.life.Live? && !Running(s) then TeardownSession(WithScript(s, script)) else s
    case Join =>
      if s.life.Flushing? && s.io.spool.worker.Stopped? then
        s.(life := Over, outcome := if !s.life.err && s.io.spool.worker.delivered then Flushed else Broken)
      else s
    case Abort => if s.life.Over? then s else s.(life := Over, outcome := Broken)
  }

  function DropAudio(s: Session): Session {
    if Faulted(s) then s else s.(input := s.input.(audio := []))
  }

  function Run(s: Session, steps: seq<Step>): Session
    decreases |steps|
  {
    if steps == [] then s else Run(Next(s, steps[0]), steps[1..])
  }
}
