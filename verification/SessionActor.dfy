/** The session actor in the form of the program: fields updated by methods that stop at the first
    error. Each method is proved to do exactly what the handler of the same step does on values,
    so everything proved about runs of those handlers is about this class. */
module SessionActor {
  import opened Common
  import opened History
  import opened BoundedMaps
  import opened ClientView
  import opened SessionModel
  import EventSpool
  import P = ResponsePipeline
  import T = Transcription

  /** The tasks spawned so far, by epoch. */
  datatype Spawned = Spawned(responses: map<nat, P.Task>, inputs: map<nat, T.Task>)

  /** What waits for the actor, and how far its own run has come. */
  datatype Lanes = Lanes(control: seq<Command>, media: seq<Media>, overrun: bool, life: Life, outcome: Outcome)

  /** The mailboxes belong to the handles that fill them; the handlers never touch them. */
  class Mailboxes {
    var lanes: Lanes

    constructor ()
      ensures lanes == Lanes([], [], false, Booting, Outcome.Pending)
    {
      lanes := Lanes([], [], false, Booting, Outcome.Pending);
    }
  }

  class Actor {
    const config: Config
    var phase: Phase
    var terminalError: bool
    var currentResponse: Option<Current>
    var responseEpoch: nat
    var inputEpoch: nat
    var audioBuffer: seq<byte>
    var speechInProgress: bool
    const history: ConversationHistory
    const recentMessages: MessageWindow
    // what the actor talks to: the transport queue, the event pipeline, and how they behave
    var output: seq<Output>
    var events: EventSpool.Spool
    var environment: seq<Choice>
    var tasks: Spawned
    const mailboxes: Mailboxes
    // what has happened
    ghost var dialogue: Dialogue
    ghost var listening: Listening

    ghost predicate Valid()
      reads this, history, recentMessages
    {
      && history.Valid() && recentMessages.Valid()
      && history.limits == config.history && history.accepted == dialogue.pushed
    }

    /** The session this actor is in, with the error it is about to return, if any. */
    ghost function Abs(fault: Option<Fault>): Session
      reads this, history, recentMessages, mailboxes
    {
      Session(config, phase, terminalError, Io(output, events, environment, fault),
              dialogue.(current := currentResponse, epoch := responseEpoch, history := history.groups, tasks := tasks.responses),
              listening.(epoch := inputEpoch, audio := audioBuffer, speaking := speechInProgress, tasks := tasks.inputs),
              recentMessages.accepted, mailboxes.lanes.control, mailboxes.lanes.media, mailboxes.lanes.overrun,
              mailboxes.lanes.life, mailboxes.lanes.outcome)
    }

    constructor (config: Config)
      ensures Valid() && Abs(None) == Begin(config)
      ensures fresh(history) && fresh(recentMessages) && fresh(mailboxes)
    {
      this.config := config;
      phase, terminalError, currentResponse, responseEpoch := Ready, false, None, 0;
      inputEpoch, audioBuffer, speechInProgress := 0, [], false;
      history := new ConversationHistory(config.history);
      recentMessages := new MessageWindow();
      output, events, environment := [], EventSpool.Start(config.spool), [];
      tasks := Spawned(map[], map[]);
      mailboxes := new Mailboxes();
      dialogue, listening := Begin(config).dialogue, Begin(config).input;
    }

    // ---------- emissions ----------

    method EmitOutput(o: Output) returns (r: Option<Fault>)
      requires Valid()
      modifies this`output, this`environment
      ensures Valid() && Abs(r) == Say(old(Abs(None)), o)
    {
      var io := Io(output, events, environment, None);
      environment := Later(io);
      if Now(io).outputOk {
        output := output + [o];
        r := None;
      } else {
        r := Some(OutputRefused);
      }
    }

    method EmitEvent(kind: EventSpool.EventType, epoch: nat) returns (r: Option<Fault>)
      requires Valid()
      modifies this`events, this`environment
      ensures Valid() && Abs(r) == Report(old(Abs(None)), kind, epoch)
    {
      hide EventSpool.TryPublish, EventSpool.Accepts, Now, Later;
      var io := Io(output, events, environment, None);
      events := EventSpool.TryPublish(events, EventSpool.Event(kind, epoch), Now(io).work);
      environment := Later(io);
      r := if EventSpool.Accepts(io.spool, events) then None else Some(EventRefused);
      assert Abs(r).io == Published(io, events);
    }

    method EmitTerminalEvent(kind: EventSpool.EventType) returns (r: Option<Fault>)
      requires Valid()
      modifies this`events, this`environment
      ensures Valid()
      ensures Abs(r) == old(Abs(None)).(io := EmitTerminal(old(Abs(None)).io, EventSpool.Event(kind, 0)))
    {
      hide EventSpool.PublishTerminal, EventSpool.Accepts, Now, Later;
      var io := Io(output, events, environment, None);
      events := EventSpool.PublishTerminal(events, EventSpool.Event(kind, 0), Now(io).work);
      environment := Later(io);
      r := if EventSpool.Accepts(io.spool, events) then None else Some(EventRefused);
    }

    // ---------- responses ----------

    method InterruptCurrent() returns (r: Option<Fault>)
      requires Valid()
      modifies this`currentResponse, this`output, this`events, this`environment
      ensures Valid() && Abs(r) == Interrupt(old(Abs(None)))
    {
      hide SessionModel.EmitOutput, SessionModel.EmitEvent;
      if currentResponse.None? {
        return None;
      }
      var epoch := currentResponse.value.epoch;
      currentResponse := None;
      ghost var taken := Abs(None);
      r := EmitOutput(ResponseCompleted(epoch, true));
      if r.Some? {
        AfterFault(Say(taken, ResponseCompleted(epoch, true)), EventSpool.SessionInterrupted, epoch);
        return;
      }
      r := EmitEvent(EventSpool.SessionInterrupted, epoch);
    }

    method PushHistory(messages: Group) returns (r: Option<Fault>)
      requires Valid() && WellFormed(messages)
      modifies history, this`dialogue
      ensures Valid() && Abs(r) == Push(old(Abs(None)), messages)
      ensures r.None? ==> dialogue == old(dialogue).(pushed := dialogue.pushed)
    {
      hide Retained, Fits;
      RetainedAgain(history.accepted, [messages], config.history);
      var pushed := history.PushGroup(messages);
      if pushed.Err? {
        return Some(HistoryBound);
      }
      dialogue := dialogue.(pushed := dialogue.pushed + [messages]);
      r := None;
    }

    method StartResponse(text: string) returns (r: Option<Fault>)
      requires Valid()
      modifies this, history
      ensures Valid() && Abs(r) == SessionModel.StartResponse(old(Abs(None)), text)
    {
      hide Interrupt, Launch;
      ghost var noted := NoteSuperseded(Abs(None));
      dialogue := dialogue.(superseded := noted.dialogue.superseded);
      assert Abs(None) == noted;
      r := InterruptCurrent();
      if r.Some? {
        LaunchAfterFault(Abs(r), text);
        return;
      }
      r := LaunchResponse(text);
    }

    method LaunchResponse(text: string) returns (r: Option<Fault>)
      requires Valid()
      modifies this, history
      ensures Valid() && Abs(r) == Launch(old(Abs(None)), text)
    {
      hide Push, Announce;
      ghost var turn := Turn(dialogue.pushed, text);
      var priorHistory := history.history;
      r := PushHistory([User(text)]);
      if r.Some? {
        return;
      }
      r := AnnounceResponse(turn, priorHistory + [User(text)]);
    }

    method AnnounceResponse(ghost turn: Turn, request: seq<Message>) returns (r: Option<Fault>)
      requires Valid()
      modifies this
      ensures Valid() && Abs(r) == Announce(old(Abs(None)), turn, request)
    {
      hide SessionModel.EmitEvent;
      ghost var s := Abs(None);
      responseEpoch := Bump(responseEpoch);
      dialogue := dialogue.(origins := dialogue.origins + [inputEpoch]);
      assert Abs(None) == s.(dialogue := s.dialogue.(epoch := Bump(s.dialogue.epoch), origins := s.dialogue.origins + [s.input.epoch]));
      r := EmitEvent(EventSpool.ReasoningStarted, responseEpoch);
      if r.Some? {
        return;
      }
      SpawnResponse(turn, request);
    }

    method SpawnResponse(ghost turn: Turn, request: seq<Message>)
      requires Valid()
      modifies this`currentResponse, this`tasks, this`dialogue
      ensures Valid()
      ensures var s := old(Abs(None));
              var e := s.dialogue.epoch;
              Abs(None) == s.(dialogue := s.dialogue.(
                current := Some(Current(e, None, None)), tasks := s.dialogue.tasks[e := P.Spawn(request)],
                turns := s.dialogue.turns[e := turn], delivered := s.dialogue.delivered[e := []]))
    {
      var epoch := responseEpoch;
      currentResponse := Some(Current(epoch, None, None));
      tasks := tasks.(responses := tasks.responses[epoch := P.Spawn(request)]);
      dialogue := dialogue.(turns := dialogue.turns[epoch := turn], delivered := dialogue.delivered[epoch := []]);
    }

    /** An event of the current response; stale ones are dropped. */
    method HandlePipeline(epoch: nat, event: P.PipelineEvent) returns (r: Option<Fault>)
      requires Valid()
      modifies this, history
      ensures Valid() && Abs(r) == SessionModel.HandlePipeline(old(Abs(None)), epoch, event)
    {
      hide ApplyPipeline;
      if currentResponse.None? || currentResponse.value.epoch != epoch {
        return None;
      }
      if event.ToolStarted? || event.ToolCompleted? || event.ToolFailed? {
        r := HandleTool(event);
      } else {
        r := HandleSpeech(event);
      }
    }

    method HandleSpeech(event: P.PipelineEvent) returns (r: Option<Fault>)
      requires Valid() && currentResponse.Some? && !event.ToolStarted? && !event.ToolCompleted? && !event.ToolFailed?
      modifies this, history
      ensures Valid() && Abs(r) == ApplyPipeline(old(Abs(None)), old(currentResponse.value), event)
    {
      hide SessionModel.EmitOutput, SessionModel.EmitEvent, FinishResponse, SessionModel.FailSession;
      var epoch := currentResponse.value.epoch;
      match event
      case ReasoningDelta(text) =>
        r := EmitOutput(Delta(epoch, text));
        if r.Some? {
          AfterFault(Abs(r), EventSpool.ReasoningDelta, epoch);
          return;
        }
        r := EmitEvent(EventSpool.ReasoningDelta, epoch);
      case ReasoningCompleted(text) =>
        currentResponse := Some(currentResponse.value.(pendingAssistant := Some(text)));
        r := EmitEvent(EventSpool.ReasoningCompleted, epoch);
      case TtsStarted =>
        r := EmitEvent(EventSpool.TtsStarted, epoch);
      case Audio(sequence, bytes) =>
        r := None;
        if sequence == 0 {
          r := EmitEvent(EventSpool.TtsFirstAudio, epoch);
          if r.Some? {
            SayAfterFault(Abs(r), Voice(epoch, sequence, bytes));
            return;
          }
        }
        r := EmitOutput(Voice(epoch, sequence, bytes));
      case TtsCompleted =>
        r := EmitEvent(EventSpool.TtsCompleted, epoch);
      case Completed =>
        r := CompleteResponse();
      case Failed =>
        r := FailSession();
    }

    method HandleTool(event: P.PipelineEvent) returns (r: Option<Fault>)
      requires Valid() && currentResponse.Some? && (event.ToolStarted? || event.ToolCompleted? || event.ToolFailed?)
      modifies this, history
      ensures Valid() && Abs(r) == ApplyPipeline(old(Abs(None)), old(currentResponse.value), event)
    {
      hide SessionModel.EmitEvent, Push;
      var current := currentResponse.value;
      if event.ToolStarted? {
        if current.pendingTool.Some? {
          return Some(ToolsOverlap);
        }
        currentResponse := Some(current.(pendingTool := Some(event.call)));
        r := EmitEvent(EventSpool.ToolStarted, current.epoch);
        return;
      }
      if current.pendingTool.None? {
        return Some(ToolUnmatched);
      }
      var pending := current.pendingTool.value;
      currentResponse := Some(current.(pendingTool := None));
      if pending.callId != event.callId || pending.name != event.name {
        return Some(ToolMismatched);
      }
      if event.ToolFailed? {
        r := EmitEvent(EventSpool.ToolFailed, current.epoch);
        return;
      }
      r := PushHistory(P.PairOf(pending, event.output));
      if r.Some? {
        AfterFault(Abs(r), EventSpool.ToolCompleted, current.epoch);
        return;
      }
      r := EmitEvent(EventSpool.ToolCompleted, current.epoch);
    }

    method CompleteResponse() returns (r: Option<Fault>)
      requires Valid() && currentResponse.Some?
      modifies this, history
      ensures Valid() && Abs(r) == FinishResponse(old(Abs(None)), old(currentResponse.value))
    {
      hide SessionModel.EmitOutput, Push;
      var current := currentResponse.value;
      currentResponse := None;
      if current.pendingTool.Some? {
        return Some(ToolUnfinished);
      }
      if current.pendingAssistant.None? {
        return Some(NoAssistantText);
      }
      var text := current.pendingAssistant.value;
      r := PushHistory([Assistant(text)]);
      if r.Some? {
        return;
      }
      dialogue := dialogue.(answers := dialogue.answers + [Answer(current.epoch, text)]);
      r := EmitOutput(ResponseCompleted(current.epoch, false));
    }

    // ---------- ending ----------

    method FailSession() returns (r: Option<Fault>)
      requires Valid()
      modifies this
      ensures Valid() && Abs(r) == SessionModel.FailSession(old(Abs(None)))
    {
      hide SessionModel.EmitOutput;
      if TerminalPhase(phase) {
        return None;
      }
      currentResponse := None;
      phase := Phase.Failed;
      r := EmitOutput(ErrorNotice);
      if r.Some? {
        return;
      }
      terminalError := true;
    }

    /** `complete` and `cancel_session`. */
    method EndSession(ending: Phase, kind: EventSpool.EventType) returns (r: Option<Fault>)
      requires Valid()
      modifies this
      ensures Valid() && Abs(r) == SessionModel.EndSession(old(Abs(None)), ending, kind)
    {
      hide Interrupt, EmitTerminal, SessionModel.EndSession;
      ghost var s := Abs(None);
      EndParts(s, ending, kind);
      if TerminalPhase(phase) {
        return None;
      }
      phase := Draining;
      assert Abs(None) == s.(phase := Draining);
      r := InterruptCurrent();
      if r.Some? {
        return;
      }
      ghost var interrupted := Abs(None);
      phase := ending;
      assert Abs(None) == interrupted.(phase := ending);
      r := EmitTerminalEvent(kind);
    }

    /** The rest of the media overrun branch: forget the buffered audio and fail. */
    method Overrun() returns (r: Option<Fault>)
      requires Valid()
      modifies this
      ensures Valid() && Abs(r) == SessionModel.FailSession(DropAudio(Report(old(Abs(None)), EventSpool.AudioOverrun, 0)))
    {
      hide SessionModel.EmitEvent, SessionModel.FailSession;
      r := EmitEvent(EventSpool.AudioOverrun, 0);
      if r.Some? {
        FailAfterFault(Abs(r));
        return;
      }
      audioBuffer := [];
      r := FailSession();
    }

    /** `run` after the loop: record an unexpected failure, then drop the event sender. */
    method CloseDown(fault: Option<Fault>)
      requires Valid()
      modifies this`phase, this`currentResponse, this`events
      ensures Valid()
      ensures Abs(fault) == TeardownSession(old(Abs(fault))).(life := mailboxes.lanes.life)
    {
      hide EventSpool.PublishTerminal, Now;
      if fault.Some? || terminalError {
        phase, currentResponse := Phase.Failed, None;
        var work := Now(Io(output, events, environment, fault)).work;
        events := EventSpool.PublishTerminal(events, EventSpool.Event(EventSpool.SessionFailed, 0), work);
      }
      events := EventSpool.ProducerStep(events, EventSpool.Close);
    }

    // ---------- inputs ----------

    /** `begin_input`, then the barge-in interrupt. */
    method BeginInput(speaking: bool, audio: seq<byte>) returns (r: Option<Fault>)
      requires Valid()
      modifies this
      ensures Valid() && Abs(r) == NewInput(old(Abs(None)), speaking, audio)
    {
      hide Interrupt;
      inputEpoch := Bump(inputEpoch);
      speechInProgress, audioBuffer := speaking, audio;
      r := InterruptCurrent();
    }

    method HandleText(text: string) returns (r: Option<Fault>)
      requires Valid()
      modifies this, history
      ensures Valid() && Abs(r) == SessionModel.HandleText(old(Abs(None)), text)
    {
      hide NewInput, SessionModel.StartResponse, SessionModel.EmitOutput, SessionModel.EmitEvent;
      r := BeginInput(false, []);
      if r.Some? {
        SayAfterFault(Abs(r), Transcript(inputEpoch, text, true));
        AfterFault(Abs(r), EventSpool.SpeechFinal, inputEpoch);
        return;
      }
      r := FinalTranscript(inputEpoch, text);
    }

    /** A final transcript is told, recorded and answered. */
    method FinalTranscript(epoch: nat, text: string) returns (r: Option<Fault>)
      requires Valid()
      modifies this, history
      ensures Valid()
      ensures Abs(r) == StartResponseIf(Report(Say(old(Abs(None)), Transcript(epoch, text, true)), EventSpool.SpeechFinal, epoch), text)
    {
      hide SessionModel.StartResponse, SessionModel.EmitOutput, SessionModel.EmitEvent;
      r := EmitOutput(Transcript(epoch, text, true));
      if r.Some? {
        AfterFault(Abs(r), EventSpool.SpeechFinal, epoch);
        return;
      }
      r := EmitEvent(EventSpool.SpeechFinal, epoch);
      if r.Some? {
        return;
      }
      r := StartResponse(text);
    }

    method CommitAudio()
      requires Valid()
      modifies this
      ensures Valid() && Abs(None) == SessionModel.CommitAudio(old(Abs(None)))
    {
      var audio := audioBuffer;
      speechInProgress, audioBuffer := false, [];
      tasks := tasks.(inputs := tasks.inputs[inputEpoch := T.Spawn(audio)]);
      listening := listening.(commits := listening.commits + [Commit(inputEpoch, audio)],
                              delivered := listening.delivered[inputEpoch := []]);
    }

    method HandleAudio(frame: seq<byte>) returns (r: Option<Fault>)
      requires Valid()
      modifies this
      ensures Valid() && Abs(r) == SessionModel.HandleAudio(old(Abs(None)), frame)
    {
      hide NewInput, SessionModel.EmitOutput, SessionModel.EmitEvent, SessionModel.FailSession;
      if !phase.Active? {
        r := EmitOutput(ErrorNotice);
        return;
      }
      if !speechInProgress {
        r := BeginInput(true, audioBuffer);
        if r.Some? {
          AfterFault(Abs(r), EventSpool.SpeechStarted, 0);
          return;
        }
        r := EmitEvent(EventSpool.SpeechStarted, 0);
        if r.Some? {
          return;
        }
      }
      if |audioBuffer| + |frame| > config.maxBufferedAudio {
        r := FailSession();
        return;
      }
      audioBuffer := audioBuffer + frame;
      listening := listening.(heard := listening.heard + [Heard(inputEpoch, frame)]);
      r := None;
    }

    method HandleClient(message: ClientMessage) returns (r: Option<Fault>)
      requires Valid()
      modifies this, history, recentMessages
      ensures Valid() && Abs(r) == SessionModel.HandleClient(old(Abs(None)), message)
    {
      hide HandleBody;
      var duplicate := recentMessages.IsDuplicate(message.id);
      if duplicate {
        return None;
      }
      r := HandleNew(message.body);
    }

    method HandleNew(body: ClientBody) returns (r: Option<Fault>)
      requires Valid()
      modifies this, history
      ensures Valid() && Abs(r) == HandleBody(old(Abs(None)), body)
    {
      hide SessionModel.HandleText, Interrupt, SessionModel.EndSession, SessionModel.EmitOutput, SessionModel.EmitEvent, SessionModel.CommitAudio;
      r := None;
      match body
      case Start =>
        if !phase.Ready? {
          r := EmitOutput(ErrorNotice);
          return;
        }
        phase := Active;
        r := EmitEvent(EventSpool.SessionStarted, 0);
        if r.Some? {
          SayAfterFault(Abs(r), ClientView.SessionStarted);
          return;
        }
        r := EmitOutput(ClientView.SessionStarted);
      case Text(text) =>
        if !phase.Active? {
          r := EmitOutput(ErrorNotice);
          return;
        }
        listening := listening.(typed := listening.typed[Bump(inputEpoch) := text]);
        r := HandleText(text);
      case CommitInput =>
        if !phase.Active? || audioBuffer == [] {
          r := EmitOutput(ErrorNotice);
          return;
        }
        CommitAudio();
      case CancelResponse(epoch) =>
        if currentResponse.Some? && currentResponse.value.epoch == epoch {
          r := InterruptCurrent();
        }
      case Ack =>
      case End =>
        r := EndSession(Phase.Completed, EventSpool.SessionCompleted);
    }

    method HandleSttUpdate(epoch: nat, heard: T.SttEvent) returns (r: Option<Fault>)
      requires Valid()
      modifies this, history
      ensures Valid() && Abs(r) == HandleStt(old(Abs(None)), epoch, heard)
    {
      hide StartResponseIf, SessionModel.EmitOutput, SessionModel.EmitEvent, SessionModel.FailSession;
      r := None;
      if epoch != inputEpoch {
        return;
      }
      match heard
      case Segment(text, isFinal) =>
        if |text| == 0 || |text| > config.maxSegment {
          r := FailSession();
        } else if isFinal {
          r := FinalTranscript(epoch, text);
        } else {
          r := EmitOutput(Transcript(epoch, text, false));
          if r.Some? {
            AfterFault(Abs(r), EventSpool.SpeechPartial, epoch);
            return;
          }
          r := EmitEvent(EventSpool.SpeechPartial, epoch);
        }
      case Error(cancelled) =>
        if !cancelled {
          r := FailSession();
        }
      case Ended(sawFinal) =>
        if !sawFinal {
          r := FailSession();
        }
    }

    // ---------- the loop's branches ----------

    method HandleControl(command: Command) returns (r: Option<Fault>)
      requires Valid()
      modifies this, history, recentMessages
      ensures Valid() && Abs(r) == SessionModel.HandleControl(old(Abs(None)), command)
    {
      hide SessionModel.HandleClient, HandleStt, SessionModel.HandlePipeline, SessionModel.EndSession;
      match command
      case Client(message) =>
        r := HandleClient(message);
      case Stt(epoch, heard) =>
        ghost var logged := LogStt(Abs(None), epoch, heard);
        listening := listening.(delivered := logged.input.delivered);
        r := HandleSttUpdate(epoch, heard);
      case Pipeline(epoch, event) =>
        ghost var logged := LogPipeline(Abs(None), epoch, event);
        dialogue := dialogue.(delivered := logged.dialogue.delivered);
        r := HandlePipeline(epoch, event);
      case CompleteSession =>
        r := EndSession(Phase.Completed, EventSpool.SessionCompleted);
      case CancelSession =>
        r := EndSession(Canceled, EventSpool.SessionCanceled);
    }

    method HandleMedia(media: Media) returns (r: Option<Fault>)
      requires Valid()
      modifies this, history, recentMessages
      ensures Valid() && Abs(r) == SessionModel.HandleMedia(old(Abs(None)), media)
    {
      hide SessionModel.HandleClient, SessionModel.HandleAudio;
      match media
      case Frame(bytes) =>
        r := HandleAudio(bytes);
      case Ordered(message) =>
        r := HandleClient(message);
    }
  }

  lemma EndParts(s: Session, ending: Phase, kind: EventSpool.EventType)
    requires !Faulted(s)
    ensures var drained := Interrupt(s.(phase := Draining));
            SessionModel.EndSession(s, ending, kind)
            == if TerminalPhase(s.phase) then s
               else if Faulted(drained) then drained
               else drained.(phase := ending).(io := EmitTerminal(drained.io, EventSpool.Event(kind, 0)))
  {
    hide Interrupt, EmitTerminal;
  }

  lemma SayAfterFault(s: Session, o: Output)
    requires Faulted(s)
    ensures Say(s, o) == s
  {
  }

  lemma FailAfterFault(s: Session)
    requires Faulted(s)
    ensures SessionModel.FailSession(DropAudio(s)) == s
  {
  }

  lemma LaunchAfterFault(s: Session, text: string)
    requires Faulted(s)
    ensures Launch(s, text) == s
  {
  }

  /** Nothing more is emitted once an error is propagating. */
  lemma AfterFault(s: Session, kind: EventSpool.EventType, epoch: nat)
    requires Faulted(s)
    ensures Report(s, kind, epoch) == s
  {
  }
}
