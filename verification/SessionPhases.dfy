/** When a session starts, ends or fails, and when a client is told of an error. */
module SessionPhases {
  import opened Common
  import opened History
  import opened ClientView
  import opened SessionModel
  import opened SystemSafety
  import E = EventSpool
  import P = ResponsePipeline
  import T = Transcription

  // ---------- what a step decides ----------

  datatype Verdict = Verdict(phase: Phase, notices: nat)

  /** Nothing changes, and nothing is said. */
  function Same(s: Session): Verdict {
    Verdict(s.phase, 0)
  }

  /** The session fails, and the client is told. */
  const Fails := Verdict(Failed, 1)

  predicate BadSegment(s: Session, e: T.SttEvent) {
    match e
    case Segment(text, _) => text == "" || |text| > s.config.maxSegment
    case Error(cancelled) => !cancelled
    case Ended(sawFinal) => !sawFinal
  }

  /** A repeated message does nothing; one that does not fit the phase is answered with an error. */
  function OnMessage(s: Session, m: ClientMessage): Verdict {
    if m.id in LastN(s.seen, 1024) then Same(s)
    else match m.body
      case Start => if s.phase.Ready? then Verdict(Active, 0) else Verdict(s.phase, 1)
      case Text(_) => Verdict(s.phase, if s.phase.Active? then 0 else 1)
      case CommitInput => Verdict(s.phase, if s.phase.Active? && s.input.audio != [] then 0 else 1)
      case End => Verdict(Completed, 0)
      case _ => Same(s)
  }

  function OnStep(s: Session, step: Step): Verdict {
    match step
    case TakeControl(_) =>
      if s.control == [] then Same(s)
      else (match s.control[0]
            case Client(m) => OnMessage(s, m)
            case Stt(k, e) => if k == s.input.epoch && BadSegment(s, e) then Fails else Same(s)
            case Pipeline(e, ev) =>
              if s.dialogue.current.Some? && s.dialogue.current.value.epoch == e && ev.Failed? then Fails else Same(s)
            case CompleteSession => Verdict(Completed, 0)
            case CancelSession => Verdict(Canceled, 0))
    case TakeMedia(_) =>
      if s.media == [] then Same(s)
      else (match s.media[0]
            case Frame(frame) =>
              if !s.phase.Active? then Verdict(s.phase, 1)
              else if |s.input.audio| + |frame| > s.config.maxBufferedAudio then Fails
              else Same(s)
            case Ordered(m) => OnMessage(s, m))
    case Deadline(_) => if s.phase.Ready? then Fails else Verdict(Completed, 0)
    case ForceCancel(_) => Fails
    case MediaOverrun(_) => if s.overrun then Fails else Same(s)
    case _ => Same(s)
  }

  // ---------- one handler at a time ----------

  /** The errors a client is told of. */
  function Notices(outputs: seq<Output>): nat {
    if outputs == [] then 0
    else Notices(outputs[..|outputs| - 1]) + if outputs[|outputs| - 1].ErrorNotice? then 1 else 0
  }

  lemma NoticesOne(outputs: seq<Output>, o: Output)
    ensures Notices(outputs + [o]) == Notices(outputs) + if o.ErrorNotice? then 1 else 0
  {
    assert (outputs + [o])[..|outputs|] == outputs;
  }

  /** `t` is what `v` decides of `s`, or a fault cuts in. */
  ghost predicate Decides(s: Session, v: Verdict, t: Session) {
    Faulted(t) || (t.phase == v.phase && Notices(t.io.outputs) == Notices(s.io.outputs) + v.notices)
  }

  /** Nothing is decided. */
  ghost predicate Plain(s: Session, t: Session) {
    (Faulted(s) ==> Faulted(t)) && (Faulted(t) || (t.phase == s.phase && Notices(t.io.outputs) == Notices(s.io.outputs)))
  }

  lemma SayPlain(s: Session, o: Output)
    ensures o.ErrorNotice? || Plain(s, Say(s, o))
    ensures o.ErrorNotice? ==> Decides(s, Verdict(s.phase, 1), Say(s, o)) || Faulted(s)
  {
    NoticesOne(s.io.outputs, o);
    hide Notices;
  }

  lemma ReportPlain(s: Session, kind: E.EventType, epoch: nat)
    ensures Plain(s, Report(s, kind, epoch)) && Report(s, kind, epoch).io.outputs == s.io.outputs
  {
    hide Notices, E.TryPublish;
  }

  lemma InterruptPlain(s: Session)
    ensures Plain(s, Interrupt(s))
  {
    hide Notices, EmitEvent, EmitOutput;
    if !Faulted(s) && s.dialogue.current.Some? {
      var e := s.dialogue.current.value.epoch;
      var taken := s.(dialogue := s.dialogue.(current := None));
      SayPlain(taken, ResponseCompleted(e, true));
      ReportPlain(Say(taken, ResponseCompleted(e, true)), E.SessionInterrupted, e);
    }
  }

  lemma FailFails(s: Session)
    requires Faulted(s) || Running(s)
    ensures Decides(s, Fails, FailSession(s))
  {
    hide Notices, EmitOutput;
    SayPlain(s.(phase := Failed, dialogue := s.dialogue.(current := None)), ErrorNotice);
  }

  lemma EndEnds(s: Session, phase: Phase, kind: E.EventType)
    requires Running(s)
    ensures Decides(s, Verdict(phase, 0), EndSession(s, phase, kind))
  {
    hide Notices, Interrupt, E.PublishTerminal;
    InterruptPlain(s.(phase := Draining));
  }

  lemma StartPlain(s: Session, text: string)
    ensures Plain(s, StartResponseIf(s, text))
  {
    hide Notices, Interrupt, EmitEvent, Fits, Retained, Concat;
    if !Faulted(s) {
      var t := Interrupt(NoteSuperseded(s));
      InterruptPlain(NoteSuperseded(s));
      if !Faulted(t) && Fits([User(text)], t.config.history) {
        var pushed := Push(t, [User(text)]);
        var d := pushed.dialogue;
        ReportPlain(pushed.(dialogue := d.(epoch := Bump(d.epoch), origins := d.origins + [t.input.epoch])), E.ReasoningStarted, Bump(d.epoch));
      }
    }
  }

  lemma TextPlain(s: Session, text: string)
    ensures Plain(s, HandleText(s, text))
  {
    hide Notices, Interrupt, EmitEvent, EmitOutput, StartResponseIf;
    InterruptPlain(s.(input := s.input.(epoch := Bump(s.input.epoch), speaking := false, audio := [])));
    var heard := NewInput(s, false, []);
    var o := Transcript(heard.input.epoch, text, true);
    SayPlain(heard, o);
    ReportPlain(Say(heard, o), E.SpeechFinal, heard.input.epoch);
    StartPlain(Report(Say(heard, o), E.SpeechFinal, heard.input.epoch), text);
  }

  lemma AudioDecides(s: Session, frame: seq<byte>)
    requires Running(s) && s.phase.Active?
    ensures Decides(s, if |s.input.audio| + |frame| > s.config.maxBufferedAudio then Fails else Same(s), HandleAudio(s, frame))
  {
    hide Notices, Interrupt, EmitEvent, FailSession;
    var begun := s.(input := s.input.(epoch := Bump(s.input.epoch), speaking := true));
    InterruptPlain(begun);
    InterruptKept(begun);
    ReportPlain(NewInput(s, true, s.input.audio), E.SpeechStarted, 0);
    var ready := if s.input.speaking then s else Report(NewInput(s, true, s.input.audio), E.SpeechStarted, 0);
    if Faulted(ready) || Running(ready) {
      FailFails(ready);
    }
  }

  lemma MessageDecides(s: Session, m: ClientMessage)
    requires Running(s)
    ensures Decides(s, OnMessage(s, m), HandleClient(s, m))
  {
    hide Notices, Interrupt, EmitEvent, EmitOutput, HandleText, EndSession;
    var t := s.(seen := s.seen + [m.id]);
    SayPlain(t, ErrorNotice);
    match m.body
    case Start =>
      ReportPlain(t.(phase := Active), E.SessionStarted, 0);
      SayPlain(Report(t.(phase := Active), E.SessionStarted, 0), ClientView.SessionStarted);
    case Text(text) => TextPlain(LogTyped(t, text), text);
    case CancelResponse(_) => InterruptPlain(t);
    case End => EndEnds(t, Completed, E.SessionCompleted);
    case _ =>
  }

  lemma SttDecides(s: Session, k: nat, e: T.SttEvent)
    requires Running(s)
    ensures Decides(s, if k == s.input.epoch && BadSegment(s, e) then Fails else Same(s), HandleStt(s, k, e))
  {
    hide Notices, EmitEvent, EmitOutput, FailSession, StartResponseIf;
    FailFails(s);
    if e.Segment? {
      var told := Say(s, Transcript(k, e.text, e.isFinal));
      SayPlain(s, Transcript(k, e.text, e.isFinal));
      ReportPlain(told, E.SpeechPartial, k);
      ReportPlain(told, E.SpeechFinal, k);
      StartPlain(Report(told, E.SpeechFinal, k), e.text);
    }
  }

  lemma FinishPlain(s: Session, c: Current)
    ensures Plain(s, FinishResponse(s, c))
  {
    NoticesOne(s.io.outputs, ResponseCompleted(c.epoch, false));
    hide Notices, Fits, Retained;
  }

  lemma ApplyDecides(s: Session, c: Current, ev: P.PipelineEvent)
    requires Running(s)
    ensures Decides(s, if ev.Failed? then Fails else Same(s), ApplyPipeline(s, c, ev))
  {
    hide Notices, EmitEvent, EmitOutput, FailSession, FinishResponse, Fits, Retained, P.PairOf;
    match ev
    case ReasoningDelta(text) =>
      SayPlain(s, Delta(c.epoch, text));
      ReportPlain(Say(s, Delta(c.epoch, text)), E.ReasoningDelta, c.epoch);
    case ToolStarted(call) => ReportPlain(SetCurrent(s, c.(pendingTool := Some(call))), E.ToolStarted, c.epoch);
    case ToolCompleted(_, _, output, _) =>
      if c.pendingTool.Some? {
        ReportPlain(Push(SetCurrent(s, c.(pendingTool := None)), P.PairOf(c.pendingTool.value, output)), E.ToolCompleted, c.epoch);
      }
    case ToolFailed(_, _) => ReportPlain(SetCurrent(s, c.(pendingTool := None)), E.ToolFailed, c.epoch);
    case ReasoningCompleted(text) => ReportPlain(SetCurrent(s, c.(pendingAssistant := Some(text))), E.ReasoningCompleted, c.epoch);
    case TtsStarted => ReportPlain(s, E.TtsStarted, c.epoch);
    case Audio(n, bytes) =>
      ReportPlain(s, E.TtsFirstAudio, c.epoch);
      SayPlain(if n == 0 then Report(s, E.TtsFirstAudio, c.epoch) else s, Voice(c.epoch, n, bytes));
    case TtsCompleted => ReportPlain(s, E.TtsCompleted, c.epoch);
    case Completed => FinishPlain(s, c);
    case Failed => FailFails(s);
  }

  // ---------- every step ----------

  lemma ControlDecides(s: Session)
    requires Running(s) && s.control != []
    ensures Decides(s, OnStep(s, TakeControl([])), HandleControl(s.(control := s.control[1..]), s.control[0]))
  {
    hide Notices, HandleClient, HandleStt, ApplyPipeline, EndSession;
    var t := s.(control := s.control[1..]);
    match s.control[0]
    case Client(m) => MessageDecides(t, m);
    case Stt(k, e) => SttDecides(LogStt(t, k, e), k, e);
    case Pipeline(e, ev) =>
      if s.dialogue.current.Some? {
        ApplyDecides(LogPipeline(t, e, ev), s.dialogue.current.value, ev);
      }
    case CompleteSession => EndEnds(t, Completed, E.SessionCompleted);
    case CancelSession => EndEnds(t, Canceled, E.SessionCanceled);
  }

  lemma MediaDecides(s: Session)
    requires Running(s) && s.media != []
    ensures Decides(s, OnStep(s, TakeMedia([])), HandleMedia(s.(media := s.media[1..]), s.media[0]))
  {
    hide Notices, HandleClient, EmitEvent, EmitOutput, Interrupt, FailSession;
    var t := s.(media := s.media[1..]);
    match s.media[0]
    case Frame(bytes) =>
      SayPlain(t, ErrorNotice);
      if s.phase.Active? {
        AudioDecides(t, bytes);
      }
    case Ordered(m) => MessageDecides(t, m);
  }

  lemma TakeDecides(s: Session, step: Step)
    requires s.life.Live? && Running(s) && (step.TakeControl? || step.TakeMedia?)
    ensures Decides(s, OnStep(s, step), Next(s, step))
  {
    hide Notices, HandleControl, HandleMedia;
    var t := WithScript(s, step.script);
    if step.TakeControl? && s.control != [] {
      ControlDecides(t);
    } else if step.TakeMedia? && s.media != [] {
      MediaDecides(t);
    }
  }

  lemma StopDecides(s: Session, step: Step)
    requires s.life.Live? && Running(s) && (step.Deadline? || step.ForceCancel? || step.MediaOverrun?)
    ensures Decides(s, OnStep(s, step), Next(s, step))
  {
    hide Notices, EndSession, FailSession, EmitEvent;
    var t := WithScript(s, step.script);
    FailFails(t);
    EndEnds(t, Completed, E.SessionCompleted);
    ReportPlain(t, E.AudioOverrun, 0);
    FailFails(DropAudio(Report(t, E.AudioOverrun, 0)));
  }

  lemma AsideDecides(s: Session, step: Step)
    requires s.life.Live? && Running(s) && (step.Boot? || step.Teardown? || step.RespondTask? || step.ListenTask? || step.Deliver?
             || step.Arrive? || step.ArriveFrame? || step.Operate? || step.Join? || step.Abort?)
    ensures Decides(s, OnStep(s, step), Next(s, step))
  {
    hide Notices, E.WorkerStep, P.Step, T.Step;
  }

  /** While a session is running, every step leaves it in exactly the phase, and tells the client of
      exactly the errors, that the step calls for, unless the session breaks over it. */
  lemma PhasesAreDecided(s: Session, step: Step)
    requires s.life.Live? && Running(s)
    ensures var t, v := Next(s, step), OnStep(s, step);
            Faulted(t) || (t.phase == v.phase && Notices(t.io.outputs) == Notices(s.io.outputs) + v.notices)
  {
    hide Notices, Next, OnStep;
    if step.TakeControl? || step.TakeMedia? {
      TakeDecides(s, step);
    } else if step.Deadline? || step.ForceCancel? || step.MediaOverrun? {
      StopDecides(s, step);
    } else {
      AsideDecides(s, step);
    }
  }

  /** Once a session is not running, nothing is sent any more, and its phase changes only by recording
      a failure. */
  lemma StoppedStaysStopped(s: Session, step: Step)
    requires !Running(s) && !s.life.Booting?
    ensures var t := Next(s, step);
            && t.io.outputs == s.io.outputs && !Running(t)
            && (t.phase == s.phase || (t.phase.Failed? && step.Teardown? && (Faulted(s) || s.terminalError)))
  {
    hide E.WorkerStep, P.Step, T.Step, E.PublishTerminal, HandleControl, HandleMedia, FailSession, EndSession, EmitEvent;
  }
}
