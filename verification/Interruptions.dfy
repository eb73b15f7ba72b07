/** When a response is interrupted: by a cancel that names it, a new utterance or text, or the end of
    the session, and by nothing else. */
module Interruptions {
  import opened Common
  import opened History
  import opened ClientView
  import opened SessionModel
  import opened ListeningInvariant
  import opened SessionSafety
  import opened SystemSafety
  import opened SessionTheorems
  import H = Greetings
  import E = EventSpool
  import P = ResponsePipeline
  import T = Transcription

  predicate FreshMessage(s: Session, m: ClientMessage) {
    m.id !in LastN(s.seen, 1024)
  }

  predicate MessageInterrupts(s: Session, m: ClientMessage, e: nat) {
    FreshMessage(s, m)
    && match m.body
       case Text(_) => s.phase.Active?
       case CancelResponse(epoch) => epoch == e
       case End => true
       case _ => false
  }

  /** The step asks for the response `e` to be interrupted. */
  predicate Interrupts(s: Session, step: Step, e: nat) {
    match step
    case TakeControl(_) =>
      s.control != []
      && (match s.control[0]
          case Client(m) => MessageInterrupts(s, m, e)
          case CompleteSession => true
          case CancelSession => true
          case _ => false)
    case TakeMedia(_) =>
      s.media != []
      && (match s.media[0]
          case Frame(_) => s.phase.Active? && !s.input.speaking
          case Ordered(m) => MessageInterrupts(s, m, e))
    case Deadline(_) => s.phase.Active?
    case _ => false
  }

  // ---------- one handler at a time ----------

  ghost predicate Uncut(s: Session, t: Session) {
    H.Cuts(t.io.outputs) == H.Cuts(s.io.outputs)
  }

  /** The current response, if any, is interrupted, or a fault cuts in. */
  ghost predicate Cut(s: Session, t: Session) {
    if s.dialogue.current.None? then Uncut(s, t)
    else H.Cuts(t.io.outputs) == H.Cuts(s.io.outputs) + [s.dialogue.current.value.epoch] || (Uncut(s, t) && Faulted(t))
  }

  lemma SayUncut(s: Session, o: Output)
    requires !H.IsCut(o)
    ensures Uncut(s, Say(s, o)) && (Faulted(s) ==> Say(s, o) == s)
  {
    H.GreetingsOne(s.io.outputs, o);
    hide H.Cuts;
  }

  lemma ReportUncut(s: Session, kind: E.EventType, epoch: nat)
    ensures Report(s, kind, epoch).io.outputs == s.io.outputs && (Faulted(s) ==> Report(s, kind, epoch) == s)
  {
    hide E.TryPublish;
  }

  lemma InterruptCuts(s: Session)
    requires !Faulted(s)
    ensures Cut(s, Interrupt(s)) && (s.dialogue.current.None? ==> Interrupt(s) == s)
  {
    hide H.Cuts, EmitEvent;
    if s.dialogue.current.Some? {
      var e := s.dialogue.current.value.epoch;
      H.GreetingsOne(s.io.outputs, ResponseCompleted(e, true));
      var told := Say(s.(dialogue := s.dialogue.(current := None)), ResponseCompleted(e, true));
      ReportUncut(told, E.SessionInterrupted, e);
    }
  }

  lemma FailUncut(s: Session)
    ensures Uncut(s, FailSession(s)) && (Faulted(s) ==> FailSession(s) == s)
  {
    hide H.Cuts, EmitOutput;
    SayUncut(s.(phase := Failed, dialogue := s.dialogue.(current := None)), ErrorNotice);
  }

  lemma EndCuts(s: Session, phase: Phase, kind: E.EventType)
    requires !Faulted(s) && !TerminalPhase(s.phase)
    ensures Cut(s, EndSession(s, phase, kind))
  {
    hide H.Cuts, Interrupt, E.PublishTerminal;
    InterruptCuts(s.(phase := Draining));
  }

  lemma StartUncut(s: Session, text: string)
    requires !Faulted(s) ==> s.dialogue.current.None?
    ensures StartResponseIf(s, text).io.outputs == s.io.outputs && (Faulted(s) ==> StartResponseIf(s, text) == s)
  {
    hide EmitEvent, Fits, Retained, Concat;
    if !Faulted(s) && Fits([User(text)], s.config.history) {
      var pushed := Push(s, [User(text)]);
      var d := pushed.dialogue;
      ReportUncut(pushed.(dialogue := d.(epoch := Bump(d.epoch), origins := d.origins + [s.input.epoch])), E.ReasoningStarted, Bump(d.epoch));
    }
  }

  lemma InterruptsDone(s: Session)
    ensures !Faulted(Interrupt(s)) ==> Interrupt(s).dialogue.current.None?
  {
    hide EmitEvent, EmitOutput;
  }

  lemma TextCuts(s: Session, text: string)
    requires !Faulted(s)
    ensures Cut(s, HandleText(s, text))
  {
    hide H.Cuts, Interrupt, EmitEvent, EmitOutput, StartResponseIf;
    var begun := s.(input := s.input.(epoch := Bump(s.input.epoch), speaking := false, audio := []));
    InterruptCuts(begun);
    InterruptsDone(begun);
    var heard := NewInput(s, false, []);
    var told := Say(heard, Transcript(heard.input.epoch, text, true));
    SayUncut(heard, Transcript(heard.input.epoch, text, true));
    ReportUncut(told, E.SpeechFinal, heard.input.epoch);
    StartUncut(Report(told, E.SpeechFinal, heard.input.epoch), text);
  }

  lemma AudioCuts(s: Session, frame: seq<byte>)
    requires !Faulted(s)
    ensures if s.phase.Active? && !s.input.speaking then Cut(s, HandleAudio(s, frame)) else Uncut(s, HandleAudio(s, frame))
  {
    hide H.Cuts, Interrupt, EmitEvent, EmitOutput, FailSession;
    SayUncut(s, ErrorNotice);
    var begun := s.(input := s.input.(epoch := Bump(s.input.epoch), speaking := true));
    InterruptCuts(begun);
    ReportUncut(NewInput(s, true, s.input.audio), E.SpeechStarted, 0);
    var ready := if s.input.speaking then s else Report(NewInput(s, true, s.input.audio), E.SpeechStarted, 0);
    FailUncut(ready);
  }

  lemma ClientCuts(s: Session, m: ClientMessage)
    requires Running(s)
    ensures if s.dialogue.current.Some? && MessageInterrupts(s, m, s.dialogue.current.value.epoch) then Cut(s, HandleClient(s, m))
            else Uncut(s, HandleClient(s, m))
  {
    hide H.Cuts, Interrupt, EmitEvent, EmitOutput, HandleText, EndSession;
    var t := s.(seen := s.seen + [m.id]);
    SayUncut(t, ErrorNotice);
    match m.body
    case Start =>
      ReportUncut(t.(phase := Active), E.SessionStarted, 0);
      SayUncut(Report(t.(phase := Active), E.SessionStarted, 0), ClientView.SessionStarted);
    case Text(text) => TextCuts(LogTyped(t, text), text);
    case CancelResponse(_) => InterruptCuts(t);
    case End => EndCuts(t, Completed, E.SessionCompleted);
    case _ =>
  }

  lemma SttUncut(s: Session, epoch: nat, e: T.SttEvent)
    requires epoch == s.input.epoch && T.IsFinal(e) ==> s.dialogue.current.None?
    ensures Uncut(s, HandleStt(s, epoch, e))
  {
    hide H.Cuts, EmitEvent, EmitOutput, FailSession, StartResponseIf;
    FailUncut(s);
    if e.Segment? {
      var told := Say(s, Transcript(epoch, e.text, e.isFinal));
      SayUncut(s, Transcript(epoch, e.text, e.isFinal));
      ReportUncut(told, E.SpeechPartial, epoch);
      ReportUncut(told, E.SpeechFinal, epoch);
      if epoch == s.input.epoch && e.isFinal {
        StartUncut(Report(told, E.SpeechFinal, epoch), e.text);
      }
    }
  }

  lemma ApplyUncut(s: Session, c: Current, ev: P.PipelineEvent)
    ensures Uncut(s, ApplyPipeline(s, c, ev))
  {
    hide H.Cuts, EmitEvent, EmitOutput, FailSession, FinishResponse, Fits, Retained, P.PairOf;
    FailUncut(s);
    FinishUncut(s, c);
    match ev
    case ReasoningDelta(text) =>
      SayUncut(s, Delta(c.epoch, text));
      ReportUncut(Say(s, Delta(c.epoch, text)), E.ReasoningDelta, c.epoch);
    case ToolStarted(call) => ReportUncut(SetCurrent(s, c.(pendingTool := Some(call))), E.ToolStarted, c.epoch);
    case ToolCompleted(_, _, output, _) =>
      if c.pendingTool.Some? {
        ReportUncut(Push(SetCurrent(s, c.(pendingTool := None)), P.PairOf(c.pendingTool.value, output)), E.ToolCompleted, c.epoch);
      }
    case ToolFailed(_, _) => ReportUncut(SetCurrent(s, c.(pendingTool := None)), E.ToolFailed, c.epoch);
    case ReasoningCompleted(text) => ReportUncut(SetCurrent(s, c.(pendingAssistant := Some(text))), E.ReasoningCompleted, c.epoch);
    case TtsStarted => ReportUncut(s, E.TtsStarted, c.epoch);
    case Audio(n, bytes) =>
      ReportUncut(s, E.TtsFirstAudio, c.epoch);
      SayUncut(if n == 0 then Report(s, E.TtsFirstAudio, c.epoch) else s, Voice(c.epoch, n, bytes));
    case TtsCompleted => ReportUncut(s, E.TtsCompleted, c.epoch);
    case _ =>
  }

  lemma FinishUncut(s: Session, c: Current)
    ensures Uncut(s, FinishResponse(s, c))
  {
    H.GreetingsOne(s.io.outputs, ResponseCompleted(c.epoch, false));
    hide H.Cuts, Fits, Retained;
  }

  lemma ControlCuts(s: Session)
    requires Good(s) && Running(s) && s.control != []
    ensures var t := HandleControl(s.(control := s.control[1..]), s.control[0]);
            if s.dialogue.current.Some? && Interrupts(s, TakeControl([]), s.dialogue.current.value.epoch) then Cut(s, t) else Uncut(s, t)
  {
    hide Good, H.Cuts, HandleClient, HandleStt, ApplyPipeline, EndSession, Fresh, Concluding, See;
    var t := s.(control := s.control[1..]);
    match s.control[0]
    case Client(m) => ClientCuts(t, m);
    case Stt(k, e) =>
      SttTaken(s);
      SttUncut(LogStt(t, k, e), k, e);
    case Pipeline(e, ev) =>
      if s.dialogue.current.Some? {
        ApplyUncut(LogPipeline(t, e, ev), s.dialogue.current.value, ev);
      }
    case CompleteSession => EndCuts(t, Completed, E.SessionCompleted);
    case CancelSession => EndCuts(t, Canceled, E.SessionCanceled);
  }

  lemma MediaCuts(s: Session)
    requires Running(s) && s.media != []
    ensures var t := HandleMedia(s.(media := s.media[1..]), s.media[0]);
            if s.dialogue.current.Some? && Interrupts(s, TakeMedia([]), s.dialogue.current.value.epoch) then Cut(s, t) else Uncut(s, t)
  {
    hide H.Cuts, HandleClient, HandleAudio;
    var t := s.(media := s.media[1..]);
    match s.media[0]
    case Frame(bytes) => AudioCuts(t, bytes);
    case Ordered(m) => ClientCuts(t, m);
  }

  lemma StopCuts(s: Session, step: Step)
    requires s.life.Live? && Running(s) && (step.Deadline? || step.ForceCancel? || step.MediaOverrun?)
    ensures var t := Next(s, step);
            if s.dialogue.current.Some? && Interrupts(s, step, s.dialogue.current.value.epoch) then Cut(s, t) else Uncut(s, t)
  {
    hide H.Cuts, EndSession, FailSession, EmitEvent;
    var t := WithScript(s, step.script);
    FailUncut(t);
    EndCuts(t, Completed, E.SessionCompleted);
    ReportUncut(t, E.AudioOverrun, 0);
    FailUncut(DropAudio(Report(t, E.AudioOverrun, 0)));
  }

  lemma BootUncut(s: Session, script: seq<Choice>)
    ensures Uncut(s, Next(s, Boot(script)))
  {
    hide H.Cuts, EmitEvent, EmitOutput;
    var t := WithScript(s.(life := Live), script);
    ReportUncut(t, E.SessionReady, 0);
    SayUncut(Report(t, E.SessionReady, 0), ClientView.SessionReady);
  }

  lemma TakeCuts(s: Session, step: Step)
    requires s.life.Live? && Running(s) && (step.TakeControl? || step.TakeMedia?) && Good(WithScript(s, step.script))
    ensures var t := Next(s, step);
            if s.dialogue.current.Some? && Interrupts(s, step, s.dialogue.current.value.epoch) then Cut(s, t) else Uncut(s, t)
  {
    hide Good, H.Cuts, HandleControl, HandleMedia;
    var t := WithScript(s, step.script);
    if step.TakeControl? && s.control != [] {
      ControlCuts(t);
    } else if step.TakeMedia? && s.media != [] {
      MediaCuts(t);
    }
  }

  /** From every reachable state, a step tells the client that a response is interrupted exactly when
      it asks for the response under way to be interrupted, and names that one, unless the session
      breaks over it. */
  lemma InterruptedIff(config: Config, steps: seq<Step>, s: Session, step: Step)
    requires Reached(config, steps, s)
    ensures var t := Next(s, step);
            if s.life.Live? && Running(s) && s.dialogue.current.Some? && Interrupts(s, step, s.dialogue.current.value.epoch) then
              || H.Cuts(t.io.outputs) == H.Cuts(s.io.outputs) + [s.dialogue.current.value.epoch]
              || (H.Cuts(t.io.outputs) == H.Cuts(s.io.outputs) && Faulted(t))
            else H.Cuts(t.io.outputs) == H.Cuts(s.io.outputs)
  {
    hide Reached, Always, Lanes, Loop, Good, H.Cuts, Next;
    ReachedInv(config, steps, s);
    if step.Boot? {
      BootUncut(s, step.script);
    } else if s.life.Live? && Running(s) && (step.TakeControl? || step.TakeMedia?) {
      LoopGoes(s, step.script);
      TakeCuts(s, step);
    } else if s.life.Live? && Running(s) && (step.Deadline? || step.ForceCancel? || step.MediaOverrun?) {
      StopCuts(s, step);
    } else {
      OthersUncut(s, step);
    }
  }

  lemma OthersUncut(s: Session, step: Step)
    requires !step.Boot?
    requires s.life.Live? && Running(s) ==> !step.TakeControl? && !step.TakeMedia? && !step.Deadline? && !step.ForceCancel? && !step.MediaOverrun?
    ensures Next(s, step).io.outputs == s.io.outputs
  {
    hide E.WorkerStep, E.PublishTerminal, P.Step, T.Step, HandleControl, HandleMedia, FailSession, EndSession, EmitEvent;
  }
}
