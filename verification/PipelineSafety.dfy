/** Events of the current response: none of the guards against an ill-behaved response task can
    fire, and the session's invariant survives each event. */
module PipelineSafety {
  import opened Common
  import opened History
  import opened ClientView
  import opened SessionModel
  import opened DialogueInvariant
  import opened ListeningInvariant
  import opened SessionSafety
  import EventSpool
  import P = ResponsePipeline

  /** Just after a pipeline event of the current response was taken off the lane and logged: the
      dialogue was sound before it, and the event is grammatical. */
  ghost predicate Handling(s: Session, d: Dialogue, ev: P.PipelineEvent) {
    && Always(s) && TermsOf(s.io) == 0 && s.io.spool.open && !s.terminalError && Running(s)
    && Sound(d, ViewOf(s), StartsOf(s.io), s.config.history)
    && d.current.Some? && d.epoch in d.delivered && s.dialogue == Log(d, d.epoch, ev)
    && P.Grammatical(d.delivered[d.epoch] + [ev])
    && Buffer(s.input, s.config.maxBufferedAudio) && Order(s.input, d.origins, ViewOf(s).finals, true)
  }

  lemma LoggedOk(s: Session)
    requires Good(s) && Running(s) && s.control != [] && s.control[0].Pipeline?
    ensures var e, ev := s.control[0].epoch, s.control[0].event;
            var t := LogPipeline(s.(control := s.control[1..]), e, ev);
            && e in s.dialogue.delivered && t.dialogue == Log(s.dialogue, e, ev)
            && t == s.(control := s.control[1..], dialogue := t.dialogue)
            && Always(t) && P.Grammatical(s.dialogue.delivered[e] + [ev])
  {
    hide See, Starts, EventSpool.Terminals, EventSpool.Inv, SttTasks, AudioLogs, InputLogs, Sound, Order, Buffer, P.Grammatical, Tasks;
    TasksLog(s.dialogue, s.control);
    SttDequeue(s.input, s.control);
    var e, ev := s.control[0].epoch, s.control[0].event;
    DeliveredGrammatical(Log(s.dialogue, e, ev), s.control[1..], e);
  }

  lemma PipelineTaken(s: Session)
    requires Good(s) && Running(s) && s.control != [] && s.control[0].Pipeline?
    ensures var e, ev := s.control[0].epoch, s.control[0].event;
            var t := LogPipeline(s.(control := s.control[1..]), e, ev);
            && Running(t) && t.dialogue.current == s.dialogue.current && t.input == s.input
            && (if s.dialogue.current.Some? && s.dialogue.current.value.epoch == e then Handling(t, s.dialogue, ev) else Good(t))
  {
    LoggedOk(s);
    hide See, Starts, EventSpool.Terminals, Always, Order, Buffer, P.Grammatical, Talk, Story, Context;
    var e, ev := s.control[0].epoch, s.control[0].event;
    var d := s.dialogue;
    if d.current.Some? && d.current.value.epoch == e {
      CurrentEpoch(d, ViewOf(s));
    } else {
      StaleSound(d, ViewOf(s), StartsOf(s.io), s.config.history, e, ev);
    }
  }

  lemma ShownOk(d: Dialogue, v: View, ev: P.PipelineEvent)
    requires Talk(d, v) && d.current.Some? && P.Grammatical(d.delivered[d.epoch] + [ev])
    ensures Shown(v, d.epoch, ev).ok && Shown(v, d.epoch, ev).finals == v.finals
  {
    P.FollowOne(d.delivered[d.epoch], ev);
  }

  /** An event shown to the client: a text delta or an audio frame. */
  lemma ShowGood(s: Session, d: Dialogue, ev: P.PipelineEvent, t: Session)
    requires Handling(s, d, ev) && (ev.ReasoningDelta? || ev.Audio?)
    requires t == s.(io := t.io) && SpoolOk(t.io) && t.io.spool.open && TermsOf(t.io) == 0 && Benign(t.io)
    requires ViewOf(t) == ViewOf(s) || ViewOf(t) == Shown(ViewOf(s), d.epoch, ev)
    requires !Faulted(t) ==> ViewOf(t) == Shown(ViewOf(s), d.epoch, ev) && StartsOf(t.io) == StartsOf(s.io)
    ensures Good(t)
  {
    hide See, Starts, EventSpool.Terminals, EventSpool.Inv, Tasks, SttTasks, AudioLogs, InputLogs, Order, Buffer, P.Grammatical, Talk, Story, Context, Shown;
    ShownOk(d, ViewOf(s), ev);
    PendingKept(d, ViewOf(s), ev);
    MovedSound(d, ViewOf(s), StartsOf(s.io), s.config.history, ev, d.current.value, s.dialogue);
  }

  lemma PendingKept(d: Dialogue, v: View, ev: P.PipelineEvent)
    requires Talk(d, v) && d.current.Some? && P.Grammatical(d.delivered[d.epoch] + [ev])
    requires ev.ReasoningDelta? || ev.Audio? || ev.TtsStarted? || ev.TtsCompleted?
    ensures d.current.value.epoch == d.epoch && PendingAgrees(d.current.value, P.Next(P.Follow(d.delivered[d.epoch]), ev))
    ensures P.ToolPairs(d.delivered[d.epoch] + [ev])[|P.ToolPairs(d.delivered[d.epoch])|..] == []
  {
    P.FollowOne(d.delivered[d.epoch], ev);
    P.ToolPairsOne(d.delivered[d.epoch], ev);
  }

  lemma DeltaGood(s: Session, d: Dialogue, ev: P.PipelineEvent)
    requires Handling(s, d, ev) && ev.ReasoningDelta?
    ensures Good(Report(Say(s, Delta(d.epoch, ev.text)), EventSpool.ReasoningDelta, d.epoch))
  {
    hide See, Starts, EventSpool.Terminals, EventSpool.Inv, Tasks, SttTasks, AudioLogs, InputLogs, Order, Buffer, P.Grammatical, Sound, EmitEvent, EmitOutput, Observe;
    SayIo(s.io, Delta(d.epoch, ev.text));
    var told := Say(s, Delta(d.epoch, ev.text));
    ReportIo(told.io, EventSpool.Event(EventSpool.ReasoningDelta, d.epoch));
    assert StartsOf(s.io) + [] == StartsOf(s.io);
    ShowGood(s, d, ev, Report(told, EventSpool.ReasoningDelta, d.epoch));
  }

  lemma VoiceGood(s: Session, d: Dialogue, ev: P.PipelineEvent)
    requires Handling(s, d, ev) && ev.Audio?
    ensures Good(Say(if ev.sequence == 0 then Report(s, EventSpool.TtsFirstAudio, d.epoch) else s, Voice(d.epoch, ev.sequence, ev.bytes)))
  {
    hide See, Starts, EventSpool.Terminals, EventSpool.Inv, Tasks, SttTasks, AudioLogs, InputLogs, Order, Buffer, P.Grammatical, Sound, EmitEvent, EmitOutput, Observe;
    var first := if ev.sequence == 0 then Report(s, EventSpool.TtsFirstAudio, d.epoch) else s;
    ReportIo(s.io, EventSpool.Event(EventSpool.TtsFirstAudio, d.epoch));
    assert StartsOf(s.io) + [] == StartsOf(s.io);
    SayIo(first.io, Voice(d.epoch, ev.sequence, ev.bytes));
    ShowGood(s, d, ev, Say(first, Voice(d.epoch, ev.sequence, ev.bytes)));
  }

  /** An event that moves the response without an output: the new dialogue is sound at once. */
  lemma MoveGood(s: Session, d: Dialogue, ev: P.PipelineEvent, c': Current, t: Session)
    requires Handling(s, d, ev) && !ev.ReasoningDelta? && !ev.Audio? && !ev.Completed? && !ev.Failed?
    requires c'.epoch == d.epoch && PendingAgrees(c', P.Next(P.Follow(d.delivered[d.epoch]), ev))
    requires t == s.(dialogue := t.dialogue)
    requires var added := P.ToolPairs(d.delivered[d.epoch] + [ev])[|P.ToolPairs(d.delivered[d.epoch])|..];
             t.dialogue == s.dialogue.(current := Some(c'), pushed := d.pushed + added,
                                       history := Retained(d.history + added, s.config.history))
             || (added == [] && t.dialogue == s.dialogue.(current := Some(c')))
    ensures Mid(t, true) && Running(t)
  {
    hide See, Starts, EventSpool.Terminals, EventSpool.Inv, Tasks, SttTasks, AudioLogs, InputLogs, Order, Buffer, P.Grammatical, Talk, Story, Context, PendingAgrees, P.Follow, P.Next, P.ToolPairs, Retained;
    MovedSound(d, ViewOf(s), StartsOf(s.io), s.config.history, ev, c', t.dialogue);
    TasksFrame(s.dialogue, t.dialogue, s.control);
  }

  predicate PlainKind(kind: EventSpool.EventType) {
    !EventSpool.IsTerminal(EventSpool.Event(kind, 0)) && !kind.ReasoningStarted?
  }

  lemma MoveReported(s: Session, d: Dialogue, ev: P.PipelineEvent, c': Current, t: Session, kind: EventSpool.EventType, epoch: nat)
    requires Handling(s, d, ev) && !ev.ReasoningDelta? && !ev.Audio? && !ev.Completed? && !ev.Failed? && PlainKind(kind)
    requires c'.epoch == d.epoch && PendingAgrees(c', P.Next(P.Follow(d.delivered[d.epoch]), ev))
    requires t == s.(dialogue := t.dialogue)
    requires var added := P.ToolPairs(d.delivered[d.epoch] + [ev])[|P.ToolPairs(d.delivered[d.epoch])|..];
             t.dialogue == s.dialogue.(current := Some(c'), pushed := d.pushed + added,
                                       history := Retained(d.history + added, s.config.history))
             || (added == [] && t.dialogue == s.dialogue.(current := Some(c')))
    ensures Good(Report(t, kind, epoch))
  {
    MoveGood(s, d, ev, c', t);
    hide Mid, Handling, EmitEvent, PendingAgrees, P.Follow, P.Next, P.ToolPairs, Retained, See, StartsOf;
    ReportMid(t, kind, epoch, true);
    GoodAfter(Report(t, kind, epoch));
  }

  // ---------- each event ----------

  /** What the actor's pending fields say about the event that comes next. */
  ghost predicate Expected(c: Current, ev: P.PipelineEvent) {
    && (ev.ToolStarted? ==> c.pendingTool.None?)
    && (ev.ToolCompleted? || ev.ToolFailed? ==>
          c.pendingTool.Some? && c.pendingTool.value.callId == ev.callId && c.pendingTool.value.name == ev.name)
    && (ev.Completed? ==> c.pendingTool.None? && c.pendingAssistant.Some?)
  }

  /** The grammar of the task is what the actor's guards demand. */
  lemma ExpectedNext(d: Dialogue, v: View, ev: P.PipelineEvent)
    requires Talk(d, v) && d.current.Some? && P.Grammatical(d.delivered[d.epoch] + [ev])
    ensures Expected(d.current.value, ev) && d.current.value.epoch == d.epoch
  {
    P.FollowOne(d.delivered[d.epoch], ev);
  }

  /** The pending fields after an event. */
  function Updated(c: Current, ev: P.PipelineEvent): Current {
    match ev
    case ToolStarted(call) => c.(pendingTool := Some(call))
    case ToolCompleted(_, _, _, _) => c.(pendingTool := None)
    case ToolFailed(_, _) => c.(pendingTool := None)
    case ReasoningCompleted(text) => c.(pendingAssistant := Some(text))
    case _ => c
  }

  lemma UpdatedAgrees(d: Dialogue, v: View, ev: P.PipelineEvent)
    requires Talk(d, v) && d.current.Some? && P.Grammatical(d.delivered[d.epoch] + [ev]) && !ev.Completed? && !ev.Failed?
    ensures var c := d.current.value;
            && Updated(c, ev).epoch == d.epoch && PendingAgrees(Updated(c, ev), P.Next(P.Follow(d.delivered[d.epoch]), ev))
            && P.ToolPairs(d.delivered[d.epoch] + [ev])[|P.ToolPairs(d.delivered[d.epoch])|..]
               == if ev.ToolCompleted? && c.pendingTool.Some? then [P.PairOf(c.pendingTool.value, ev.output)] else []
  {
    P.FollowOne(d.delivered[d.epoch], ev);
    P.ToolPairsOne(d.delivered[d.epoch], ev);
    hide P.ToolPairs;
  }

  /** Events that neither show anything nor push anything. */
  lemma PlainGood(s: Session, d: Dialogue, ev: P.PipelineEvent, kind: EventSpool.EventType, epoch: nat)
    requires Handling(s, d, ev) && PlainKind(kind)
    requires ev.ToolStarted? || ev.ToolFailed? || ev.ReasoningCompleted? || ev.TtsStarted? || ev.TtsCompleted?
    ensures Good(Report(SetCurrent(s, Updated(d.current.value, ev)), kind, epoch))
  {
    hide Always, Story, Context, Order, Buffer, P.Follow, P.ToolPairs, P.Grammatical, P.Next, PendingAgrees, EmitEvent, Mid, See, Starts, Retained;
    UpdatedAgrees(d, ViewOf(s), ev);
    hide Talk, Updated;
    MoveReported(s, d, ev, Updated(d.current.value, ev), SetCurrent(s, Updated(d.current.value, ev)), kind, epoch);
  }

  lemma RefusedGood(s: Session, d: Dialogue, ev: P.PipelineEvent, t: Session)
    requires Handling(s, d, ev) && t == s.(dialogue := s.dialogue.(current := t.dialogue.current), io := Raise(s.io, HistoryBound))
    ensures Good(t)
  {
    hide See, Starts, EventSpool.Terminals, EventSpool.Inv, Tasks, SttTasks, AudioLogs, InputLogs, Order, Buffer, P.Grammatical, Sound;
    TasksFrame(s.dialogue, t.dialogue, s.control);
  }

  lemma ExchangeGood(s: Session, d: Dialogue, ev: P.PipelineEvent)
    requires Handling(s, d, ev) && ev.ToolCompleted? && d.current.value.pendingTool.Some?
    ensures var c := d.current.value;
            Good(Report(Push(SetCurrent(s, c.(pendingTool := None)), P.PairOf(c.pendingTool.value, ev.output)), EventSpool.ToolCompleted, c.epoch))
  {
    hide Always, Story, Context, Order, Buffer, P.Follow, P.ToolPairs, P.Grammatical, P.Next, PendingAgrees, EmitEvent, Mid, See, Starts, Retained, Fits, P.PairOf;
    var c := d.current.value;
    var pair := P.PairOf(c.pendingTool.value, ev.output);
    var t := Push(SetCurrent(s, c.(pendingTool := None)), pair);
    if Fits(pair, s.config.history) {
      UpdatedAgrees(d, ViewOf(s), ev);
      hide Talk;
      MoveReported(s, d, ev, c.(pendingTool := None), t, EventSpool.ToolCompleted, c.epoch);
    } else {
      hide Handling;
      RefusedGood(s, d, ev, t);
      ReportFaulted(t, EventSpool.ToolCompleted, c.epoch);
    }
  }

  lemma ReportFaulted(t: Session, kind: EventSpool.EventType, epoch: nat)
    requires Faulted(t)
    ensures Report(t, kind, epoch) == t
  {
  }

  /** A response completes: its text is pushed and the client told. */
  lemma FinishGood(s: Session, d: Dialogue, ev: P.PipelineEvent)
    requires Handling(s, d, ev) && ev.Completed? && Expected(d.current.value, ev) && d.current.value.epoch == d.epoch
    ensures Good(FinishResponse(s, d.current.value))
  {
    hide Always, Sound, Order, Buffer, P.Grammatical, EmitOutput, Mid, See, Starts, Retained, Fits;
    var c := d.current.value;
    if Fits([Assistant(c.pendingAssistant.value)], s.config.history) {
      FinishFits(s, d, c.pendingAssistant.value);
    } else {
      hide Handling;
      RefusedGood(s, d, ev, FinishResponse(s, c));
    }
  }

  lemma FinishFits(s: Session, d: Dialogue, text: string)
    requires Handling(s, d, P.Completed) && d.current.value == Current(d.epoch, Some(text), None) && Fits([Assistant(text)], s.config.history)
    ensures Good(FinishResponse(s, d.current.value))
  {
    hide See, Starts, EventSpool.Terminals, EventSpool.Inv, Tasks, SttTasks, AudioLogs, InputLogs, Order, Buffer, P.Grammatical, Talk, Story, Context,
         EmitOutput, Observe, Retained, Fits;
    var d' := s.dialogue.(current := None, answers := d.answers + [Answer(d.epoch, text)],
                          pushed := d.pushed + [[Assistant(text)]], history := Retained(d.history + [[Assistant(text)]], s.config.history));
    var o := ResponseCompleted(d.epoch, false);
    FinishSound(d, ViewOf(s), StartsOf(s.io), s.config.history, d', text);
    ObserveCompletion(d, ViewOf(s));
    TasksFrame(s.dialogue, d', s.control);
    OrderDrops(s.input, d.origins, ViewOf(s).finals, true);
    SayIo(s.io, o);
    assert FinishResponse(s, d.current.value) == s.(dialogue := d', io := EmitOutput(s.io, o));
  }

  lemma FailedLoop(s: Session, d: Dialogue, ev: P.PipelineEvent)
    requires Handling(s, d, ev)
    ensures Loop(FailSession(s)) && FailSession(s).input == s.input
  {
    hide Always, Sound, Order, Buffer, P.Grammatical, Loop, FailSession;
    FailAlways(s);
    FailInput(s);
  }

  lemma ApplyInput(s: Session, c: Current, ev: P.PipelineEvent)
    ensures ApplyPipeline(s, c, ev).input == s.input
  {
    hide EmitOutput, EmitEvent, Fits, Retained;
  }

  /** Which event a plain pipeline event is reported as. */
  function KindOf(ev: P.PipelineEvent): EventSpool.EventType {
    match ev
    case ToolStarted(_) => EventSpool.ToolStarted
    case ToolFailed(_, _) => EventSpool.ToolFailed
    case ReasoningCompleted(_) => EventSpool.ReasoningCompleted
    case TtsStarted => EventSpool.TtsStarted
    case _ => EventSpool.TtsCompleted
  }

  lemma PlainApplied(s: Session, c: Current, ev: P.PipelineEvent)
    requires Expected(c, ev) && !Faulted(s) && s.dialogue.current == Some(c)
    requires ev.ToolStarted? || ev.ToolFailed? || ev.ReasoningCompleted? || ev.TtsStarted? || ev.TtsCompleted?
    ensures ApplyPipeline(s, c, ev) == Report(SetCurrent(s, Updated(c, ev)), KindOf(ev), c.epoch)
  {
    hide EmitEvent, EmitOutput, Push, FinishResponse, FailSession;
    assert s.dialogue.(current := Some(c)) == s.dialogue;
  }

  /** Handling an event of the current response keeps the invariant; in particular it raises none
      of the faults that guard against overlapping, unmatched, mismatched or unfinished tools, or
      a completion without assistant text. */
  lemma ApplyGood(s: Session, d: Dialogue, ev: P.PipelineEvent)
    requires Handling(s, d, ev) && Expected(d.current.value, ev) && d.current.value.epoch == d.epoch && !ev.Failed?
    ensures Good(ApplyPipeline(s, d.current.value, ev))
  {
    hide Always, Sound, Order, Buffer, P.Grammatical, See, Starts, EmitEvent, EmitOutput, Good, Push, FinishResponse, FailSession;
    var c := d.current.value;
    if ev.ReasoningDelta? {
      DeltaGood(s, d, ev);
    } else if ev.Audio? {
      VoiceGood(s, d, ev);
    } else if ev.ToolCompleted? {
      ExchangeGood(s, d, ev);
    } else if ev.Completed? {
      FinishGood(s, d, ev);
    } else {
      PlainApplied(s, c, ev);
      PlainGood(s, d, ev, KindOf(ev), c.epoch);
    }
  }

  lemma ApplyLoop(s: Session, d: Dialogue, ev: P.PipelineEvent)
    requires Handling(s, d, ev)
    ensures Loop(ApplyPipeline(s, d.current.value, ev))
  {
    hide Always, Story, Context, Order, Buffer, P.Grammatical, P.Follow, PendingAgrees, Loop, Good, FailSession;
    ExpectedNext(d, ViewOf(s), ev);
    hide Handling, Expected;
    if ev.Failed? {
      FailedLoop(s, d, ev);
    } else {
      hide ApplyPipeline;
      ApplyGood(s, d, ev);
      GoodIsLoop(ApplyPipeline(s, d.current.value, ev));
    }
  }

  /** Taking a pipeline event off the lane and handling it. */
  lemma PipelineLoop(s: Session)
    requires Good(s) && Running(s) && s.control != [] && s.control[0].Pipeline?
    ensures var t := HandleControl(s.(control := s.control[1..]), s.control[0]);
            Loop(t) && t.input == s.input
  {
    hide Handling, Good, Loop, LogPipeline, ApplyPipeline;
    PipelineTaken(s);
    var e, ev := s.control[0].epoch, s.control[0].event;
    var t := LogPipeline(s.(control := s.control[1..]), e, ev);
    if s.dialogue.current.Some? && s.dialogue.current.value.epoch == e {
      ApplyLoop(t, s.dialogue, ev);
      ApplyInput(t, s.dialogue.current.value, ev);
    } else {
      GoodIsLoop(t);
    }
  }
}
