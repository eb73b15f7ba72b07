/** What the session promises over whole runs: statements about every state the composed system
    can reach from its start, whatever clients, providers, sink and scheduler do. */
module SessionTheorems {
  import opened Common
  import opened History
  import opened ClientView
  import opened SessionModel
  import opened DialogueInvariant
  import opened ListeningInvariant
  import opened SessionSafety
  import opened SystemSafety
  import EventSpool
  import P = ResponsePipeline

  /** Reachable, with the 64-bit input epoch counter not yet saturated. */
  ghost predicate Reached(config: Config, steps: seq<Step>, s: Session) {
    EventSpool.ValidConfig(config.spool) && s == Run(Begin(config), steps) && s.input.epoch < U64_MAX
  }

  lemma ReachedInv(config: Config, steps: seq<Step>, s: Session)
    requires Reached(config, steps, s)
    ensures Inv(s)
  {
    hide Inv, Run;
    BeginInv(config);
    RunInv(Begin(config), steps);
  }

  // ---------- terminal events ----------

  /** At every moment a terminal event is the last accepted one, so there is at most one and
      nothing is accepted after it. */
  lemma TerminalIsLast(config: Config, steps: seq<Step>, s: Session)
    requires Reached(config, steps, s)
    ensures forall i :: 0 <= i < |s.io.spool.accepted| - 1 ==> !EventSpool.IsTerminal(s.io.spool.accepted[i].event)
  {
    hide Reached, Always, Loop, Lanes, Told, Clean;
    ReachedInv(config, steps, s);
    if s.life.Booting? || s.life.Live? {
      LoopVerdict(s);
    }
  }

  /** The transport is closed with code 1000 exactly for the outcome Flushed. */
  function CloseCode(outcome: Outcome): nat {
    if outcome.Flushed? then 1000 else 1011
  }

  /** A session closed with code 1000 had every accepted event acknowledged, in order, and they
      end in one session.completed or session.canceled with no other terminal event. */
  lemma FlushedMeansPersisted(config: Config, steps: seq<Step>, s: Session)
    requires Reached(config, steps, s) && s.life.Over? && CloseCode(s.outcome) == 1000
    ensures s.io.spool.acked == s.io.spool.accepted && s.io.spool.acked != []
    ensures var last := s.io.spool.acked[|s.io.spool.acked| - 1].event.kind;
            last.SessionCompleted? || last.SessionCanceled?
    ensures forall i :: 0 <= i < |s.io.spool.acked| ==> !s.io.spool.acked[i].event.kind.SessionFailed?
    ensures forall i :: 0 <= i < |s.io.spool.acked| ==> s.io.spool.acked[i].sequence == i + 1
  {
    TerminalIsLast(config, steps, s);
    hide Reached, Tasks, SttTasks, AudioLogs, InputLogs, Lanes, Told, See;
    ReachedInv(config, steps, s);
    StoppedDelivered(s.io.spool);
  }

  /** And a session is closed so exactly when that is so: when its worker has stopped, it is reported
      flushed exactly if everything was acknowledged and an orderly end is among it. */
  lemma FlushedIff(config: Config, steps: seq<Step>, s: Session)
    requires Reached(config, steps, s) && s.life.Flushing? && s.io.spool.worker.Stopped?
    ensures var t := Next(s, Join);
            && t.life.Over?
            && (CloseCode(t.outcome) == 1000 <==> s.io.spool.acked == s.io.spool.accepted && EndsOrderly(s.io.spool.accepted))
  {
    TerminalIsLast(config, steps, s);
    hide Reached, Tasks, SttTasks, AudioLogs, InputLogs, Lanes, Told, See;
    ReachedInv(config, steps, s);
    StoppedVerdict(s.io.spool);
    CleanIffOrderly(s.io.spool.accepted);
  }

  lemma StoppedVerdict(spool: EventSpool.Spool)
    requires EventSpool.Inv(spool) && spool.worker.Stopped?
    ensures spool.worker.delivered <==> spool.acked == spool.accepted
  {
    hide EventSpool.PermitsOk, EventSpool.SlotsOk, EventSpool.CallsOk;
    assert spool.acked + [] + [] == spool.acked;
  }

  lemma CleanIffOrderly(accepted: seq<EventSpool.Sealed>)
    requires TerminalLast(accepted)
    ensures Clean(accepted) <==> EndsOrderly(accepted)
  {
    if EndsOrderly(accepted) {
      OrderlyIsClean(accepted);
    }
  }

  lemma StoppedDelivered(spool: EventSpool.Spool)
    requires EventSpool.Inv(spool) && spool.worker == EventSpool.Stopped(true)
    ensures spool.acked == spool.accepted
    ensures forall i :: 0 <= i < |spool.accepted| ==> spool.accepted[i].sequence == i + 1
  {
    hide EventSpool.PermitsOk, EventSpool.SlotsOk, EventSpool.WorkerOk, EventSpool.CallsOk;
    assert spool.acked + [] + [] == spool.acked;
  }

  // ---------- epoch fencing ----------

  /** What a client receives is fenced: response epochs never go back, nothing of a response
      follows its completion, and each response's audio is numbered from zero without gaps. */
  lemma OutputsAreFenced(config: Config, steps: seq<Step>, s: Session, epoch: nat)
    requires Reached(config, steps, s)
    ensures EpochsAscend(s.io.outputs) && NothingAfterCompletion(s.io.outputs)
    ensures exists k: nat :: VoiceNumbers(s.io.outputs, epoch) == FromZero(k)
  {
    hide Reached, Stage, Lanes, See, Tasks, SttTasks, AudioLogs, InputLogs;
    ReachedInv(config, steps, s);
    AcceptedLogIsFenced(s.io.outputs);
    AcceptedFramesCount(s.io.outputs, epoch);
  }

  // ---------- response tasks and the actor ----------

  /** The branches that guard against an ill-behaved response task are never taken: the only
      errors are a refused output, a refused event and a message too large for the history. */
  lemma GuardsNeverFire(config: Config, steps: seq<Step>, s: Session)
    requires Reached(config, steps, s) && s.io.fault.Some?
    ensures var f := s.io.fault.value;
            f == OutputRefused || f == EventRefused || f == HistoryBound
  {
    hide Reached, Stage, Lanes, See, Tasks, SttTasks, AudioLogs, InputLogs;
    ReachedInv(config, steps, s);
  }

  /** Whatever has been sent by a response task follows the grammar, and what the actor has taken
      off its lane is a prefix of it. */
  lemma EmissionsFollowGrammar(config: Config, steps: seq<Step>, s: Session, e: nat)
    requires Reached(config, steps, s) && e in s.dialogue.tasks
    ensures P.Grammatical(s.dialogue.tasks[e].emitted)
    ensures e in s.dialogue.delivered && s.dialogue.delivered[e] <= s.dialogue.tasks[e].emitted
  {
    hide Reached, Stage, Lanes, See, SttTasks, AudioLogs, InputLogs;
    ReachedInv(config, steps, s);
    assert TaskLogged(s.dialogue, s.control, e);
    P.TaskOkGrammar(s.dialogue.tasks[e]);
  }

  /** While a response is under way its task first asked with the retained history before the turn
      followed by the user's text; and the actor's history is a group-aligned suffix of what the
      task asks with after the tool calls the actor has processed. */
  lemma ContextAgrees(config: Config, steps: seq<Step>, s: Session)
    requires Reached(config, steps, s) && s.life.Live? && Running(s) && s.dialogue.current.Some?
    ensures var e := s.dialogue.current.value.epoch;
            && e in s.dialogue.tasks && e in s.dialogue.turns && e in s.dialogue.delivered
            && var task, turn, pairs := s.dialogue.tasks[e], s.dialogue.turns[e], P.ToolPairs(s.dialogue.delivered[e]);
            var before := Retained(turn.before, s.config.history);
            && task.initial == Concat(before) + [User(turn.text)]
            && pairs <= P.ToolPairs(task.emitted) && task.request == task.initial + Concat(P.ToolPairs(task.emitted))
            && IsSuffix(s.dialogue.history, before + [[User(turn.text)]] + pairs)
            && IsSuffix(Concat(s.dialogue.history), task.initial + Concat(pairs))
  {
    hide Reached, Lanes, See, SttTasks, AudioLogs, InputLogs, Buffer, Order, Story, Starts, Clean, Told, EventSpool.Terminals, EventSpool.Inv,
         P.Follow, PendingAgrees, P.ToolPairs, Retained;
    ReachedInv(config, steps, s);
    CurrentContext(s.dialogue, s.control, ViewOf(s), s.config.history);
  }

  lemma CurrentContext(d: Dialogue, control: seq<Command>, v: View, limits: Limits)
    requires Tasks(d, control) && Talk(d, v) && Context(d, limits) && d.current.Some?
    ensures var e := d.current.value.epoch;
            && e in d.tasks && e in d.turns && e in d.delivered
            && var task, turn, pairs := d.tasks[e], d.turns[e], P.ToolPairs(d.delivered[e]);
            var before := Retained(turn.before, limits);
            && task.initial == Concat(before) + [User(turn.text)]
            && pairs <= P.ToolPairs(task.emitted) && task.request == task.initial + Concat(P.ToolPairs(task.emitted))
            && IsSuffix(d.history, before + [[User(turn.text)]] + pairs)
            && IsSuffix(Concat(d.history), task.initial + Concat(pairs))
  {
    hide P.Follow, PendingAgrees, P.ToolPairs, Retained, Concat, PipelineOf, P.StageAgrees;
    var e := d.epoch;
    assert TaskLogged(d, control, e);
    P.ToolPairsPrefix(d.delivered[e], PipelineOf(control, e));
    SuffixOfRequest(d.turns[e].before, d.turns[e].text, P.ToolPairs(d.delivered[e]), limits);
  }

  lemma SuffixOfRequest(before: seq<Group>, text: string, pairs: seq<Group>, limits: Limits)
    ensures var kept := Retained(before, limits);
            var history := Retained(before + [[User(text)]] + pairs, limits);
            && IsSuffix(history, kept + [[User(text)]] + pairs)
            && IsSuffix(Concat(history), Concat(kept) + [User(text)] + Concat(pairs))
  {
    hide Retained, Concat;
    var kept := Retained(before, limits);
    var user := [[User(text)]];
    assert before + user + pairs == before + (user + pairs) && kept + user + pairs == kept + (user + pairs);
    RetainedSuffix(before, user + pairs, limits);
    ConcatAppend(kept + user, pairs);
    ConcatOne(kept, [User(text)]);
    ConcatSuffix(Retained(before + user + pairs, limits), kept + user + pairs);
  }

  /** While the loop runs, the history is the longest group-aligned suffix of everything pushed
      that fits both bounds. */
  lemma HistoryIsLongestSuffix(config: Config, steps: seq<Step>, s: Session, k: nat)
    requires Reached(config, steps, s) && s.life.Live? && Running(s)
    ensures IsSuffix(s.dialogue.history, s.dialogue.pushed) && Fits(Concat(s.dialogue.history), s.config.history)
    ensures k <= |s.dialogue.pushed| && Fits(Concat(s.dialogue.pushed[k..]), s.config.history) ==>
              |s.dialogue.pushed| - k <= |s.dialogue.history|
  {
    hide Reached, Always, Lanes, See, Buffer, Order, Story, Talk, Starts, Clean, Told, EventSpool.Terminals, P.ToolPairs, Retained, Fits, Concat;
    ReachedInv(config, steps, s);
    RetainedIsLongest(s.dialogue.pushed, s.config.history);
  }

  // ---------- the whole story ----------

  /** The completions a client receives, in order: all of them, or only the uninterrupted ones. */
  function Completions(outputs: seq<Output>, all: bool): seq<nat> {
    if outputs == [] then []
    else
      var last := outputs[|outputs| - 1];
      Completions(outputs[..|outputs| - 1], all)
      + (if last.ResponseCompleted? && (all || !last.interrupted) then [last.epoch] else [])
  }

  lemma {:induction false} CompletionsSeen(outputs: seq<Output>)
    ensures See(outputs).completed == Completions(outputs, true)
    ensures See(outputs).answered == Completions(outputs, false)
  {
    if outputs != [] {
      CompletionsSeen(outputs[..|outputs| - 1]);
    }
  }

  ghost predicate EndsOrderly(accepted: seq<EventSpool.Sealed>) {
    exists i :: 0 <= i < |accepted| && (accepted[i].event.kind.SessionCompleted? || accepted[i].event.kind.SessionCanceled?)
  }

  lemma OrderlyStory(config: Config, steps: seq<Step>, s: Session)
    requires Reached(config, steps, s) && EndsOrderly(s.io.spool.accepted)
    ensures Always(s) && Told(s)
  {
    TerminalIsLast(config, steps, s);
    hide Reached, Always, Lanes, Told, Going, Stage, EventSpool.IsTerminal;
    ReachedInv(config, steps, s);
    OrderlyIsClean(s.io.spool.accepted);
    CleanNotLooping(s);
  }

  lemma OrderlyIsClean(accepted: seq<EventSpool.Sealed>)
    requires EndsOrderly(accepted) && TerminalLast(accepted)
    ensures Clean(accepted)
  {
    var prior := accepted[..|accepted| - 1];
    NoneCounted(prior);
    assert accepted == prior + [accepted[|accepted| - 1]];
    EventSpool.TerminalsAppend(prior, accepted[|accepted| - 1]);
  }

  lemma {:induction false} NoneCounted(accepted: seq<EventSpool.Sealed>)
    requires forall i :: 0 <= i < |accepted| ==> !EventSpool.IsTerminal(accepted[i].event)
    ensures EventSpool.Terminals(accepted) == 0
  {
    if accepted != [] {
      NoneCounted(accepted[..|accepted| - 1]);
    }
  }

  lemma CleanNotLooping(s: Session)
    requires Stage(s) && Clean(s.io.spool.accepted)
    ensures Told(s)
  {
    hide Always, Story, Going, TerminalLast;
  }

  /** In a run that ends in session.completed or session.canceled, every announced response was
      completed exactly once, in the order announced; and the assistant messages ever pushed are,
      in order, the final-round deltas of the responses completed uninterrupted. */
  lemma EveryResponseCompletes(config: Config, steps: seq<Step>, s: Session)
    requires Reached(config, steps, s) && EndsOrderly(s.io.spool.accepted)
    ensures var announced := Starts(s.io.spool.accepted);
            announced == Completions(s.io.outputs, true) && Distinct(announced)
    ensures var answered := Completions(s.io.outputs, false);
            && (forall i :: 0 <= i < |answered| ==> answered[i] in s.dialogue.tasks)
            && AssistantTexts(s.dialogue.pushed)
               == seq(|answered|, i requires 0 <= i < |answered| && answered[i] in s.dialogue.tasks =>
                        P.FinalRoundText(s.dialogue.tasks[answered[i]].emitted))
  {
    hide Reached, EndsOrderly, See, Starts, SttTasks, AudioLogs, InputLogs, Tasks, AssistantTexts, Answered, Completions, EventSpool.Inv, P.FinalRoundText;
    OrderlyStory(config, steps, s);
    CompletionsSeen(s.io.outputs);
    AnswersToldInOrder(s);
  }

  lemma AnswersToldInOrder(s: Session)
    requires Always(s) && Told(s)
    ensures Distinct(Starts(s.io.spool.accepted)) && Starts(s.io.spool.accepted) == ViewOf(s).completed
    ensures var answered := ViewOf(s).answered;
            && (forall i :: 0 <= i < |answered| ==> answered[i] in s.dialogue.tasks)
            && AssistantTexts(s.dialogue.pushed)
               == seq(|answered|, i requires 0 <= i < |answered| && answered[i] in s.dialogue.tasks =>
                        P.FinalRoundText(s.dialogue.tasks[answered[i]].emitted))
  {
    hide See, Starts, SttTasks, AudioLogs, InputLogs, Tasks, AssistantTexts, Answered, EventSpool.Inv, P.FinalRoundText;
    forall i | 0 <= i < |s.dialogue.answers|
      ensures s.dialogue.answers[i].epoch in s.dialogue.tasks
      ensures s.dialogue.answers[i].text == P.FinalRoundText(s.dialogue.tasks[s.dialogue.answers[i].epoch].emitted)
    {
      AnswerIsFinalRound(s.dialogue, s.control, s.dialogue.answers[i]);
    }
  }

  lemma AnswerIsFinalRound(d: Dialogue, control: seq<Command>, a: Answer)
    requires Tasks(d, control) && Answered(d, a)
    ensures a.epoch in d.tasks && a.text == P.FinalRoundText(d.tasks[a.epoch].emitted)
  {
    assert TaskLogged(d, control, a.epoch);
    P.TaskOkGrammar(d.tasks[a.epoch]);
    P.FinishedIsLast(d.delivered[a.epoch], PipelineOf(control, a.epoch));
    assert d.delivered[a.epoch] == d.tasks[a.epoch].emitted;
    P.TrackedTextIsFinalRound(d.tasks[a.epoch].emitted);
  }

  // ---------- input fencing ----------

  /** The turns whose final transcript a client receives, in order. */
  function Finals(outputs: seq<Output>): seq<nat> {
    if outputs == [] then []
    else
      var last := outputs[|outputs| - 1];
      Finals(outputs[..|outputs| - 1]) + (if last.Transcript? && last.isFinal then [last.turn] else [])
  }

  lemma {:induction false} FinalsSeen(outputs: seq<Output>)
    ensures See(outputs).finals == Finals(outputs)
  {
    if outputs != [] {
      FinalsSeen(outputs[..|outputs| - 1]);
    }
  }

  /** Each input epoch has at most one commit, one final transcript and one response; so responses
      never outnumber inputs, and starting one never supersedes another. */
  lemma InputsAreFenced(config: Config, steps: seq<Step>, s: Session)
    requires Reached(config, steps, s)
    ensures Ascending(CommitEpochs(s.input.commits)) && Ascending(Finals(s.io.outputs)) && Ascending(s.dialogue.origins)
    ensures |s.dialogue.origins| == s.dialogue.epoch <= s.input.epoch
    ensures s.dialogue.superseded == 0
  {
    hide Reached, Stage, Lanes, See, Tasks, SttTasks, Starts, Ascending, Last;
    ReachedInv(config, steps, s);
    FinalsSeen(s.io.outputs);
    AscendingBound(s.dialogue.origins, s.input.epoch);
  }

  /** What is handed to transcription for a committed epoch is exactly the frames heard in it, in
      order: nonempty, whole samples, within the budget. */
  lemma TranscribedAudioIsFaithful(config: Config, steps: seq<Step>, s: Session, k: nat)
    requires Reached(config, steps, s) && k < |s.input.commits|
    ensures var e := s.input.commits[k].epoch;
            && e in s.input.tasks
            && var audio := s.input.tasks[e].audio;
            audio == Concat(FramesOf(s.input.heard, e)) && 0 < |audio| <= s.config.maxBufferedAudio && |audio| % 2 == 0
  {
    hide Reached, Stage, Lanes, See, Tasks, SttTasks, Starts, InputLogs, FramesOf;
    ReachedInv(config, steps, s);
    assert Faithful(s.input, s.input.commits[k].epoch, s.config.maxBufferedAudio);
  }
}
