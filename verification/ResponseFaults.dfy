/** A response task fails only for a cause, and for every cause: what its providers said to it decides. */
module ResponseFaults {
  import opened Common
  import opened ResponsePipeline
  import TtsText
  import History

  // ---------- the causes, from what was said ----------

  /** The text and the calls of the round in progress, and the rounds closed. */
  function RoundText(log: seq<Input>): string {
    if log == [] then ""
    else
      var prior, last := RoundText(log[..|log| - 1]), log[|log| - 1];
      if last.SaysDelta? then prior + last.delta else if last.SaysDone? then "" else prior
  }

  function RoundCalls(log: seq<Input>): seq<Call> {
    if log == [] then []
    else
      var prior, last := RoundCalls(log[..|log| - 1]), log[|log| - 1];
      if last.SaysCall? then prior + [last.requested] else if last.SaysDone? then [] else prior
  }

  function Rounds(log: seq<Input>): nat {
    if log == [] then 0 else Rounds(log[..|log| - 1]) + if log[|log| - 1].SaysDone? then 1 else 0
  }

  /** The reasoner breaks off, overruns a limit, asks for a malformed call, closes a round with
      nothing to say, asks for too many calls, or asks for calls in its last round. */
  predicate BadReasoning(log: seq<Input>, limits: Budgets) {
    log != []
    && var prior := log[..|log| - 1];
    match log[|log| - 1]
    case SaysDelta(delta) => delta == "" || |delta| > limits.maxDelta || |RoundText(prior)| + |delta| > limits.maxText
    case SaysCall(call) => !ValidCall(call)
    case SaysDone =>
      if RoundCalls(prior) == [] then TtsText.AllSpace(RoundText(prior))
      else |AskedCalls(prior)| > 16 || Rounds(prior) + 1 == 5
    case StreamEnds => true
    case Errs => true
    case TimesOut => true
    case _ => false
  }

  predicate BadTool(log: seq<Input>) {
    log != [] && log[|log| - 1].ToolErrs?
  }

  /** The synthesizer breaks off, ends without audio, or sends a frame that is empty, cut within a
      sample, or over a limit. */
  predicate BadVoice(log: seq<Input>, limits: Budgets) {
    log != []
    && var heard := |Concat(SungFrames(log[..|log| - 1]))|;
    match log[|log| - 1]
    case TtsFrame(bytes) => bytes == [] || |bytes| > limits.maxChunk || |bytes| % 2 != 0 || heard + |bytes| > limits.maxAudio
    case StreamEnds => heard == 0
    case Errs => true
    case TimesOut => true
    case _ => false
  }

  ghost predicate AtFault(t: Task, limits: Budgets) {
    BadReasoning(t.reasoned, limits) || BadTool(t.executed) || BadVoice(t.sung, limits)
  }

  // ---------- the invariant ----------

  predicate Silent(stage: Stage) {
    !stage.Voicing? && !stage.ClosingVoice? && !stage.Completing? && !stage.Over?
  }

  /** The task's own counts are those of what was said. */
  ghost predicate Tracks(t: Task) {
    && (Silent(t.stage) ==> t.sung == [])
    && match t.stage
       case Streaming(text, calls) =>
         && text == RoundText(t.reasoned) && calls == RoundCalls(t.reasoned) && t.round == Rounds(t.reasoned)
         && t.totalToolCalls + |calls| == |AskedCalls(t.reasoned)|
       case Dispatching(_) => Between(t)
       case Executing(_, _) => Between(t)
       case Voicing(_, n) => n == |Concat(SungFrames(t.sung))|
       case _ => true
  }

  ghost predicate Between(t: Task) {
    && RoundText(t.reasoned) == "" && RoundCalls(t.reasoned) == [] && Rounds(t.reasoned) == t.round + 1
    && t.totalToolCalls == |AskedCalls(t.reasoned)|
  }

  ghost predicate Sound(t: Task, limits: Budgets) {
    && Tracks(t) && (Failed in t.emitted ==> t.stage.Over? && AtFault(t, limits))
    && (!t.stage.Over? ==> (AtFault(t, limits) <==> t.stage.ToolAborting?))
  }

  /** How a step answers what was said: with a failure exactly if it is a cause for one. */
  ghost predicate Answers(t: Task, limits: Budgets, u: Task) {
    && Sound(u, limits)
    && (AtFault(u, limits) <==> u.emitted == t.emitted + [Failed] || u.stage.ToolAborting?)
  }

  lemma RoundOne(log: seq<Input>, i: Input)
    ensures RoundText(log + [i]) == if i.SaysDelta? then RoundText(log) + i.delta else if i.SaysDone? then "" else RoundText(log)
    ensures RoundCalls(log + [i]) == if i.SaysCall? then RoundCalls(log) + [i.requested] else if i.SaysDone? then [] else RoundCalls(log)
    ensures Rounds(log + [i]) == Rounds(log) + if i.SaysDone? then 1 else 0
    ensures (log + [i])[..|log|] == log
  {
    assert (log + [i])[..|log|] == log;
  }

  lemma NotFailed(es: seq<PipelineEvent>, e: PipelineEvent)
    requires Failed !in es
    ensures e.Failed? || Failed !in es + [e]
    ensures es + [e] != es && (e.Failed? <==> es + [e] == es + [Failed])
  {
    assert (es + [e])[|es|] == e;
  }

  lemma AnswersStream(t: Task, limits: Budgets, i: Input)
    requires Sound(t, limits) && t.stage.Streaming? && Failed !in t.emitted
    ensures Answers(t, limits, StreamStep(t.(reasoned := t.reasoned + [i]), limits, i))
  {
    RoundOne(t.reasoned, i);
    HeardOne(t.reasoned, i);
    hide RoundText, RoundCalls, Rounds, AskedCalls, SungFrames, Concat, TtsText.AllSpace;
    if i.SaysDelta? {
      NotFailed(t.emitted, ReasoningDelta(i.delta));
    }
  }

  lemma VoiceOne(log: seq<Input>, i: Input, limits: Budgets)
    ensures var heard := |Concat(SungFrames(log))|;
            && (BadVoice(log + [i], limits) <==>
                  || (i.TtsFrame? && (|i.bytes| == 0 || |i.bytes| > limits.maxChunk || |i.bytes| % 2 != 0 || heard + |i.bytes| > limits.maxAudio))
                  || (i.StreamEnds? && heard == 0) || i.Errs? || i.TimesOut?)
            && |Concat(SungFrames(log + [i]))| == heard + if i.TtsFrame? then |i.bytes| else 0
  {
    assert (log + [i])[..|log|] == log;
    HeardOne(log, i);
    hide SungFrames, Concat;
    if i.TtsFrame? {
      ConcatOne(SungFrames(log), i.bytes);
    }
  }

  lemma AnswersVoice(t: Task, limits: Budgets, i: Input)
    requires Sound(t, limits) && t.stage.Voicing? && Failed !in t.emitted
    ensures Answers(t, limits, VoiceStep(t.(sung := t.sung + [i]), limits, i))
  {
    hide BadReasoning, BadTool, BadVoice, SungFrames, Concat, Between;
    VoiceOne(t.sung, i, limits);
    if i.TtsFrame? {
      NotFailed(t.emitted, Audio(t.stage.sequence, i.bytes));
    }
  }

  lemma AnswersTool(t: Task, limits: Budgets, i: Input)
    requires Sound(t, limits) && t.stage.Executing? && Failed !in t.emitted
    ensures Answers(t, limits, ToolStep(t.(executed := t.executed + [i]), i))
  {
    hide BadReasoning, BadVoice, RoundText, RoundCalls, Rounds, AskedCalls, PairOf;
    var call := t.stage.call;
    if i.ToolReturns? {
      NotFailed(t.emitted, ToolCompleted(call.callId, call.name, i.output, i.cached));
    } else {
      NotFailed(t.emitted, ToolFailed(call.callId, call.name));
    }
  }

  /** In every other stage the task goes on by itself. */
  lemma AnswersItself(t: Task, limits: Budgets)
    requires Sound(t, limits) && !t.stage.Streaming? && !t.stage.Executing? && !t.stage.Voicing? && !t.stage.Over? && Failed !in t.emitted
    ensures Answers(t, limits, Step(t, limits, Proceed))
  {
    hide BadReasoning, BadTool, BadVoice, RoundText, RoundCalls, Rounds, AskedCalls;
    NoSound();
    hide SungFrames, Concat;
    var u := Step(t, limits, Proceed);
    if u.emitted != t.emitted {
      NotFailed(t.emitted, u.emitted[|t.emitted|]);
    }
  }

  lemma NoSound()
    ensures Concat(SungFrames([])) == []
  {
  }

  /** A step answers what was said to it with a failure exactly if it is a cause for one. */
  lemma FaultsAreAnswered(t: Task, limits: Budgets, i: Input)
    requires Sound(t, limits) && !t.stage.Over? && !i.Cancelled?
    ensures Answers(t, limits, Step(t, limits, i))
  {
    hide StreamStep, VoiceStep, ToolStep, Answers;
    match t.stage
    case Streaming(_, _) => AnswersStream(t, limits, i);
    case Executing(_, _) => AnswersTool(t, limits, i);
    case Voicing(_, _) => AnswersVoice(t, limits, i);
    case _ =>
      if i.Proceed? {
        AnswersItself(t, limits);
      } else {
        StaysPut(t, limits);
      }
  }

  lemma StaysPut(t: Task, limits: Budgets)
    requires Sound(t, limits) && !t.stage.Over?
    ensures Answers(t, limits, t)
  {
    hide AtFault, Tracks;
  }

  lemma SoundStep(t: Task, limits: Budgets, i: Input)
    requires Sound(t, limits)
    ensures Sound(Step(t, limits, i), limits)
  {
    hide StreamStep, VoiceStep, ToolStep, AtFault, RoundText, RoundCalls, Rounds, AskedCalls, SungFrames, Concat;
    if !t.stage.Over? && !i.Cancelled? {
      FaultsAreAnswered(t, limits, i);
    }
  }

  lemma {:induction false} RunSound(t: Task, limits: Budgets, inputs: seq<Input>)
    requires Sound(t, limits)
    ensures Sound(Run(t, limits, inputs), limits)
    decreases |inputs|
  {
    if inputs != [] {
      hide Sound, Step;
      SoundStep(t, limits, inputs[0]);
      RunSound(Step(t, limits, inputs[0]), limits, inputs[1..]);
    }
  }

  /** Over every run: a response that failed had a cause in the last thing a provider said, and with a
      cause a response has failed, is about to, or was cancelled. */
  lemma FailsForCause(request: seq<History.Message>, limits: Budgets, inputs: seq<Input>)
    ensures var u := Run(Spawn(request), limits, inputs);
            && (Failed in u.emitted ==> BadReasoning(u.reasoned, limits) || BadTool(u.executed) || BadVoice(u.sung, limits))
            && (BadReasoning(u.reasoned, limits) || BadTool(u.executed) || BadVoice(u.sung, limits) ==>
                  u.stage.Over? || u.stage.ToolAborting?)
  {
    assert Sound(Spawn(request), limits);
    RunSound(Spawn(request), limits, inputs);
    hide Run, Tracks;
  }
}
