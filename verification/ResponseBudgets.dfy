/** Whatever its providers say, a response task passes on only what is within its budgets. */
module ResponseBudgets {
  import opened Common
  import opened ResponsePipeline
  import TtsText
  import History

  predicate DeltaOk(d: string, limits: Budgets) {
    0 < |d| <= limits.maxDelta
  }

  predicate FrameOk(f: seq<byte>, limits: Budgets) {
    0 < |f| <= limits.maxChunk && |f| % 2 == 0
  }

  predicate ReplyOk(text: string, limits: Budgets) {
    |text| <= limits.maxText && !TtsText.AllSpace(text)
  }

  /** Everything sent: deltas and frames of the allowed sizes, whole samples, audio within its total,
      at most sixteen well-formed tool calls, and a reply that is not blank. */
  ghost predicate SentOk(es: seq<PipelineEvent>, limits: Budgets) {
    && (forall d :: d in DeltaTexts(es) ==> DeltaOk(d, limits))
    && (forall f :: f in AudioFrames(es) ==> FrameOk(f, limits)) && |Concat(AudioFrames(es))| <= limits.maxAudio
    && (forall c :: c in StartedCalls(es) ==> ValidCall(c)) && |StartedCalls(es)| <= MAX_TOOL_CALLS
    && (forall k :: 0 <= k < |es| && es[k].ReasoningCompleted? ==> ReplyOk(es[k].text, limits))
  }

  /** What the task still means to send. */
  ghost predicate StageOk(t: Task, limits: Budgets) {
    && (forall c :: c in Outstanding(t.stage) ==> ValidCall(c))
    && match t.stage
       case Streaming(text, _) => |text| <= limits.maxText && |StartedCalls(t.emitted)| == t.totalToolCalls <= MAX_TOOL_CALLS
       case Dispatching(calls) => |StartedCalls(t.emitted)| + |calls| == t.totalToolCalls <= MAX_TOOL_CALLS
       case Executing(_, rest) => |StartedCalls(t.emitted)| + |rest| == t.totalToolCalls <= MAX_TOOL_CALLS
       case Announcing(text) => ReplyOk(text, limits)
       case Voicing(_, n) => n == |Concat(AudioFrames(t.emitted))|
       case OpeningVoice(_) => AudioFrames(t.emitted) == []
       case _ => true
  }

  ghost predicate Frugal(t: Task, limits: Budgets) {
    SentOk(t.emitted, limits) && StageOk(t, limits) && (!t.stage.Voicing? && !t.stage.ClosingVoice? && !t.stage.Completing? && !t.stage.Over? ==> AudioFrames(t.emitted) == [])
  }

  /** One more event, within the budgets, keeps everything sent within them. */
  lemma SentOne(es: seq<PipelineEvent>, e: PipelineEvent, limits: Budgets)
    requires SentOk(es, limits)
    requires e.ReasoningDelta? ==> DeltaOk(e.text, limits)
    requires e.Audio? ==> FrameOk(e.bytes, limits) && |Concat(AudioFrames(es))| + |e.bytes| <= limits.maxAudio
    requires e.ToolStarted? ==> ValidCall(e.call) && |StartedCalls(es)| < MAX_TOOL_CALLS
    requires e.ReasoningCompleted? ==> ReplyOk(e.text, limits)
    ensures SentOk(es + [e], limits)
  {
    EmittedOne(es, e);
    if e.Audio? {
      ConcatOne(AudioFrames(es), e.bytes);
    }
    hide DeltaTexts, AudioFrames, StartedCalls, Concat, ReplyOk, DeltaOk, FrameOk, ValidCall;
    forall k | 0 <= k < |es + [e]| && (es + [e])[k].ReasoningCompleted?
      ensures ReplyOk((es + [e])[k].text, limits)
    {
      if k < |es| {
        assert (es + [e])[k] == es[k];
      }
    }
  }

  lemma FrugalFails(t: Task, limits: Budgets)
    requires SentOk(t.emitted, limits)
    ensures Frugal(Fail(t), limits) && Frugal(t.(stage := Over), limits)
  {
    SentOne(t.emitted, Failed, limits);
    hide SentOk;
  }

  lemma FrugalDelta(t: Task, limits: Budgets, delta: string)
    requires Frugal(t, limits) && t.stage.Streaming? && DeltaOk(delta, limits) && |t.stage.roundText| + |delta| <= limits.maxText
    ensures Frugal(Emit(t, ReasoningDelta(delta), Streaming(t.stage.roundText + delta, t.stage.roundCalls)), limits)
  {
    hide SentOk, DeltaTexts, AudioFrames, StartedCalls, Concat, DeltaOk;
    SentOne(t.emitted, ReasoningDelta(delta), limits);
    EmittedOne(t.emitted, ReasoningDelta(delta));
  }

  lemma FrugalAsks(t: Task, limits: Budgets, call: Call)
    requires Frugal(t, limits) && t.stage.Streaming? && ValidCall(call)
    ensures Frugal(t.(stage := Streaming(t.stage.roundText, t.stage.roundCalls + [call])), limits)
  {
    hide SentOk, DeltaTexts, AudioFrames, StartedCalls, Concat, ValidCall;
  }

  lemma FrugalEnds(t: Task, limits: Budgets)
    requires Frugal(t, limits) && t.stage.Streaming?
    ensures Frugal(EndRound(t, t.stage.roundText, t.stage.roundCalls), limits)
  {
    hide SentOk, DeltaTexts, AudioFrames, StartedCalls, Concat, ValidCall, TtsText.AllSpace;
    FrugalFails(t, limits);
    FrugalFails(t.(totalToolCalls := t.totalToolCalls + |t.stage.roundCalls|), limits);
  }

  lemma FrugalStream(t: Task, limits: Budgets, i: Input)
    requires Frugal(t, limits) && t.stage.Streaming?
    ensures Frugal(StreamStep(t, limits, i), limits)
  {
    hide Frugal, EndRound, ValidCall;
    FrugalCut(t, limits);
    FrugalEnds(t, limits);
    if i.SaysDelta? && DeltaOk(i.delta, limits) && |t.stage.roundText| + |i.delta| <= limits.maxText {
      FrugalDelta(t, limits, i.delta);
    } else if i.SaysCall? && ValidCall(i.requested) {
      FrugalAsks(t, limits, i.requested);
    }
  }

  lemma FrugalTool(t: Task, limits: Budgets, i: Input)
    requires Frugal(t, limits) && t.stage.Executing?
    ensures Frugal(ToolStep(t, i), limits)
  {
    hide SentOk, DeltaTexts, AudioFrames, StartedCalls, Concat, ValidCall;
    var call := t.stage.call;
    if i.ToolReturns? {
      SentOne(t.emitted, ToolCompleted(call.callId, call.name, i.output, i.cached), limits);
      EmittedOne(t.emitted, ToolCompleted(call.callId, call.name, i.output, i.cached));
    } else if i.ToolErrs? {
      SentOne(t.emitted, ToolFailed(call.callId, call.name), limits);
      EmittedOne(t.emitted, ToolFailed(call.callId, call.name));
    }
  }

  lemma FrugalFrame(t: Task, limits: Budgets, bytes: seq<byte>)
    requires Frugal(t, limits) && t.stage.Voicing? && FrameOk(bytes, limits) && t.stage.audioBytes + |bytes| <= limits.maxAudio
    ensures Frugal(Emit(t, Audio(t.stage.sequence, bytes), Voicing(t.stage.sequence + 1, t.stage.audioBytes + |bytes|)), limits)
  {
    hide SentOk, DeltaTexts, AudioFrames, StartedCalls, Concat, FrameOk;
    SentOne(t.emitted, Audio(t.stage.sequence, bytes), limits);
    EmittedOne(t.emitted, Audio(t.stage.sequence, bytes));
    ConcatOne(AudioFrames(t.emitted), bytes);
  }

  lemma FrugalCloses(t: Task, limits: Budgets)
    requires Frugal(t, limits) && t.stage.Voicing?
    ensures Frugal(t.(stage := ClosingVoice), limits)
  {
    hide SentOk, DeltaTexts, AudioFrames, StartedCalls, Concat;
  }

  lemma FrugalVoice(t: Task, limits: Budgets, i: Input)
    requires Frugal(t, limits) && t.stage.Voicing?
    ensures Frugal(VoiceStep(t, limits, i), limits)
  {
    hide Frugal;
    FrugalCut(t, limits);
    FrugalCloses(t, limits);
    if i.TtsFrame? && FrameOk(i.bytes, limits) && t.stage.audioBytes + |i.bytes| <= limits.maxAudio {
      FrugalFrame(t, limits, i.bytes);
    }
  }

  lemma FrugalSays(t: Task, e: PipelineEvent, stage: Stage, limits: Budgets)
    requires Frugal(t, limits) && (e.TtsStarted? || e.TtsCompleted? || e.Completed? || (e.ReasoningCompleted? && ReplyOk(e.text, limits)))
    requires (e.ReasoningCompleted? && stage.OpeningVoice? && t.stage.Announcing?) || (e.TtsStarted? && stage == Voicing(0, 0) && t.stage.OpeningVoice?)
             || (e.TtsCompleted? && stage.Completing?) || (e.Completed? && stage.Over?)
    ensures Frugal(Emit(t, e, stage), limits)
  {
    hide SentOk, DeltaTexts, AudioFrames, StartedCalls, Concat;
    SentOne(t.emitted, e, limits);
    EmittedOne(t.emitted, e);
    NoFrames();
  }

  lemma NoFrames()
    ensures Concat<byte>([]) == []
  {
  }

  lemma FrugalDispatch(t: Task, limits: Budgets)
    requires Frugal(t, limits) && t.stage.Dispatching? && t.stage.calls != []
    ensures Frugal(Emit(t, ToolStarted(t.stage.calls[0]), Executing(t.stage.calls[0], t.stage.calls[1..])), limits)
  {
    hide SentOk, DeltaTexts, AudioFrames, StartedCalls, Concat, ValidCall;
    var calls := t.stage.calls;
    assert calls[0] in Outstanding(t.stage);
    SentOne(t.emitted, ToolStarted(calls[0]), limits);
    EmittedOne(t.emitted, ToolStarted(calls[0]));
    assert forall c :: c in calls[1..] ==> c in Outstanding(t.stage);
  }

  lemma FrugalLogged(t: Task, u: Task, limits: Budgets)
    requires Frugal(t, limits) && u.emitted == t.emitted && u.stage == t.stage && u.totalToolCalls == t.totalToolCalls
    ensures Frugal(u, limits)
  {
    hide SentOk, DeltaTexts, AudioFrames, StartedCalls, Concat;
  }

  lemma FrugalStep(t: Task, limits: Budgets, i: Input)
    requires Frugal(t, limits)
    ensures Frugal(Step(t, limits, i), limits)
  {
    hide Frugal, StreamStep, VoiceStep, ToolStep;
    if i.Cancelled? {
      FrugalCut(t, limits);
    } else {
      match t.stage
      case Streaming(_, _) =>
        FrugalLogged(t, t.(reasoned := t.reasoned + [i]), limits);
        FrugalStream(t.(reasoned := t.reasoned + [i]), limits, i);
      case Executing(_, _) =>
        FrugalLogged(t, t.(executed := t.executed + [i]), limits);
        FrugalTool(t.(executed := t.executed + [i]), limits, i);
      case Voicing(_, _) =>
        FrugalLogged(t, t.(sung := t.sung + [i]), limits);
        FrugalVoice(t.(sung := t.sung + [i]), limits, i);
      case _ => FrugalOther(t, limits, i);
    }
  }

  lemma FrugalCut(t: Task, limits: Budgets)
    requires Frugal(t, limits)
    ensures Frugal(t.(stage := Over), limits) && Frugal(Fail(t), limits)
  {
    FrugalFails(t, limits);
  }

  lemma FrugalOther(t: Task, limits: Budgets, i: Input)
    requires Frugal(t, limits) && !t.stage.Streaming? && !t.stage.Executing? && !t.stage.Voicing? && !i.Cancelled?
    ensures Frugal(Step(t, limits, i), limits)
  {
    hide Frugal, StreamStep, VoiceStep, ToolStep;
    if i.Proceed? {
      match t.stage
      case Dispatching(calls) =>
        if calls != [] {
          FrugalDispatch(t, limits);
        } else {
          FrugalRound(t, limits);
        }
      case ToolAborting => FrugalCut(t, limits);
      case Announcing(text) =>
        ReplyIs(t, limits);
        FrugalSays(t, ReasoningCompleted(text), OpeningVoice(text), limits);
      case OpeningVoice(_) => FrugalSays(t, TtsStarted, Voicing(0, 0), limits);
      case ClosingVoice => FrugalSays(t, TtsCompleted, Completing, limits);
      case Completing => FrugalSays(t, Completed, Over, limits);
      case Over =>
    }
  }

  lemma ReplyIs(t: Task, limits: Budgets)
    requires Frugal(t, limits) && t.stage.Announcing?
    ensures ReplyOk(t.stage.text, limits)
  {
  }

  lemma FrugalRound(t: Task, limits: Budgets)
    requires Frugal(t, limits) && t.stage == Dispatching([])
    ensures Frugal(t.(round := t.round + 1, stage := Streaming("", [])), limits)
  {
    hide SentOk, DeltaTexts, AudioFrames, StartedCalls, Concat;
  }

  /** Over every run of a task from its spawning: what was sent is within the budgets. */
  lemma {:induction false} RunFrugal(t: Task, limits: Budgets, inputs: seq<Input>)
    requires Frugal(t, limits)
    ensures Frugal(Run(t, limits, inputs), limits)
    decreases |inputs|
  {
    if inputs != [] {
      hide Frugal, Step;
      FrugalStep(t, limits, inputs[0]);
      RunFrugal(Step(t, limits, inputs[0]), limits, inputs[1..]);
    }
  }

  /** Whatever the providers say and wherever it is cut off, a task passes on, in order and unchanged,
      a prefix of the reasoner's deltas and calls, of the tools' outputs and of the synthesizer's
      frames, all of it within the budgets. */
  lemma PassesOn(request: seq<History.Message>, limits: Budgets, inputs: seq<Input>)
    ensures var u := Run(Spawn(request), limits, inputs);
            && DeltaTexts(u.emitted) <= SaidTexts(u.reasoned) && StartedCalls(u.emitted) <= AskedCalls(u.reasoned)
            && ToolOutputs(u.emitted) <= Returns(u.executed) && AudioFrames(u.emitted) <= SungFrames(u.sung)
            && (Follow(u.emitted).Finished? ==>
                  && DeltaTexts(u.emitted) == SaidTexts(u.reasoned) && StartedCalls(u.emitted) == AskedCalls(u.reasoned)
                  && ToolOutputs(u.emitted) == Returns(u.executed) && AudioFrames(u.emitted) == SungFrames(u.sung))
            && SentOk(u.emitted, limits)
  {
    var t := Spawn(request);
    SpawnOk(request);
    SpawnFrugal(request, limits);
    EveryRunIsGrammatical(t, limits, inputs);
    RunFrugal(t, limits, inputs);
    hide Run, Coherent, SentOk;
  }

  lemma SpawnFrugal(request: seq<History.Message>, limits: Budgets)
    ensures Frugal(Spawn(request), limits)
  {
  }
}
