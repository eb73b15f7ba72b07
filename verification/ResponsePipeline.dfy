/** The task that produces one response: reasoning rounds with tool calls, then speech. It is a
    step machine whose provider answers are arbitrary and which may be cut short at any point;
    its emissions are proved to follow one fixed grammar. */
module ResponsePipeline {
  import opened Common
  import opened Json
  import opened History
  import TtsText

  const MAX_REASONING_ROUNDS: nat := 5
  const MAX_TOOL_CALLS: nat := 16

  datatype Call = Call(callId: string, name: string, input: Value)

  datatype PipelineEvent =
    | ReasoningDelta(text: string)
    | ToolStarted(call: Call)
    | ToolCompleted(callId: string, name: string, output: Value, cached: bool)
    | ToolFailed(callId: string, name: string)
    | ReasoningCompleted(text: string)
    | TtsStarted
    | Audio(sequence: nat, bytes: seq<byte>)
    | TtsCompleted
    | Completed
    | Failed

  // ---------- the grammar of emissions ----------

  /** Where a response stands after a sequence of emissions. */
  datatype Progress =
    | Reasoning(text: string)               // deltas of the round in progress
    | InTool(call: Call)                    // a tool call started and not finished
    | ToolBroken
    | Reasoned(text: string)
    | Speaking(text: string, frames: nat)
    | Spoken(text: string, frames: nat)
    | Finished(text: string, frames: nat)
    | Broken
    | OffGrammar

  function Next(p: Progress, e: PipelineEvent): Progress {
    match e
    case ReasoningDelta(text) => if p.Reasoning? then Reasoning(p.text + text) else OffGrammar
    case ToolStarted(call) => if p.Reasoning? then InTool(call) else OffGrammar
    case ToolCompleted(id, name, _, _) =>
      if p.InTool? && p.call.callId == id && p.call.name == name then Reasoning("") else OffGrammar
    case ToolFailed(id, name) =>
      if p.InTool? && p.call.callId == id && p.call.name == name then ToolBroken else OffGrammar
    case ReasoningCompleted(text) => if p.Reasoning? && p.text == text then Reasoned(text) else OffGrammar
    case TtsStarted => if p.Reasoned? then Speaking(p.text, 0) else OffGrammar
    case Audio(n, _) => if p.Speaking? && p.frames == n then Speaking(p.text, n + 1) else OffGrammar
    case TtsCompleted => if p.Speaking? && p.frames > 0 then Spoken(p.text, p.frames) else OffGrammar
    case Completed => if p.Spoken? then Finished(p.text, p.frames) else OffGrammar
    case Failed => if p.Reasoning? || p.ToolBroken? || p.Speaking? then Broken else OffGrammar
  }

  function Follow(es: seq<PipelineEvent>): Progress {
    if es == [] then Reasoning("") else Next(Follow(es[..|es| - 1]), es[|es| - 1])
  }

  predicate Grammatical(es: seq<PipelineEvent>) {
    Follow(es) != OffGrammar
  }

  lemma FollowOne(es: seq<PipelineEvent>, e: PipelineEvent)
    ensures Follow(es + [e]) == Next(Follow(es), e)
  {
    assert (es + [e])[..|es|] == es;
  }

  /** The grammar is closed under cutting emissions short. */
  lemma {:induction false} GrammarPrefix(es: seq<PipelineEvent>, more: seq<PipelineEvent>)
    requires Grammatical(es + more)
    ensures Grammatical(es)
    decreases |more|
  {
    if more == [] {
      assert es + more == es;
    } else {
      var shorter := more[..|more| - 1];
      assert (es + more)[..|es + more| - 1] == es + shorter;
      GrammarPrefix(es, shorter);
    }
  }

  /** After a response has finished or broken off, nothing more is grammatical. */
  lemma FinishedIsLast(es: seq<PipelineEvent>, more: seq<PipelineEvent>)
    requires Grammatical(es + more) && (Follow(es).Finished? || Follow(es).Broken?)
    ensures more == []
  {
    if more != [] {
      assert es + more == (es + [more[0]]) + more[1..];
      GrammarPrefix(es + [more[0]], more[1..]);
      FollowOne(es, more[0]);
    }
  }

  /** Audio frames emitted so far. */
  function Frames(p: Progress): nat {
    if p.Speaking? || p.Spoken? || p.Finished? then p.frames else 0
  }

  // ---------- an independent reading of the emissions ----------

  predicate IsToolEvent(e: PipelineEvent) {
    e.ToolStarted? || e.ToolCompleted? || e.ToolFailed?
  }

  /** The deltas after the last tool event, concatenated: the final round's text. */
  function FinalRoundText(es: seq<PipelineEvent>): string {
    if es == [] then ""
    else
      var last := es[|es| - 1];
      if IsToolEvent(last) then ""
      else FinalRoundText(es[..|es| - 1]) + (if last.ReasoningDelta? then last.text else "")
  }

  /** The text a response is tracked with is exactly its final round's deltas. */
  lemma {:induction false} TrackedTextIsFinalRound(es: seq<PipelineEvent>)
    requires Grammatical(es)
    ensures var p := Follow(es);
            p.Reasoning? || p.Reasoned? || p.Speaking? || p.Spoken? || p.Finished? ==> p.text == FinalRoundText(es)
  {
    if es != [] {
      var prior := es[..|es| - 1];
      assert es == prior + [es[|es| - 1]];
      GrammarPrefix(prior, [es[|es| - 1]]);
      TrackedTextIsFinalRound(prior);
      assert FinalRoundText(prior) + "" == FinalRoundText(prior);
    }
  }

  /** The tool exchanges completed so far, as the history groups they become. */
  function ToolPairs(es: seq<PipelineEvent>): seq<Group> {
    if es == [] then []
    else
      var prior, last := es[..|es| - 1], es[|es| - 1];
      if last.ToolCompleted? && Follow(prior).InTool? then
        ToolPairs(prior) + [PairOf(Follow(prior).call, last.output)]
      else ToolPairs(prior)
  }

  function PairOf(call: Call, output: Value): Group {
    [ToolCall(call.callId, call.name, call.input), ToolResult(call.callId, call.name, output)]
  }

  lemma ToolPairsOne(es: seq<PipelineEvent>, e: PipelineEvent)
    ensures ToolPairs(es + [e]) ==
              ToolPairs(es) + (if e.ToolCompleted? && Follow(es).InTool? then [PairOf(Follow(es).call, e.output)] else [])
  {
    assert (es + [e])[..|es|] == es;
  }

  /** Longer emissions only add exchanges at the end. */
  lemma {:induction false} ToolPairsPrefix(es: seq<PipelineEvent>, more: seq<PipelineEvent>)
    ensures ToolPairs(es) <= ToolPairs(es + more)
    decreases |more|
  {
    if more == [] {
      assert es + more == es;
    } else {
      var shorter := more[..|more| - 1];
      assert es + more == (es + shorter) + [more[|more| - 1]];
      ToolPairsPrefix(es, shorter);
      ToolPairsOne(es + shorter, more[|more| - 1]);
    }
  }

  // ---------- the task ----------

  datatype Budgets = Budgets(maxDelta: nat, maxText: nat, maxChunk: nat, maxAudio: nat)

  datatype Stage =
    | Streaming(roundText: string, roundCalls: seq<Call>)
    | Dispatching(calls: seq<Call>)
    | Executing(call: Call, rest: seq<Call>)
    | ToolAborting
    | Announcing(text: string)
    | OpeningVoice(text: string)
    | Voicing(sequence: nat, audioBytes: nat)
    | ClosingVoice
    | Completing
    | Over

  datatype Task = Task(
    initial: seq<Message>,            // the first reasoner request
    request: seq<Message>,
    round: nat,
    totalToolCalls: nat,
    stage: Stage,
    emitted: seq<PipelineEvent>,
    // what the providers have said to it, each where it was listened to
    reasoned: seq<Input>,
    executed: seq<Input>,
    sung: seq<Input>)

  function Spawn(request: seq<Message>): Task {
    Task(request, request, 0, 0, Streaming("", []), [], [], [], [])
  }

  /** What the providers answer, or that the task noticed its cancellation. */
  datatype Input =
    | SaysDelta(delta: string) | SaysCall(requested: Call) | SaysDone | StreamEnds | Errs | ErrsCancelled | TimesOut
    | ToolReturns(output: Value, cached: bool) | ToolErrs
    | TtsFrame(bytes: seq<byte>)
    | Proceed
    | Cancelled

  function Emit(t: Task, e: PipelineEvent, stage: Stage): Task {
    t.(emitted := t.emitted + [e], stage := stage)
  }

  function Fail(t: Task): Task {
    Emit(t, Failed, Over)
  }

  predicate ValidCall(c: Call) {
    0 < |c.callId| <= 160 && 0 < |c.name| <= 64 && c.input.Obj?
  }

  /** The reasoner closed a round. */
  function EndRound(t: Task, text: string, calls: seq<Call>): Task {
    if calls == [] then
      if TtsText.AllSpace(text) then Fail(t) else t.(stage := Announcing(text))
    else
      var total := t.totalToolCalls + |calls|;
      if total > MAX_TOOL_CALLS || t.round + 1 == MAX_REASONING_ROUNDS then Fail(t.(totalToolCalls := total))
      else t.(totalToolCalls := total, stage := Dispatching(calls))
  }

  function StreamStep(t: Task, limits: Budgets, i: Input): Task
    requires t.stage.Streaming?
  {
    var text, calls := t.stage.roundText, t.stage.roundCalls;
    match i
    case SaysDelta(delta) =>
      if |delta| == 0 || |delta| > limits.maxDelta || |text| + |delta| > limits.maxText then Fail(t)
      else Emit(t, ReasoningDelta(delta), Streaming(text + delta, calls))
    case SaysCall(call) =>
      if ValidCall(call) then t.(stage := Streaming(text, calls + [call])) else Fail(t)
    case SaysDone => EndRound(t, text, calls)
    case StreamEnds => Fail(t)
    case Errs => Fail(t)
    case TimesOut => Fail(t)
    case ErrsCancelled => t.(stage := Over)
    case _ => t
  }

  function VoiceStep(t: Task, limits: Budgets, i: Input): Task
    requires t.stage.Voicing?
  {
    match i
    case TtsFrame(bytes) =>
      var total := t.stage.audioBytes + |bytes|;
      if |bytes| == 0 || |bytes| > limits.maxChunk || |bytes| % 2 != 0 || total > limits.maxAudio then Fail(t)
      else Emit(t, Audio(t.stage.sequence, bytes), Voicing(t.stage.sequence + 1, total))
    case StreamEnds => if t.stage.audioBytes == 0 then Fail(t) else t.(stage := ClosingVoice)
    case Errs => Fail(t)
    case TimesOut => Fail(t)
    case ErrsCancelled => t.(stage := Over)
    case _ => t
  }

  function ToolStep(t: Task, i: Input): Task
    requires t.stage.Executing?
  {
    var call, rest := t.stage.call, t.stage.rest;
    match i
    case ToolReturns(output, cached) =>
      Emit(t, ToolCompleted(call.callId, call.name, output, cached), Dispatching(rest)).(request := t.request + PairOf(call, output))
    case ToolErrs => Emit(t, ToolFailed(call.callId, call.name), ToolAborting)
    case _ => t
  }

  /** One step: at most one event is sent. Inputs that do not fit the stage change nothing. */
  function Step(t: Task, limits: Budgets, i: Input): Task {
    if i.Cancelled? then t.(stage := Over)
    else match t.stage
      case Streaming(_, _) => StreamStep(t.(reasoned := t.reasoned + [i]), limits, i)
      case Dispatching(calls) =>
        if !i.Proceed? then t
        else if calls == [] then t.(round := t.round + 1, stage := Streaming("", []))
        else Emit(t, ToolStarted(calls[0]), Executing(calls[0], calls[1..]))
      case Executing(_, _) => ToolStep(t.(executed := t.executed + [i]), i)
      case ToolAborting => if i.Proceed? then Fail(t) else t
      case Announcing(text) => if i.Proceed? then Emit(t, ReasoningCompleted(text), OpeningVoice(text)) else t
      case OpeningVoice(_) => if i.Proceed? then Emit(t, TtsStarted, Voicing(0, 0)) else t
      case Voicing(_, _) => VoiceStep(t.(sung := t.sung + [i]), limits, i)
      case ClosingVoice => if i.Proceed? then Emit(t, TtsCompleted, Completing) else t
      case Completing => if i.Proceed? then Emit(t, Completed, Over) else t
      case Over => t
  }

  /** The stage agrees with the grammar position of what has been emitted. */
  predicate StageAgrees(stage: Stage, p: Progress) {
    match stage
    case Streaming(text, _) => p == Reasoning(text)
    case Dispatching(calls) => p.Reasoning? && (calls == [] ==> p.text == "")
    case Executing(call, _) => p == InTool(call)
    case ToolAborting => p.ToolBroken?
    case Announcing(text) => p == Reasoning(text)
    case OpeningVoice(text) => p == Reasoned(text)
    case Voicing(n, audioBytes) => p.Speaking? && p.frames == n && (audioBytes > 0 ==> n > 0)
    case ClosingVoice => p.Speaking? && p.frames > 0
    case Completing => p.Spoken?
    case Over => p != OffGrammar
  }

  // ---------- what was said to it, and what it says ----------

  function SaidTexts(inputs: seq<Input>): seq<string> {
    if inputs == [] then []
    else SaidTexts(inputs[..|inputs| - 1]) + (if inputs[|inputs| - 1].SaysDelta? then [inputs[|inputs| - 1].delta] else [])
  }

  function AskedCalls(inputs: seq<Input>): seq<Call> {
    if inputs == [] then []
    else AskedCalls(inputs[..|inputs| - 1]) + (if inputs[|inputs| - 1].SaysCall? then [inputs[|inputs| - 1].requested] else [])
  }

  function Returns(inputs: seq<Input>): seq<Value> {
    if inputs == [] then []
    else Returns(inputs[..|inputs| - 1]) + (if inputs[|inputs| - 1].ToolReturns? then [inputs[|inputs| - 1].output] else [])
  }

  function SungFrames(inputs: seq<Input>): seq<seq<byte>> {
    if inputs == [] then []
    else SungFrames(inputs[..|inputs| - 1]) + (if inputs[|inputs| - 1].TtsFrame? then [inputs[|inputs| - 1].bytes] else [])
  }

  function DeltaTexts(es: seq<PipelineEvent>): seq<string> {
    if es == [] then []
    else DeltaTexts(es[..|es| - 1]) + (if es[|es| - 1].ReasoningDelta? then [es[|es| - 1].text] else [])
  }

  function StartedCalls(es: seq<PipelineEvent>): seq<Call> {
    if es == [] then []
    else StartedCalls(es[..|es| - 1]) + (if es[|es| - 1].ToolStarted? then [es[|es| - 1].call] else [])
  }

  function ToolOutputs(es: seq<PipelineEvent>): seq<Value> {
    if es == [] then []
    else ToolOutputs(es[..|es| - 1]) + (if es[|es| - 1].ToolCompleted? then [es[|es| - 1].output] else [])
  }

  function AudioFrames(es: seq<PipelineEvent>): seq<seq<byte>> {
    if es == [] then []
    else AudioFrames(es[..|es| - 1]) + (if es[|es| - 1].Audio? then [es[|es| - 1].bytes] else [])
  }

  /** Calls asked for and not yet started. */
  function Outstanding(stage: Stage): seq<Call> {
    match stage
    case Streaming(_, calls) => calls
    case Dispatching(calls) => calls
    case Executing(_, rest) => rest
    case _ => []
  }

  /** The task passes on what its providers say, in order and unchanged: all of it while it goes on,
      and nothing else ever. */
  predicate Echoes(t: Task) {
    && DeltaTexts(t.emitted) <= SaidTexts(t.reasoned) && StartedCalls(t.emitted) <= AskedCalls(t.reasoned)
    && ToolOutputs(t.emitted) <= Returns(t.executed) && AudioFrames(t.emitted) <= SungFrames(t.sung)
    && (!t.stage.Over? ==>
          && DeltaTexts(t.emitted) == SaidTexts(t.reasoned) && ToolOutputs(t.emitted) == Returns(t.executed)
          && AudioFrames(t.emitted) == SungFrames(t.sung))
    && (!t.stage.Over? && !t.stage.ToolAborting? ==> StartedCalls(t.emitted) + Outstanding(t.stage) == AskedCalls(t.reasoned))
  }

  lemma EmittedOne(es: seq<PipelineEvent>, e: PipelineEvent)
    ensures DeltaTexts(es + [e]) == if e.ReasoningDelta? then DeltaTexts(es) + [e.text] else DeltaTexts(es)
    ensures StartedCalls(es + [e]) == if e.ToolStarted? then StartedCalls(es) + [e.call] else StartedCalls(es)
    ensures ToolOutputs(es + [e]) == if e.ToolCompleted? then ToolOutputs(es) + [e.output] else ToolOutputs(es)
    ensures AudioFrames(es + [e]) == if e.Audio? then AudioFrames(es) + [e.bytes] else AudioFrames(es)
  {
    assert (es + [e])[..|es|] == es;
  }

  lemma HeardOne(inputs: seq<Input>, i: Input)
    ensures SaidTexts(inputs + [i]) == if i.SaysDelta? then SaidTexts(inputs) + [i.delta] else SaidTexts(inputs)
    ensures AskedCalls(inputs + [i]) == if i.SaysCall? then AskedCalls(inputs) + [i.requested] else AskedCalls(inputs)
    ensures Returns(inputs + [i]) == if i.ToolReturns? then Returns(inputs) + [i.output] else Returns(inputs)
    ensures SungFrames(inputs + [i]) == if i.TtsFrame? then SungFrames(inputs) + [i.bytes] else SungFrames(inputs)
  {
    assert (inputs + [i])[..|inputs|] == inputs;
  }

  /** What every step of a task keeps: its emissions are grammatical and its next request is the
      first one followed by the tool exchanges it has reported. */
  predicate Coherent(t: Task) {
    && StageAgrees(t.stage, Follow(t.emitted))
    && t.request == t.initial + Concat(ToolPairs(t.emitted))
    && t.round < MAX_REASONING_ROUNDS && (t.stage.Dispatching? || t.stage.Executing? ==> t.round + 1 < MAX_REASONING_ROUNDS)
  }

  /** Everything the providers said has been passed on. */
  predicate Whole(t: Task) {
    && DeltaTexts(t.emitted) == SaidTexts(t.reasoned) && StartedCalls(t.emitted) == AskedCalls(t.reasoned)
    && ToolOutputs(t.emitted) == Returns(t.executed) && AudioFrames(t.emitted) == SungFrames(t.sung)
  }

  predicate TaskOk(t: Task) {
    Coherent(t) && Echoes(t) && (Follow(t.emitted).Finished? ==> Whole(t))
  }

  lemma TaskOkGrammar(t: Task)
    requires TaskOk(t)
    ensures Grammatical(t.emitted)
  {
    hide Echoes, Whole;
  }

  lemma SpawnOk(request: seq<Message>)
    ensures TaskOk(Spawn(request))
  {
    assert request + [] == request;
  }

  predicate OneMore(before: seq<PipelineEvent>, after: seq<PipelineEvent>) {
    after == before || (|after| == |before| + 1 && after[..|before|] == before)
  }

  lemma EmitOk(t: Task, e: PipelineEvent, stage: Stage)
    requires Coherent(t) && StageAgrees(stage, Next(Follow(t.emitted), e)) && !e.ToolCompleted?
    requires stage.Dispatching? || stage.Executing? ==> t.round + 1 < MAX_REASONING_ROUNDS
    ensures Coherent(Emit(t, e, stage)) && OneMore(t.emitted, Emit(t, e, stage).emitted)
  {
    FollowOne(t.emitted, e);
    ToolPairsOne(t.emitted, e);
    assert ToolPairs(t.emitted) + [] == ToolPairs(t.emitted);
  }

  lemma FailOk(t: Task)
    requires Coherent(t) && (t.stage.Streaming? || t.stage.Voicing? || t.stage.ToolAborting?)
    ensures Coherent(Fail(t)) && OneMore(t.emitted, Fail(t).emitted)
  {
    EmitOk(t, Failed, Over);
  }

  lemma StreamStepOk(t: Task, limits: Budgets, i: Input)
    requires Coherent(t) && t.stage.Streaming?
    ensures var u := StreamStep(t, limits, i);
            Coherent(u) && u.initial == t.initial && OneMore(t.emitted, u.emitted)
  {
    hide ToolPairs, Follow, Concat, TtsText.AllSpace;
    FailOk(t);
    if i.SaysDelta? {
      EmitOk(t, ReasoningDelta(i.delta), Streaming(t.stage.roundText + i.delta, t.stage.roundCalls));
    }
  }

  lemma VoiceStepOk(t: Task, limits: Budgets, i: Input)
    requires Coherent(t) && t.stage.Voicing?
    ensures var u := VoiceStep(t, limits, i);
            Coherent(u) && u.initial == t.initial && OneMore(t.emitted, u.emitted)
  {
    hide ToolPairs, Follow, Concat;
    FailOk(t);
    if i.TtsFrame? && |i.bytes| > 0 {
      EmitOk(t, Audio(t.stage.sequence, i.bytes), Voicing(t.stage.sequence + 1, t.stage.audioBytes + |i.bytes|));
    }
  }

  lemma ToolReturnOk(t: Task, limits: Budgets, output: Value, cached: bool)
    requires Coherent(t) && t.stage.Executing?
    ensures var u := Step(t, limits, ToolReturns(output, cached));
            Coherent(u) && u.initial == t.initial && OneMore(t.emitted, u.emitted)
  {
    var call := t.stage.call;
    var e := ToolCompleted(call.callId, call.name, output, cached);
    FollowOne(t.emitted, e);
    ToolPairsOne(t.emitted, e);
    ConcatOne(ToolPairs(t.emitted), PairOf(call, output));
    hide ToolPairs, Follow, Concat;
    assert t.initial + Concat(ToolPairs(t.emitted)) + PairOf(call, output)
        == t.initial + (Concat(ToolPairs(t.emitted)) + PairOf(call, output));
  }

  lemma ToolStepOk(t: Task, limits: Budgets, i: Input)
    requires Coherent(t) && t.stage.Executing? && !i.Cancelled?
    ensures var u := Step(t, limits, i);
            Coherent(u) && u.initial == t.initial && OneMore(t.emitted, u.emitted)
  {
    hide ToolPairs, Follow, Concat, StreamStep, VoiceStep;
    if i.ToolReturns? {
      ToolReturnOk(t, limits, i.output, i.cached);
    } else {
      EmitOk(t.(executed := t.executed + [i]), ToolFailed(t.stage.call.callId, t.stage.call.name), ToolAborting);
    }
  }

  lemma CoherentStep(t: Task, limits: Budgets, i: Input)
    requires Coherent(t)
    ensures var u := Step(t, limits, i);
            Coherent(u) && u.initial == t.initial && OneMore(t.emitted, u.emitted)
  {
    hide ToolPairs, Follow, Concat, StreamStep, VoiceStep, ToolStep;
    if !i.Cancelled? {
      match t.stage
      case Streaming(_, _) => StreamStepOk(t.(reasoned := t.reasoned + [i]), limits, i);
      case Dispatching(calls) =>
        if calls != [] {
          EmitOk(t, ToolStarted(calls[0]), Executing(calls[0], calls[1..]));
        }
      case Executing(_, _) => ToolStepOk(t, limits, i);
      case ToolAborting => FailOk(t);
      case Announcing(text) => EmitOk(t, ReasoningCompleted(text), OpeningVoice(text));
      case OpeningVoice(_) => EmitOk(t, TtsStarted, Voicing(0, 0));
      case Voicing(_, _) => VoiceStepOk(t.(sung := t.sung + [i]), limits, i);
      case ClosingVoice => EmitOk(t, TtsCompleted, Completing);
      case Completing => EmitOk(t, Completed, Over);
      case Over =>
    }
  }

  lemma EchoEmit(t: Task, e: PipelineEvent, stage: Stage)
    requires (if e.ReasoningDelta? then DeltaTexts(t.emitted) + [e.text] else DeltaTexts(t.emitted)) == SaidTexts(t.reasoned)
    requires (if e.ToolCompleted? then ToolOutputs(t.emitted) + [e.output] else ToolOutputs(t.emitted)) == Returns(t.executed)
    requires (if e.Audio? then AudioFrames(t.emitted) + [e.bytes] else AudioFrames(t.emitted)) == SungFrames(t.sung)
    requires (if e.ToolStarted? then StartedCalls(t.emitted) + [e.call] else StartedCalls(t.emitted)) + Outstanding(stage) == AskedCalls(t.reasoned)
             || (stage.ToolAborting? && StartedCalls(t.emitted) <= AskedCalls(t.reasoned) && !e.ToolStarted?)
    ensures Echoes(Emit(t, e, stage))
  {
    EmittedOne(t.emitted, e);
    hide DeltaTexts, StartedCalls, ToolOutputs, AudioFrames, SaidTexts, AskedCalls, Returns, SungFrames;
  }

  /** Cut short, or broken off: what was passed on stays a prefix. */
  lemma EchoEnds(t: Task)
    requires DeltaTexts(t.emitted) <= SaidTexts(t.reasoned) && StartedCalls(t.emitted) <= AskedCalls(t.reasoned)
    requires ToolOutputs(t.emitted) <= Returns(t.executed) && AudioFrames(t.emitted) <= SungFrames(t.sung)
    ensures Echoes(t.(stage := Over)) && Echoes(Fail(t))
  {
    EmittedOne(t.emitted, Failed);
    hide DeltaTexts, StartedCalls, ToolOutputs, AudioFrames, SaidTexts, AskedCalls, Returns, SungFrames;
  }

  /** Still going on: everything asked for is started or outstanding. */
  lemma EchoGoes(t: Task, stage: Stage, total: nat, round: nat)
    requires Echoes(t) && !t.stage.Over? && !t.stage.ToolAborting? && !stage.Over? && !stage.ToolAborting?
    requires Outstanding(stage) == Outstanding(t.stage)
    ensures Echoes(t.(stage := stage, totalToolCalls := total, round := round))
  {
    hide DeltaTexts, StartedCalls, ToolOutputs, AudioFrames, SaidTexts, AskedCalls, Returns, SungFrames;
  }

  lemma EchoHears(t: Task, i: Input)
    requires Echoes(t) && t.stage.Streaming?
    ensures var h := t.(reasoned := t.reasoned + [i]);
            && Echoes(h.(stage := Over)) && Echoes(Fail(h))
            && (!i.SaysDelta? && !i.SaysCall? ==> Echoes(h))
            && (i.SaysDelta? ==> Echoes(Emit(h, ReasoningDelta(i.delta), Streaming(t.stage.roundText + i.delta, t.stage.roundCalls))))
            && (i.SaysCall? ==> Echoes(h.(stage := Streaming(t.stage.roundText, t.stage.roundCalls + [i.requested]))))
  {
    var h := t.(reasoned := t.reasoned + [i]);
    HeardOne(t.reasoned, i);
    hide DeltaTexts, StartedCalls, ToolOutputs, AudioFrames, SaidTexts, AskedCalls, Returns, SungFrames;
    EchoEnds(h);
    var calls := t.stage.roundCalls;
    if i.SaysDelta? {
      EchoEmit(h, ReasoningDelta(i.delta), Streaming(t.stage.roundText + i.delta, calls));
    } else if i.SaysCall? {
      assert StartedCalls(t.emitted) + calls + [i.requested] == StartedCalls(t.emitted) + (calls + [i.requested]);
    }
  }

  lemma EchoFails(t: Task, total: nat)
    requires Echoes(t)
    ensures Echoes(Fail(t.(totalToolCalls := total)))
  {
    hide DeltaTexts, StartedCalls, ToolOutputs, AudioFrames, SaidTexts, AskedCalls, Returns, SungFrames;
    EchoEnds(t.(totalToolCalls := total));
  }

  lemma EchoStream(t: Task, limits: Budgets, i: Input)
    requires Echoes(t) && t.stage.Streaming?
    ensures Echoes(StreamStep(t.(reasoned := t.reasoned + [i]), limits, i))
  {
    hide Echoes, TtsText.AllSpace;
    var h := t.(reasoned := t.reasoned + [i]);
    EchoHears(t, i);
    if i.SaysDone? {
      var text, calls := t.stage.roundText, t.stage.roundCalls;
      var total := t.totalToolCalls + |calls|;
      EchoFails(h, total);
      if calls == [] {
        EchoGoes(h, Announcing(text), t.totalToolCalls, t.round);
      } else {
        EchoGoes(h, Dispatching(calls), total, t.round);
      }
    }
  }

  lemma EchoTool(t: Task, i: Input)
    requires Echoes(t) && t.stage.Executing?
    ensures Echoes(ToolStep(t.(executed := t.executed + [i]), i))
  {
    var h := t.(executed := t.executed + [i]);
    HeardOne(t.executed, i);
    hide DeltaTexts, StartedCalls, ToolOutputs, AudioFrames, SaidTexts, AskedCalls, Returns, SungFrames;
    var call, rest := t.stage.call, t.stage.rest;
    if i.ToolReturns? {
      EchoEmit(h, ToolCompleted(call.callId, call.name, i.output, i.cached), Dispatching(rest));
    } else if i.ToolErrs? {
      EchoEmit(h, ToolFailed(call.callId, call.name), ToolAborting);
    }
  }

  lemma EchoSings(t: Task, i: Input)
    requires Echoes(t) && t.stage.Voicing?
    ensures var h := t.(sung := t.sung + [i]);
            && Echoes(h.(stage := Over)) && Echoes(Fail(h))
            && (!i.TtsFrame? ==> Echoes(h) && Echoes(h.(stage := ClosingVoice)))
            && (i.TtsFrame? ==>
                  Echoes(Emit(h, Audio(t.stage.sequence, i.bytes), Voicing(t.stage.sequence + 1, t.stage.audioBytes + |i.bytes|))))
  {
    var h := t.(sung := t.sung + [i]);
    HeardOne(t.sung, i);
    hide DeltaTexts, StartedCalls, ToolOutputs, AudioFrames, SaidTexts, AskedCalls, Returns, SungFrames;
    EchoEnds(h);
    if i.TtsFrame? {
      EchoEmit(h, Audio(t.stage.sequence, i.bytes), Voicing(t.stage.sequence + 1, t.stage.audioBytes + |i.bytes|));
    }
  }

  lemma EchoVoice(t: Task, limits: Budgets, i: Input)
    requires Echoes(t) && t.stage.Voicing?
    ensures Echoes(VoiceStep(t.(sung := t.sung + [i]), limits, i))
  {
    hide Echoes;
    EchoSings(t, i);
  }

  lemma EchoStarts(t: Task)
    requires Echoes(t) && t.stage.Dispatching? && t.stage.calls != []
    ensures Echoes(Emit(t, ToolStarted(t.stage.calls[0]), Executing(t.stage.calls[0], t.stage.calls[1..])))
  {
    hide DeltaTexts, StartedCalls, ToolOutputs, AudioFrames, SaidTexts, AskedCalls, Returns, SungFrames;
    var calls := t.stage.calls;
    assert StartedCalls(t.emitted) + [calls[0]] + calls[1..] == StartedCalls(t.emitted) + calls;
    EchoEmit(t, ToolStarted(calls[0]), Executing(calls[0], calls[1..]));
  }

  lemma EchoSays(t: Task, e: PipelineEvent, stage: Stage)
    requires Echoes(t) && !t.stage.Over? && !t.stage.ToolAborting? && Outstanding(t.stage) == [] && Outstanding(stage) == []
    requires e.ReasoningCompleted? || e.TtsStarted? || e.TtsCompleted? || e.Completed?
    ensures Echoes(Emit(t, e, stage))
  {
    hide DeltaTexts, StartedCalls, ToolOutputs, AudioFrames, SaidTexts, AskedCalls, Returns, SungFrames;
    EchoEmit(t, e, stage);
  }

  /** Steps in which no provider is listened to. */
  lemma EchoOther(t: Task, limits: Budgets)
    requires Echoes(t) && !t.stage.Streaming? && !t.stage.Executing? && !t.stage.Voicing?
    ensures Echoes(Step(t, limits, Proceed))
  {
    hide Echoes, StreamStep, VoiceStep, ToolStep;
    match t.stage
    case Dispatching(calls) =>
      if calls != [] {
        EchoStarts(t);
      } else {
        EchoGoes(t, Streaming("", []), t.totalToolCalls, t.round + 1);
      }
    case ToolAborting => EchoFails(t, t.totalToolCalls);
    case Announcing(text) => EchoSays(t, ReasoningCompleted(text), OpeningVoice(text));
    case OpeningVoice(_) => EchoSays(t, TtsStarted, Voicing(0, 0));
    case ClosingVoice => EchoSays(t, TtsCompleted, Completing);
    case Completing => EchoSays(t, Completed, Over);
    case _ =>
  }

  lemma EchoStep(t: Task, limits: Budgets, i: Input)
    requires Echoes(t)
    ensures Echoes(Step(t, limits, i))
  {
    hide Echoes, StreamStep, VoiceStep, ToolStep;
    if i.Cancelled? {
      EchoCut(t);
    } else if t.stage.Streaming? {
      EchoStream(t, limits, i);
    } else if t.stage.Executing? {
      EchoTool(t, i);
    } else if t.stage.Voicing? {
      EchoVoice(t, limits, i);
    } else {
      EchoOther(t, limits);
    }
  }

  lemma EchoCut(t: Task)
    requires Echoes(t)
    ensures Echoes(t.(stage := Over))
  {
    hide DeltaTexts, StartedCalls, ToolOutputs, AudioFrames, SaidTexts, AskedCalls, Returns, SungFrames;
    EchoEnds(t);
  }

  lemma FinishesWhole(t: Task, limits: Budgets, i: Input)
    requires TaskOk(t) && OneMore(t.emitted, Step(t, limits, i).emitted)
    ensures Follow(Step(t, limits, i).emitted).Finished? ==> Whole(Step(t, limits, i))
  {
    hide StreamStep, VoiceStep, ToolStep, ToolPairs, Concat, DeltaTexts, AudioFrames, StartedCalls, ToolOutputs, SaidTexts, AskedCalls, Returns, SungFrames, Follow;
    var u := Step(t, limits, i);
    if Follow(u.emitted).Finished? && u.emitted != t.emitted {
      assert u.emitted == t.emitted + [u.emitted[|t.emitted|]];
      FollowOne(t.emitted, u.emitted[|t.emitted|]);
      LastIsCompleted(t, limits, i);
    }
  }

  lemma LastIsCompleted(t: Task, limits: Budgets, i: Input)
    requires Coherent(t) && Echoes(t) && Follow(t.emitted).Spoken? && Step(t, limits, i).emitted != t.emitted
    ensures Whole(Step(t, limits, i))
  {
    EmittedOne(t.emitted, Completed);
    hide ToolPairs, Concat, DeltaTexts, AudioFrames, StartedCalls, ToolOutputs, SaidTexts, AskedCalls, Returns, SungFrames, Follow;
  }

  /** Every step keeps `TaskOk` and sends at most one event. */
  lemma StepOk(t: Task, limits: Budgets, i: Input)
    requires TaskOk(t)
    ensures var u := Step(t, limits, i);
            TaskOk(u) && u.initial == t.initial && OneMore(t.emitted, u.emitted)
  {
    hide Coherent, Echoes, Whole, Follow, Step;
    CoherentStep(t, limits, i);
    EchoStep(t, limits, i);
    FinishesWhole(t, limits, i);
  }

  function Run(t: Task, limits: Budgets, inputs: seq<Input>): Task
    decreases |inputs|
  {
    if inputs == [] then t else Run(Step(t, limits, inputs[0]), limits, inputs[1..])
  }

  /** Whatever the providers do and wherever it is cut off, a task's emissions follow the grammar,
      the reasoner sees exactly the completed tool exchanges, and the round budget is never
      overrun, so the "exhausted its round budget" exit is unreachable. */
  lemma {:induction false} EveryRunIsGrammatical(t: Task, limits: Budgets, inputs: seq<Input>)
    requires TaskOk(t)
    ensures var u := Run(t, limits, inputs);
            && TaskOk(u) && Grammatical(u.emitted)
            && u.request == t.initial + Concat(ToolPairs(u.emitted))
            && u.round < MAX_REASONING_ROUNDS
    decreases |inputs|
  {
    hide Echoes, Whole;
    if inputs == [] {
      TaskOkGrammar(t);
    } else {
      hide TaskOk, Step;
      StepOk(t, limits, inputs[0]);
      EveryRunIsGrammatical(Step(t, limits, inputs[0]), limits, inputs[1..]);
    }
  }
}
