/** The promises about responses are not empty either: a run in which a text input is answered with
    a tool call, a spoken reply and an orderly end. */
module ResponseExample {
  import opened Common
  import opened Json
  import opened History
  import opened ClientView
  import opened SessionModel
  import opened DialogueInvariant
  import opened SessionTheorems
  import E = EventSpool
  import P = ResponsePipeline
  import X = SessionExample

  const QUESTION: string := "q"
  const REPLY: string := "r"
  const CALL: P.Call := P.Call("c", "t", Obj([]))

  /** Room for one exchange. */
  ghost predicate Ample(c: Config) {
    && E.ValidConfig(c.spool) && c.spool.capacity >= 20 && c.controlCapacity > 0 && c.mediaCapacity > 0
    && c.pipeline.maxDelta > 0 && c.pipeline.maxText > 0 && c.pipeline.maxChunk > 1 && c.pipeline.maxAudio > 1
    && Fits([User(QUESTION)], c.history) && Fits([Assistant(REPLY)], c.history) && Fits(P.PairOf(CALL, Null), c.history)
  }

  // ---------- emissions that succeed ----------

  /** The transport takes everything, and the spool has room for `n` more events. */
  ghost predicate Roomy(io: Io, n: nat) {
    && io.fault.None? && io.script == []
    && io.spool.producer.Idle? && io.spool.open && io.spool.worker.Waiting?
    && io.spool.permits >= n && |io.spool.channel| + n <= io.spool.config.capacity + 1 && io.spool.nextSequence + n < U64_MAX
  }

  ghost predicate Emitted(s: Session, t: Session, n: nat) {
    t == s.(io := t.io) && Roomy(t.io, n)
  }

  lemma Says(s: Session, o: Output, n: nat)
    requires Roomy(s.io, n)
    ensures Emitted(s, Say(s, o), n)
  {
  }

  lemma Reports(s: Session, kind: E.EventType, epoch: nat, n: nat)
    requires Roomy(s.io, n + 1)
    ensures Emitted(s, Report(s, kind, epoch), n)
  {
    X.PublishFree(s.io.spool, E.Event(kind, epoch));
    hide E.TryPublish;
  }

  // ---------- runs ----------

  lemma {:induction false} RunSnoc(s: Session, steps: seq<Step>, a: Step)
    ensures Run(s, steps + [a]) == Next(Run(s, steps), a)
    decreases |steps|
  {
    hide Next;
    if steps == [] {
      assert steps + [a] == [a] && [a][1..] == [];
      assert Run(Next(s, a), []) == Next(s, a);
    } else {
      assert (steps + [a])[0] == steps[0] && (steps + [a])[1..] == steps[1..] + [a];
      RunSnoc(Next(s, steps[0]), steps[1..], a);
    }
  }

  // ---------- up to the response ----------

  /** Live, with empty lanes. */
  ghost predicate Idling(s: Session, c: Config, n: nat) {
    s.life.Live? && s.control == [] && s.media == [] && s.config == c && Roomy(s.io, n)
  }

  lemma Boots(c: Config)
    requires Ample(c)
    ensures var s := Next(Begin(c), Boot([]));
            Idling(s, c, 19) && s == Begin(c).(life := Live, io := s.io)
  {
    hide EmitEvent, EmitOutput;
    var s := Begin(c).(life := Live);
    Reports(s, E.SessionReady, 0, 19);
    Says(Report(s, E.SessionReady, 0), ClientView.SessionReady, 19);
  }

  lemma StartsSession(s: Session, c: Config)
    requires Ample(c) && Idling(s, c, 19) && s == Begin(c).(life := Live, io := s.io)
    ensures var m := ClientMessage("a", Start);
            var t := Next(Next(s, Arrive(m)), TakeMedia([]));
            Idling(t, c, 18) && t == s.(io := t.io, phase := Active, seen := ["a"])
  {
    hide EmitEvent, EmitOutput;
    var m := ClientMessage("a", Start);
    var queued := Next(s, Arrive(m));
    assert queued == s.(media := [Ordered(m)]);
    assert [Ordered(m)][1..] == [];
    var active := s.(phase := Active, seen := ["a"]);
    Reports(active, E.SessionStarted, 0, 18);
    Says(Report(active, E.SessionStarted, 0), ClientView.SessionStarted, 18);
    assert [] + ["a"] == ["a"];
    assert s.io.(script := []) == s.io;
  }

  /** One response under way: its task and what the actor keeps about it. */
  ghost predicate Talking(s: Session, c: Config, n: nat, task: P.Task, current: Current) {
    && Idling(s, c, n) && s.phase.Active? && s.input.epoch == 1 && s.dialogue.epoch == 1
    && current.epoch == 1 && s.dialogue.current == Some(current)
    && 1 in s.dialogue.tasks && s.dialogue.tasks[1] == task
    && 1 in s.dialogue.delivered && s.dialogue.delivered[1] == task.emitted && s.dialogue.answers == []
  }

  function Asked(c: Config): P.Task {
    P.Spawn([User(QUESTION)])
  }

  lemma Asks(s: Session, c: Config)
    requires Ample(c) && Idling(s, c, 18) && s.phase.Active? && s == Begin(c).(life := Live, io := s.io, phase := Active, seen := ["a"])
    ensures var m := ClientMessage("b", Text(QUESTION));
            var t := Next(Next(s, Arrive(m)), TakeMedia([]));
            Talking(t, c, 16, Asked(c), Current(1, None, None))
  {
    hide EmitEvent, EmitOutput, Fits, StartResponseIf;
    var m := ClientMessage("b", Text(QUESTION));
    var queued := Next(s, Arrive(m));
    assert queued == s.(media := [Ordered(m)]);
    assert [Ordered(m)][1..] == [];
    assert s.io.(script := []) == s.io;
    var fresh' := s.(seen := s.seen + ["b"]);
    var heard := NewInput(LogTyped(fresh', QUESTION), false, []);
    assert heard == fresh'.(input := fresh'.input.(epoch := 1, typed := map[1 := QUESTION]));
    var told := Say(heard, Transcript(1, QUESTION, true));
    Says(heard, Transcript(1, QUESTION, true), 18);
    Reports(told, E.SpeechFinal, 1, 17);
    Launches(Report(told, E.SpeechFinal, 1), c);
  }

  lemma Launches(s: Session, c: Config)
    requires Ample(c) && Idling(s, c, 17) && s.phase.Active? && s.input.epoch == 1
    requires s.dialogue == Begin(c).dialogue
    ensures Talking(StartResponseIf(s, QUESTION), c, 16, Asked(c), Current(1, None, None))
  {
    hide EmitEvent, Fits;
    var g := [User(QUESTION)];
    assert Retained([g], c.history) == [g] by {
      assert Concat([g]) == g by {
        assert [g][1..] == [];
      }
    }
    var pushed := Push(s, g);
    assert [] + [g] == [g];
    assert pushed == s.(dialogue := s.dialogue.(pushed := [g], history := [g]));
    assert Concat<Message>([]) + g == g;
    var counted := pushed.(dialogue := pushed.dialogue.(epoch := 1, origins := [] + [1]));
    Reports(counted, E.ReasoningStarted, 1, 16);
  }

  // ---------- the response ----------

  /** A task step that sends nothing. */
  lemma Quietly(s: Session, c: Config, n: nat, t: P.Task, current: Current, i: P.Input, u: P.Task)
    requires Ample(c) && Talking(s, c, n, t, current) && u == P.Step(t, c.pipeline, i) && u.emitted == t.emitted
    ensures Talking(Next(s, RespondTask(1, i)), c, n, u, current)
  {
    hide P.Step;
    assert s.control + [] == s.control;
  }

  /** A task step that sends an event, which the actor then takes. */
  lemma Sends(s: Session, c: Config, n: nat, t: P.Task, current: Current, i: P.Input, u: P.Task, ev: P.PipelineEvent)
    requires Ample(c) && Talking(s, c, n, t, current) && u == P.Step(t, c.pipeline, i) && u.emitted == t.emitted + [ev]
    ensures var taken := s.(dialogue := s.dialogue.(tasks := s.dialogue.tasks[1 := u], delivered := s.dialogue.delivered[1 := u.emitted]));
            && Next(Next(s, RespondTask(1, i)), TakeControl([])) == ApplyPipeline(taken, current, ev)
            && Talking(taken, c, n, u, current)
  {
    hide P.Step, ApplyPipeline;
    var sent := Next(s, RespondTask(1, i));
    assert sent == s.(dialogue := s.dialogue.(tasks := s.dialogue.tasks[1 := u]), control := [Pipeline(1, ev)]);
    assert [Pipeline(1, ev)][1..] == [];
    assert s.io.(script := []) == s.io;
  }

  lemma Moves(s: Session, c: Config, n: nat, t: P.Task, current: Current, kind: E.EventType, epoch: nat, next: Current)
    requires Talking(s, c, n + 1, t, current) && next.epoch == 1
    ensures Talking(Report(SetCurrent(s, next), kind, epoch), c, n, t, next)
  {
    hide EmitEvent;
    Reports(SetCurrent(s, next), kind, epoch, n);
  }

  lemma CallsTool(s: Session, c: Config, n: nat, t: P.Task)
    requires Ample(c) && Talking(s, c, n + 2, t, Current(1, None, None)) && t.stage == P.Dispatching([CALL])
    ensures var a := Next(Next(s, RespondTask(1, P.Proceed)), TakeControl([]));
            var b := Next(Next(a, RespondTask(1, P.ToolReturns(Null, false))), TakeControl([]));
            var es := [P.ToolStarted(CALL), P.ToolCompleted("c", "t", Null, false)];
            Talking(b, c, n, t.(stage := P.Dispatching([]), emitted := t.emitted + es, request := t.request + P.PairOf(CALL, Null),
                                executed := t.executed + [P.ToolReturns(Null, false)]),
                    Current(1, None, None))
  {
    hide EmitEvent, ApplyPipeline, Fits;
    var started, completed := P.ToolStarted(CALL), P.ToolCompleted("c", "t", Null, false);
    assert [CALL][1..] == [];
    var u := t.(stage := P.Executing(CALL, []), emitted := t.emitted + [started]);
    Sends(s, c, n + 2, t, Current(1, None, None), P.Proceed, u, started);
    var a := Next(Next(s, RespondTask(1, P.Proceed)), TakeControl([]));
    AppliesStart(s, c, n + 1, t, u);
    var v := u.(stage := P.Dispatching([]), emitted := u.emitted + [completed], request := u.request + P.PairOf(CALL, Null),
                executed := u.executed + [P.ToolReturns(Null, false)]);
    Sends(a, c, n + 1, u, Current(1, None, Some(CALL)), P.ToolReturns(Null, false), v, completed);
    assert t.emitted + [started] + [completed] == t.emitted + [started, completed];
    AppliesCompleted(a, c, n, u, v);
  }

  lemma AppliesStart(s: Session, c: Config, n: nat, t: P.Task, u: P.Task)
    requires Talking(s, c, n + 1, t, Current(1, None, None))
    ensures var taken := s.(dialogue := s.dialogue.(tasks := s.dialogue.tasks[1 := u], delivered := s.dialogue.delivered[1 := u.emitted]));
            Talking(ApplyPipeline(taken, Current(1, None, None), P.ToolStarted(CALL)), c, n, u, Current(1, None, Some(CALL)))
  {
    hide EmitEvent;
    var taken := s.(dialogue := s.dialogue.(tasks := s.dialogue.tasks[1 := u], delivered := s.dialogue.delivered[1 := u.emitted]));
    Moves(taken, c, n, u, Current(1, None, None), E.ToolStarted, 1, Current(1, None, Some(CALL)));
  }

  lemma AppliesCompleted(s: Session, c: Config, n: nat, t: P.Task, u: P.Task)
    requires Ample(c) && Talking(s, c, n + 1, t, Current(1, None, Some(CALL)))
    ensures var taken := s.(dialogue := s.dialogue.(tasks := s.dialogue.tasks[1 := u], delivered := s.dialogue.delivered[1 := u.emitted]));
            Talking(ApplyPipeline(taken, Current(1, None, Some(CALL)), P.ToolCompleted("c", "t", Null, false)), c, n, u, Current(1, None, None))
  {
    hide EmitEvent, Fits, Retained;
    var taken := s.(dialogue := s.dialogue.(tasks := s.dialogue.tasks[1 := u], delivered := s.dialogue.delivered[1 := u.emitted]));
    var settled := Push(SetCurrent(taken, Current(1, None, None)), P.PairOf(CALL, Null));
    assert Talking(settled, c, n + 1, u, Current(1, None, None));
    Reports(settled, E.ToolCompleted, 1, n);
  }

  // ---------- the reply ----------

  function Took(s: Session, u: P.Task): Session {
    s.(dialogue := s.dialogue.(tasks := s.dialogue.tasks[1 := u], delivered := s.dialogue.delivered[1 := u.emitted]))
  }

  lemma AppliesDelta(s: Session, c: Config, n: nat, u: P.Task)
    requires Talking(s, c, n + 1, u, Current(1, None, None))
    ensures Talking(ApplyPipeline(s, Current(1, None, None), P.ReasoningDelta(REPLY)), c, n, u, Current(1, None, None))
  {
    hide EmitEvent, EmitOutput;
    Says(s, Delta(1, REPLY), n + 1);
    Reports(Say(s, Delta(1, REPLY)), E.ReasoningDelta, 1, n);
  }

  lemma AppliesReasoned(s: Session, c: Config, n: nat, u: P.Task)
    requires Talking(s, c, n + 1, u, Current(1, None, None))
    ensures Talking(ApplyPipeline(s, Current(1, None, None), P.ReasoningCompleted(REPLY)), c, n, u, Current(1, Some(REPLY), None))
  {
    hide EmitEvent;
    Moves(s, c, n, u, Current(1, None, None), E.ReasoningCompleted, 1, Current(1, Some(REPLY), None));
  }

  lemma AppliesTts(s: Session, c: Config, n: nat, u: P.Task, ev: P.PipelineEvent)
    requires Talking(s, c, n + 1, u, Current(1, Some(REPLY), None)) && (ev.TtsStarted? || ev.TtsCompleted?)
    ensures Talking(ApplyPipeline(s, Current(1, Some(REPLY), None), ev), c, n, u, Current(1, Some(REPLY), None))
  {
    hide EmitEvent;
    Reports(s, if ev.TtsStarted? then E.TtsStarted else E.TtsCompleted, 1, n);
  }

  lemma AppliesAudio(s: Session, c: Config, n: nat, u: P.Task)
    requires Talking(s, c, n + 1, u, Current(1, Some(REPLY), None))
    ensures Talking(ApplyPipeline(s, Current(1, Some(REPLY), None), P.Audio(0, [0, 0])), c, n, u, Current(1, Some(REPLY), None))
  {
    hide EmitEvent, EmitOutput;
    Reports(s, E.TtsFirstAudio, 1, n);
    Says(Report(s, E.TtsFirstAudio, 1), Voice(1, 0, [0, 0]), n);
  }

  /** The response is over, answered. */
  ghost predicate Quiet(s: Session, c: Config, n: nat) {
    && Idling(s, c, n) && s.phase.Active? && s.input.epoch == 1 && s.dialogue.current.None?
    && s.dialogue.epoch == 1 && s.dialogue.answers == [Answer(1, REPLY)]
  }

  lemma AppliesCompletion(s: Session, c: Config, n: nat, u: P.Task)
    requires Ample(c) && Talking(s, c, n, u, Current(1, Some(REPLY), None))
    ensures Quiet(ApplyPipeline(s, Current(1, Some(REPLY), None), P.Completed), c, n)
  {
    hide EmitOutput, Fits, Retained;
    var pushed := Push(s.(dialogue := s.dialogue.(current := None)), [Assistant(REPLY)]);
    var told := pushed.(dialogue := pushed.dialogue.(answers := pushed.dialogue.answers + [Answer(1, REPLY)]));
    assert told.dialogue.answers == [Answer(1, REPLY)];
    Says(told, ResponseCompleted(1, false), n);
  }

  lemma Ends(s: Session, c: Config, n: nat)
    requires Ample(c) && Quiet(s, c, n + 1)
    ensures var t := Next(Next(s, Operate(false)), TakeControl([]));
            && t.dialogue == s.dialogue && t.input == s.input && EndsOrderly(t.io.spool.accepted)
  {
    hide EmitTerminal;
    var asked := Next(s, Operate(false));
    assert asked == s.(control := [CompleteSession]);
    assert [CompleteSession][1..] == [];
    assert s.io.(script := []) == s.io;
    Terminates(s.io, n);
  }

  lemma Terminates(io: Io, n: nat)
    requires Roomy(io, n + 1)
    ensures EndsOrderly(EmitTerminal(io, E.Event(E.SessionCompleted, 0)).spool.accepted)
  {
    var e := E.Event(E.SessionCompleted, 0);
    X.PublishLast(io.spool, e);
    hide E.PublishTerminal;
    var accepted := EmitTerminal(io, e).spool.accepted;
    assert accepted[|io.spool.accepted|].event == e;
  }

  // ---------- the whole run ----------

  lemma Two(c: Config, steps: seq<Step>, a: Step, b: Step)
    ensures Run(Begin(c), steps + [a, b]) == Next(Next(Run(Begin(c), steps), a), b)
  {
    hide Next, Run;
    RunSnoc(Begin(c), steps, a);
    RunSnoc(Begin(c), steps + [a], b);
    assert steps + [a] + [b] == steps + [a, b];
  }

  lemma UpToQuestion(c: Config) returns (steps: seq<Step>)
    requires Ample(c)
    ensures Talking(Run(Begin(c), steps), c, 16, Asked(c), Current(1, None, None))
  {
    hide Next, Talking, Idling;
    Boots(c);
    assert Run(Begin(c), []) == Begin(c);
    hide Run;
    RunSnoc(Begin(c), [], Boot([]));
    steps := [] + [Boot([])];
    var booted := Run(Begin(c), steps);
    StartsSession(booted, c);
    var start, ask := ClientMessage("a", Start), ClientMessage("b", Text(QUESTION));
    Two(c, steps, Arrive(start), TakeMedia([]));
    steps := steps + [Arrive(start), TakeMedia([])];
    Asks(Run(Begin(c), steps), c);
    Two(c, steps, Arrive(ask), TakeMedia([]));
    steps := steps + [Arrive(ask), TakeMedia([])];
  }

  /** The task goes on without sending. */
  lemma Works(c: Config, before: seq<Step>, n: nat, t: P.Task, current: Current, i: P.Input, u: P.Task) returns (steps: seq<Step>)
    requires Ample(c) && Talking(Run(Begin(c), before), c, n, t, current) && u == P.Step(t, c.pipeline, i) && u.emitted == t.emitted
    ensures Talking(Run(Begin(c), steps), c, n, u, current)
  {
    hide Next, Run, Talking, P.Step;
    Quietly(Run(Begin(c), before), c, n, t, current, i, u);
    RunSnoc(Begin(c), before, RespondTask(1, i));
    steps := before + [RespondTask(1, i)];
  }

  /** The task sends an event and the actor takes it. */
  lemma Tells(c: Config, before: seq<Step>, n: nat, t: P.Task, current: Current, i: P.Input, u: P.Task, ev: P.PipelineEvent)
    returns (steps: seq<Step>, taken: Session)
    requires Ample(c) && Talking(Run(Begin(c), before), c, n, t, current) && u == P.Step(t, c.pipeline, i) && u.emitted == t.emitted + [ev]
    ensures Run(Begin(c), steps) == ApplyPipeline(taken, current, ev) && Talking(taken, c, n, u, current)
  {
    hide Next, Run, Talking, P.Step, ApplyPipeline;
    var s := Run(Begin(c), before);
    Sends(s, c, n, t, current, i, u, ev);
    taken := Took(s, u);
    Two(c, before, RespondTask(1, i), TakeControl([]));
    steps := before + [RespondTask(1, i), TakeControl([])];
    assert Took(s, u) == taken by {
      TookIs(s, u);
    }
  }

  lemma TookIs(s: Session, u: P.Task)
    ensures Took(s, u) == s.(dialogue := s.dialogue.(tasks := s.dialogue.tasks[1 := u], delivered := s.dialogue.delivered[1 := u.emitted]))
  {
  }

  lemma UpToTool(c: Config) returns (steps: seq<Step>, t: P.Task)
    requires Ample(c)
    ensures t.stage == P.Dispatching([]) && t.emitted == [P.ToolStarted(CALL), P.ToolCompleted("c", "t", Null, false)] && t.round == 0
    ensures Talking(Run(Begin(c), steps), c, 14, t, Current(1, None, None))
  {
    var asked := Asked(c);
    hide Next, Run, Talking;
    steps := UpToQuestion(c);
    var wants := asked.(stage := P.Streaming("", [CALL]), reasoned := asked.reasoned + [P.SaysCall(CALL)]);
    assert [] + [CALL] == [CALL];
    steps := Works(c, steps, 16, asked, Current(1, None, None), P.SaysCall(CALL), wants);
    var goes := wants.(stage := P.Dispatching([CALL]), totalToolCalls := 1, reasoned := wants.reasoned + [P.SaysDone]);
    steps := Works(c, steps, 16, wants, Current(1, None, None), P.SaysDone, goes);
    CallsTool(Run(Begin(c), steps), c, 14, goes);
    Two(c, steps, RespondTask(1, P.Proceed), TakeControl([]));
    steps := steps + [RespondTask(1, P.Proceed), TakeControl([])];
    Two(c, steps, RespondTask(1, P.ToolReturns(Null, false)), TakeControl([]));
    steps := steps + [RespondTask(1, P.ToolReturns(Null, false)), TakeControl([])];
    var es := [P.ToolStarted(CALL), P.ToolCompleted("c", "t", Null, false)];
    assert goes.emitted + es == es;
    t := goes.(stage := P.Dispatching([]), emitted := goes.emitted + es, request := goes.request + P.PairOf(CALL, Null),
               executed := goes.executed + [P.ToolReturns(Null, false)]);
  }

  lemma UpToVoice(c: Config, before: seq<Step>, t: P.Task) returns (steps: seq<Step>, u: P.Task)
    requires Ample(c) && Talking(Run(Begin(c), before), c, 14, t, Current(1, None, None)) && t.stage == P.Dispatching([]) && t.round == 0
    ensures u.stage == P.Voicing(0, 0) && Talking(Run(Begin(c), steps), c, 11, u, Current(1, Some(REPLY), None))
  {
    hide Next, Run, Talking, ApplyPipeline;
    var none := Current(1, None, None);
    var taken;
    u := t.(round := 1, stage := P.Streaming("", []));
    steps := Works(c, before, 14, t, none, P.Proceed, u);
    var said := P.Emit(u.(reasoned := u.reasoned + [P.SaysDelta(REPLY)]), P.ReasoningDelta(REPLY), P.Streaming("" + REPLY, []));
    steps, taken := Tells(c, steps, 14, u, none, P.SaysDelta(REPLY), said, P.ReasoningDelta(REPLY));
    AppliesDelta(taken, c, 13, said);
    assert "" + REPLY == REPLY;
    u := said.(stage := P.Announcing(REPLY), reasoned := said.reasoned + [P.SaysDone]);
    NotBlank();
    steps := Works(c, steps, 13, said, none, P.SaysDone, u);
    said := P.Emit(u, P.ReasoningCompleted(REPLY), P.OpeningVoice(REPLY));
    steps, taken := Tells(c, steps, 13, u, none, P.Proceed, said, P.ReasoningCompleted(REPLY));
    AppliesReasoned(taken, c, 12, said);
    u := P.Emit(said, P.TtsStarted, P.Voicing(0, 0));
    steps, taken := Tells(c, steps, 12, said, Current(1, Some(REPLY), None), P.Proceed, u, P.TtsStarted);
    AppliesTts(taken, c, 11, u, P.TtsStarted);
  }

  lemma NotBlank()
    ensures !P.TtsText.AllSpace(REPLY)
  {
    assert REPLY[0] == 'r';
  }

  lemma UpToCompletion(c: Config, before: seq<Step>, t: P.Task) returns (steps: seq<Step>)
    requires Ample(c) && Talking(Run(Begin(c), before), c, 11, t, Current(1, Some(REPLY), None)) && t.stage == P.Voicing(0, 0)
    ensures Quiet(Run(Begin(c), steps), c, 9)
  {
    hide Next, Run, Talking, ApplyPipeline, Quiet;
    var reply := Current(1, Some(REPLY), None);
    var taken;
    var spoke := P.Emit(t.(sung := t.sung + [P.TtsFrame([0, 0])]), P.Audio(0, [0, 0]), P.Voicing(1, 2));
    steps, taken := Tells(c, before, 11, t, reply, P.TtsFrame([0, 0]), spoke, P.Audio(0, [0, 0]));
    AppliesAudio(taken, c, 10, spoke);
    var closing := spoke.(stage := P.ClosingVoice, sung := spoke.sung + [P.StreamEnds]);
    steps := Works(c, steps, 10, spoke, reply, P.StreamEnds, closing);
    var closed := P.Emit(closing, P.TtsCompleted, P.Completing);
    steps, taken := Tells(c, steps, 10, closing, reply, P.Proceed, closed, P.TtsCompleted);
    AppliesTts(taken, c, 9, closed, P.TtsCompleted);
    var over := P.Emit(closed, P.Completed, P.Over);
    steps, taken := Tells(c, steps, 9, closed, reply, P.Proceed, over, P.Completed);
    AppliesCompletion(taken, c, 9, over);
  }

  /** There is a run in which one response, after a tool call, completes uninterrupted and the
      session ends in session.completed: it is announced and completed once, and its reply is the
      one assistant message. */
  lemma AnsweredIsReachable(c: Config) returns (steps: seq<Step>)
    requires Ample(c)
    ensures var s := Run(Begin(c), steps);
            && Reached(c, steps, s) && EndsOrderly(s.io.spool.accepted)
            && Completions(s.io.outputs, true) == [1] && Completions(s.io.outputs, false) == [1]
            && AssistantTexts(s.dialogue.pushed) == [REPLY]
  {
    hide Next, Run, Talking, Quiet;
    var t;
    steps, t := UpToTool(c);
    steps, t := UpToVoice(c, steps, t);
    steps := UpToCompletion(c, steps, t);
    var quiet := Run(Begin(c), steps);
    Ends(quiet, c, 8);
    QuietParts(quiet, c, 9);
    Two(c, steps, Operate(false), TakeControl([]));
    steps := steps + [Operate(false), TakeControl([])];
    var s := Run(Begin(c), steps);
    Told(c, steps, s);
  }

  lemma QuietParts(s: Session, c: Config, n: nat)
    requires Quiet(s, c, n)
    ensures s.input.epoch < U64_MAX && s.dialogue.answers == [Answer(1, REPLY)] && s.dialogue.epoch == 1
  {
  }

  lemma Told(c: Config, steps: seq<Step>, s: Session)
    requires Ample(c) && s == Run(Begin(c), steps) && s.input.epoch < U64_MAX
    requires EndsOrderly(s.io.spool.accepted) && s.dialogue.answers == [Answer(1, REPLY)] && s.dialogue.epoch == 1
    ensures Reached(c, steps, s) && AssistantTexts(s.dialogue.pushed) == [REPLY]
    ensures Completions(s.io.outputs, false) == [1] && Completions(s.io.outputs, true) == [1]
  {
    hide Run, EndsOrderly, AssistantTexts, Completions;
    OrderlyStory(c, steps, s);
    CompletionsSeen(s.io.outputs);
    assert Upto(1) == [1];
  }

  /** And on the way there is a running state whose current response has had a tool call, about
      which `ContextAgrees` speaks. */
  lemma ToolContextIsReachable(c: Config) returns (steps: seq<Step>)
    requires Ample(c)
    ensures var s := Run(Begin(c), steps);
            && Reached(c, steps, s) && s.life.Live? && Running(s) && s.dialogue.current.Some?
            && s.dialogue.current.value.epoch in s.dialogue.delivered
            && P.ToolPairs(s.dialogue.delivered[s.dialogue.current.value.epoch]) == [P.PairOf(CALL, Null)]
  {
    hide Run, P.ToolPairs;
    var t;
    steps, t := UpToTool(c);
    OnePair();
  }

  lemma OnePair()
    ensures P.ToolPairs([P.ToolStarted(CALL), P.ToolCompleted("c", "t", Null, false)]) == [P.PairOf(CALL, Null)]
  {
    var a, b := P.ToolStarted(CALL), P.ToolCompleted("c", "t", Null, false);
    assert [] + [a] == [a] && [a] + [b] == [a, b];
    P.FollowOne([], a);
    P.ToolPairsOne([], a);
    P.ToolPairsOne([a], b);
  }
}
