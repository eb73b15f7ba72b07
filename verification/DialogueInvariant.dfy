/** What every handler keeps about responses: tasks, queue and actor agree; the client's view is
    fenced; completions, answers and history tell the same story. Stated over the dialogue, the
    control lane and the client's view, with one lemma for each way they change together. */
module DialogueInvariant {
  import opened Common
  import opened History
  import opened ClientView
  import opened SessionModel
  import EventSpool
  import P = ResponsePipeline

  // ---------- tasks and queue ----------

  /** The queued events of one response, in order. */
  function PipelineOf(control: seq<Command>, e: nat): seq<P.PipelineEvent> {
    if control == [] then []
    else (if control[0].Pipeline? && control[0].epoch == e then [control[0].event] else []) + PipelineOf(control[1..], e)
  }

  lemma {:induction false} PipelineOfAppend(control: seq<Command>, c: Command, e: nat)
    ensures PipelineOf(control + [c], e) == PipelineOf(control, e) + (if c.Pipeline? && c.epoch == e then [c.event] else [])
  {
    if control == [] {
      assert control + [c] == [c] && [c][1..] == [];
    } else {
      assert (control + [c])[0] == control[0] && (control + [c])[1..] == control[1..] + [c];
      PipelineOfAppend(control[1..], c, e);
    }
  }

  lemma {:induction false} PipelineOfNone(control: seq<Command>, e: nat)
    requires forall c :: c in control && c.Pipeline? ==> c.epoch != e
    ensures PipelineOf(control, e) == []
  {
    if control != [] {
      assert control[0] in control;
      assert forall c :: c in control[1..] ==> c in control;
      PipelineOfNone(control[1..], e);
    }
  }

  ghost predicate TaskLogged(d: Dialogue, control: seq<Command>, e: nat)
    requires e in d.tasks && e in d.delivered
  {
    P.TaskOk(d.tasks[e]) && d.delivered[e] + PipelineOf(control, e) == d.tasks[e].emitted
  }

  /** First-in first-out: what was taken off the queue, then what is on it, is what a task sent. */
  ghost predicate Tasks(d: Dialogue, control: seq<Command>) {
    && d.tasks.Keys == d.delivered.Keys && d.tasks.Keys == d.turns.Keys
    && (forall e :: e in d.tasks ==> 1 <= e <= d.epoch && TaskLogged(d, control, e))
    && (forall c :: c in control && c.Pipeline? ==> c.epoch in d.tasks)
  }

  /** So everything taken off the queue is grammatical. */
  lemma DeliveredGrammatical(d: Dialogue, control: seq<Command>, e: nat)
    requires Tasks(d, control) && e in d.tasks
    ensures e in d.delivered && P.Grammatical(d.delivered[e])
  {
    assert TaskLogged(d, control, e);
    P.TaskOkGrammar(d.tasks[e]);
    P.GrammarPrefix(d.delivered[e], PipelineOf(control, e));
  }

  lemma TasksEnqueue(d: Dialogue, control: seq<Command>, c: Command)
    requires Tasks(d, control) && !c.Pipeline?
    ensures Tasks(d, control + [c])
  {
    forall e | e in d.tasks
      ensures TaskLogged(d, control + [c], e)
    {
      assert TaskLogged(d, control, e);
      PipelineOfAppend(control, c, e);
    }
  }

  /** Taking any other command off the lane. */
  lemma TasksDequeue(d: Dialogue, control: seq<Command>)
    requires Tasks(d, control) && control != [] && !control[0].Pipeline?
    ensures Tasks(d, control[1..])
  {
    hide P.TaskOk;
    assert forall c :: c in control[1..] ==> c in control;
    forall e | e in d.tasks
      ensures TaskLogged(d, control[1..], e)
    {
      assert TaskLogged(d, control, e);
      SkipHead(control, e);
      hide PipelineOf;
    }
  }

  lemma SkipHead(control: seq<Command>, e: nat)
    requires control != [] && !control[0].Pipeline?
    ensures PipelineOf(control, e) == PipelineOf(control[1..], e)
  {
    assert [] + PipelineOf(control[1..], e) == PipelineOf(control[1..], e);
  }

  lemma QueuedIsKnown(d: Dialogue, control: seq<Command>)
    requires Tasks(d, control) && control != [] && control[0].Pipeline?
    ensures control[0].epoch in d.delivered && control[0].epoch in d.tasks
    ensures forall c :: c in control[1..] && c.Pipeline? ==> c.epoch in d.tasks
  {
    assert control[0] in control;
    assert forall c :: c in control[1..] ==> c in control;
  }

  lemma LoggedHead(d: Dialogue, control: seq<Command>, e: nat)
    requires e in d.tasks && e in d.delivered && TaskLogged(d, control, e) && control != [] && control[0].Pipeline?
    ensures var more := if control[0].epoch == e then [control[0].event] else [];
            d.delivered[e] + more + PipelineOf(control[1..], e) == d.tasks[e].emitted
  {
    var more := if control[0].epoch == e then [control[0].event] else [];
    assert d.delivered[e] + (more + PipelineOf(control[1..], e)) == d.delivered[e] + more + PipelineOf(control[1..], e);
  }

  /** Taking a pipeline event off the lane and logging it. */
  lemma TasksLog(d: Dialogue, control: seq<Command>)
    requires Tasks(d, control) && control != [] && control[0].Pipeline?
    ensures var e := control[0].epoch;
            && e in d.delivered && e in d.tasks
            && Tasks(d.(delivered := d.delivered[e := d.delivered[e] + [control[0].event]]), control[1..])
  {
    hide P.TaskOk;
    QueuedIsKnown(d, control);
    var at := control[0].epoch;
    var d' := d.(delivered := d.delivered[at := d.delivered[at] + [control[0].event]]);
    forall e | e in d'.tasks
      ensures TaskLogged(d', control[1..], e)
    {
      assert TaskLogged(d, control, e);
      LoggedHead(d, control, e);
      hide PipelineOf;
      assert d.delivered[e] + [] == d.delivered[e];
    }
  }

  /** A task's step sends what it emits. */
  lemma TasksStep(d: Dialogue, control: seq<Command>, e: nat, limits: P.Budgets, answer: P.Input)
    requires Tasks(d, control) && e in d.tasks
    ensures var t := d.tasks[e];
            var u := P.Step(t, limits, answer);
            && u.initial == t.initial && |u.emitted| <= |t.emitted| + 1
            && Tasks(d.(tasks := d.tasks[e := u]),
                     control + (if |u.emitted| > |t.emitted| then [Pipeline(e, u.emitted[|t.emitted|])] else []))
  {
    hide P.TaskOk, P.Step;
    var t := d.tasks[e];
    var u := P.Step(t, limits, answer);
    assert TaskLogged(d, control, e);
    P.StepOk(t, limits, answer);
    if |u.emitted| > |t.emitted| {
      TasksSend(d, control, e, u);
    } else {
      assert control + [] == control;
      TasksReplace(d, control, e, u);
    }
  }

  lemma TasksSend(d: Dialogue, control: seq<Command>, e: nat, u: P.Task)
    requires Tasks(d, control) && e in d.tasks && P.TaskOk(u)
    requires var n := |d.tasks[e].emitted|; |u.emitted| == n + 1 && u.emitted[..n] == d.tasks[e].emitted
    ensures Tasks(d.(tasks := d.tasks[e := u]), control + [Pipeline(e, u.emitted[|d.tasks[e].emitted|])])
  {
    hide P.TaskOk;
    var c := Pipeline(e, u.emitted[|d.tasks[e].emitted|]);
    var d' := d.(tasks := d.tasks[e := u]);
    assert u.emitted == d.tasks[e].emitted + [c.event];
    forall k | k in d'.tasks
      ensures TaskLogged(d', control + [c], k)
    {
      assert TaskLogged(d, control, k);
      PipelineOfAppend(control, c, k);
      hide PipelineOf;
      assert d.delivered[k] + (PipelineOf(control, k) + [c.event]) == d.delivered[k] + PipelineOf(control, k) + [c.event];
    }
  }

  lemma TasksReplace(d: Dialogue, control: seq<Command>, e: nat, u: P.Task)
    requires Tasks(d, control) && e in d.tasks && P.TaskOk(u) && u.emitted == d.tasks[e].emitted
    ensures Tasks(d.(tasks := d.tasks[e := u]), control)
  {
    hide P.TaskOk;
    var d' := d.(tasks := d.tasks[e := u]);
    forall k | k in d'.tasks
      ensures TaskLogged(d', control, k)
    {
      assert TaskLogged(d, control, k);
    }
  }

  /** Everything but the tasks, their logs and the epoch is irrelevant here. */
  lemma TasksFrame(d: Dialogue, d': Dialogue, control: seq<Command>)
    requires Tasks(d, control)
    requires d'.tasks == d.tasks && d'.delivered == d.delivered && d'.turns == d.turns && d'.epoch >= d.epoch
    ensures Tasks(d', control)
  {
    forall e | e in d'.tasks
      ensures TaskLogged(d', control, e)
    {
      assert TaskLogged(d, control, e);
    }
  }

  /** A new response's task starts with nothing sent. */
  lemma TasksSpawn(d: Dialogue, d': Dialogue, control: seq<Command>, request: seq<Message>, turn: Turn)
    requires Tasks(d, control) && d'.epoch == d.epoch + 1
    requires d'.tasks == d.tasks[d'.epoch := P.Spawn(request)] && d'.turns == d.turns[d'.epoch := turn]
    requires d'.delivered == d.delivered[d'.epoch := []]
    ensures Tasks(d', control)
  {
    P.SpawnOk(request);
    hide P.TaskOk;
    forall e | e in d'.tasks
      ensures TaskLogged(d', control, e)
    {
      if e == d'.epoch {
        PipelineOfNone(control, e);
      } else {
        assert TaskLogged(d, control, e);
      }
    }
  }

  // ---------- the current response and the client's view ----------

  /** The actor's pending fields are what the events it has handled say. */
  ghost predicate PendingAgrees(c: Current, p: P.Progress) {
    && c.pendingTool == (if p.InTool? then Some(p.call) else None)
    && c.pendingAssistant == (if p.Reasoned? || p.Speaking? || p.Spoken? then Some(p.text) else None)
    && !p.Finished? && !p.Broken? && !p.OffGrammar?
  }

  ghost predicate Talk(d: Dialogue, v: View) {
    && v.ok && v.epoch <= d.epoch
    && (d.current.Some? ==>
          && d.current.value.epoch == d.epoch && d.epoch in d.delivered && d.epoch in d.turns
          && var p := P.Follow(d.delivered[d.epoch]);
          && PendingAgrees(d.current.value, p)
          && (if v.epoch == d.epoch then !v.closed && v.frames == P.Frames(p) else P.Frames(p) == 0))
  }

  // ---------- completions, answers and history ----------

  function Upto(n: nat): seq<nat> {
    seq(n, i => i + 1)
  }

  /** The responses announced by reasoning.started, in order. */
  function Starts(accepted: seq<EventSpool.Sealed>): seq<nat> {
    if accepted == [] then []
    else
      var last := accepted[|accepted| - 1].event;
      Starts(accepted[..|accepted| - 1]) + (if last.kind.ReasoningStarted? then [last.epoch] else [])
  }

  lemma StartsOne(accepted: seq<EventSpool.Sealed>, x: EventSpool.Sealed)
    ensures Starts(accepted + [x]) == Starts(accepted) + (if x.event.kind.ReasoningStarted? then [x.event.epoch] else [])
  {
    assert (accepted + [x])[..|accepted|] == accepted;
  }

  /** The assistant messages among the pushed groups, in order. */
  function AssistantTexts(pushed: seq<Group>): seq<string> {
    if pushed == [] then []
    else
      var last := pushed[|pushed| - 1];
      AssistantTexts(pushed[..|pushed| - 1]) + (if |last| == 1 && last[0].Assistant? then [last[0].text] else [])
  }

  lemma AssistantTextsOne(pushed: seq<Group>, g: Group)
    ensures AssistantTexts(pushed + [g]) == AssistantTexts(pushed) + (if |g| == 1 && g[0].Assistant? then [g[0].text] else [])
  {
    assert (pushed + [g])[..|pushed|] == pushed;
  }

  function Epochs(answers: seq<Answer>): seq<nat> {
    seq(|answers|, i requires 0 <= i < |answers| => answers[i].epoch)
  }

  function Texts(answers: seq<Answer>): seq<string> {
    seq(|answers|, i requires 0 <= i < |answers| => answers[i].text)
  }

  /** An answer is the finished text of the response it names. */
  ghost predicate Answered(d: Dialogue, a: Answer) {
    a.epoch in d.delivered && P.Follow(d.delivered[a.epoch]).Finished? && P.Follow(d.delivered[a.epoch]).text == a.text
  }

  /** Every response before the current one was announced once and completed once, and the
      assistant messages are the answers of those completed uninterrupted. */
  ghost predicate Story(d: Dialogue, v: View, starts: seq<nat>) {
    && starts == Upto(d.epoch)
    && (d.current.Some? ==> d.epoch > 0)
    && v.completed == Upto(if d.current.Some? then d.epoch - 1 else d.epoch)
    && v.answered == Epochs(d.answers)
    && AssistantTexts(d.pushed) == Texts(d.answers)
    && (forall i :: 0 <= i < |d.answers| ==> Answered(d, d.answers[i]))
  }

  /** The task's first request is the history before the turn plus the user's text, and since then
      the actor has pushed that text and the tool exchanges it has handled. */
  ghost predicate Context(d: Dialogue, limits: Limits) {
    && d.history == Retained(d.pushed, limits)
    && (forall e :: e in d.turns && e in d.tasks ==>
          d.tasks[e].initial == Concat(Retained(d.turns[e].before, limits)) + [User(d.turns[e].text)])
    && (d.current.Some? && d.epoch in d.turns && d.epoch in d.delivered ==>
          d.pushed == d.turns[d.epoch].before + [[User(d.turns[d.epoch].text)]] + P.ToolPairs(d.delivered[d.epoch]))
  }

  ghost predicate Sound(d: Dialogue, v: View, starts: seq<nat>, limits: Limits) {
    Talk(d, v) && Story(d, v, starts) && Context(d, limits)
  }

  // ---------- how they change ----------

  /** Dropping the current response and telling the client it was interrupted. */
  lemma InterruptSound(d: Dialogue, v: View, starts: seq<nat>, limits: Limits)
    requires Sound(d, v, starts, limits) && d.current.Some?
    ensures var e := d.current.value.epoch;
            Sound(d.(current := None), Observe(v, ResponseCompleted(e, true)), starts, limits)
  {
    hide P.Follow, PendingAgrees;
    assert Upto(d.epoch - 1) + [d.epoch] == Upto(d.epoch);
  }

  /** A response begins: its user text is pushed, it is announced, and it becomes current. */
  lemma LaunchSound(d: Dialogue, d': Dialogue, v: View, starts: seq<nat>, limits: Limits, text: string)
    requires Sound(d, v, starts, limits) && d.current.None?
    requires d'.epoch == d.epoch + 1 && d'.current == Some(Current(d'.epoch, None, None))
    requires d'.pushed == d.pushed + [[User(text)]]
    requires d'.history == Retained(d.history + [[User(text)]], limits)
    requires d'.answers == d.answers
    requires d'.tasks == d.tasks[d'.epoch := P.Spawn(Concat(d.history) + [User(text)])]
    requires d'.turns == d.turns[d'.epoch := Turn(d.pushed, text)]
    requires d'.delivered == d.delivered[d'.epoch := []]
    requires d'.epoch !in d.delivered
    ensures Sound(d', v, starts + [d'.epoch], limits)
  {
    assert P.Follow([]) == P.Reasoning("") && P.ToolPairs([]) == [];
    assert Upto(d.epoch) + [d.epoch + 1] == Upto(d.epoch + 1);
    AssistantTextsOne(d.pushed, [User(text)]);
    assert AssistantTexts(d.pushed) + [] == AssistantTexts(d.pushed);
    RetainedAgain(d.pushed, [[User(text)]], limits);
    assert d.pushed + [[User(text)]] + [] == d.pushed + [[User(text)]];
    forall i | 0 <= i < |d'.answers|
      ensures Answered(d', d'.answers[i])
    {
      assert Answered(d, d.answers[i]);
    }
  }

  function Log(d: Dialogue, e: nat, ev: P.PipelineEvent): Dialogue
    requires e in d.delivered
  {
    d.(delivered := d.delivered[e := d.delivered[e] + [ev]])
  }

  /** Logging an event that is not the current response's changes nothing else: in particular a
      finished response has nothing more to say. */
  lemma StaleSound(d: Dialogue, v: View, starts: seq<nat>, limits: Limits, e: nat, ev: P.PipelineEvent)
    requires Sound(d, v, starts, limits) && e in d.delivered && P.Grammatical(d.delivered[e] + [ev])
    requires d.current.None? || d.current.value.epoch != e
    ensures Sound(Log(d, e, ev), v, starts, limits)
  {
    var d' := Log(d, e, ev);
    forall i | 0 <= i < |d.answers|
      ensures Answered(d', d.answers[i])
    {
      AnswerKept(d, e, ev, d.answers[i]);
    }
    hide Answered, P.Follow, P.ToolPairs;
  }

  lemma AnswerKept(d: Dialogue, e: nat, ev: P.PipelineEvent, a: Answer)
    requires e in d.delivered && P.Grammatical(d.delivered[e] + [ev]) && Answered(d, a)
    ensures Answered(Log(d, e, ev), a)
  {
    if a.epoch == e {
      P.FinishedIsLast(d.delivered[e], [ev]);
      assert false;
    }
  }

  /** How the client's view moves with an event of the current response. */
  function Shown(v: View, e: nat, ev: P.PipelineEvent): View {
    match ev
    case ReasoningDelta(text) => Observe(v, Delta(e, text))
    case Audio(n, bytes) => Observe(v, Voice(e, n, bytes))
    case _ => v
  }

  /** An event of the current response that leaves it current. */
  lemma MovedSound(d: Dialogue, v: View, starts: seq<nat>, limits: Limits, ev: P.PipelineEvent, c': Current, d': Dialogue)
    requires Sound(d, v, starts, limits) && d.current.Some?
    requires P.Grammatical(d.delivered[d.epoch] + [ev]) && !ev.Completed? && !ev.Failed?
    requires c'.epoch == d.epoch && PendingAgrees(c', P.Next(P.Follow(d.delivered[d.epoch]), ev))
    requires var more := P.ToolPairs(d.delivered[d.epoch] + [ev]);
             var added := more[|P.ToolPairs(d.delivered[d.epoch])|..];
             d' == Log(d, d.epoch, ev).(current := Some(c'), pushed := d.pushed + added,
                                        history := Retained(d.history + added, limits))
             || (added == [] && d' == Log(d, d.epoch, ev).(current := Some(c')))
    ensures Sound(d', Shown(v, d.epoch, ev), starts, limits)
  {
    hide P.Follow, P.Next, P.Grammatical, P.ToolPairs, PendingAgrees, Retained, Story, Context, Shown;
    assert d.pushed + [] == d.pushed;
    MovedTalk(d, v, ev, c', d');
    MovedContext(d, limits, ev, d');
    MovedStory(d, v, starts, ev, d');
    hide Talk;
  }

  lemma MovedTalk(d: Dialogue, v: View, ev: P.PipelineEvent, c': Current, d': Dialogue)
    requires Talk(d, v) && d.current.Some? && P.Grammatical(d.delivered[d.epoch] + [ev]) && !ev.Completed? && !ev.Failed?
    requires c'.epoch == d.epoch && PendingAgrees(c', P.Next(P.Follow(d.delivered[d.epoch]), ev))
    requires d'.current == Some(c') && d'.epoch == d.epoch && d'.turns == d.turns && d'.delivered == Log(d, d.epoch, ev).delivered
    ensures Talk(d', Shown(v, d.epoch, ev))
  {
    P.FollowOne(d.delivered[d.epoch], ev);
    hide P.Follow;
  }

  lemma MovedContext(d: Dialogue, limits: Limits, ev: P.PipelineEvent, d': Dialogue)
    requires Context(d, limits) && d.current.Some? && d'.current.Some? && d.epoch in d.turns && d.epoch in d.delivered
    requires d'.tasks == d.tasks && d'.turns == d.turns && d'.epoch == d.epoch
    requires d'.delivered == Log(d, d.epoch, ev).delivered
    requires var added := P.ToolPairs(d.delivered[d.epoch] + [ev])[|P.ToolPairs(d.delivered[d.epoch])|..];
             (d'.pushed == d.pushed + added && d'.history == Retained(d.history + added, limits))
             || (added == [] && d'.pushed == d.pushed && d'.history == d.history)
    ensures Context(d', limits)
  {
    var es := d.delivered[d.epoch];
    P.ToolPairsPrefix(es, [ev]);
    hide P.ToolPairs;
    var added := P.ToolPairs(es + [ev])[|P.ToolPairs(es)|..];
    assert P.ToolPairs(es + [ev]) == P.ToolPairs(es) + added;
    RetainedAgain(d.pushed, added, limits);
    assert d.pushed + [] == d.pushed;
    var base := d.turns[d.epoch].before + [[User(d.turns[d.epoch].text)]];
    assert base + P.ToolPairs(es) + added == base + (P.ToolPairs(es) + added);
  }

  lemma MovedStory(d: Dialogue, v: View, starts: seq<nat>, ev: P.PipelineEvent, d': Dialogue)
    requires Story(d, v, starts) && d.current.Some? && d'.current.Some? && d.epoch in d.delivered
    requires P.Grammatical(d.delivered[d.epoch] + [ev])
    requires d'.epoch == d.epoch && d'.answers == d.answers && d'.delivered == Log(d, d.epoch, ev).delivered
    requires var added := P.ToolPairs(d.delivered[d.epoch] + [ev])[|P.ToolPairs(d.delivered[d.epoch])|..];
             d'.pushed == d.pushed + added
    ensures Story(d', Shown(v, d.epoch, ev), starts)
  {
    var es := d.delivered[d.epoch];
    P.ToolPairsOne(es, ev);
    var added := P.ToolPairs(es + [ev])[|P.ToolPairs(es)|..];
    hide P.ToolPairs;
    if added != [] {
      assert added == [added[0]] && |added[0]| == 2;
      AssistantTextsOne(d.pushed, added[0]);
    }
    assert d.pushed + [] == d.pushed && AssistantTexts(d.pushed) + [] == AssistantTexts(d.pushed);
    forall i | 0 <= i < |d'.answers|
      ensures Answered(d', d'.answers[i])
    {
      AnswerKept(d, d.epoch, ev, d.answers[i]);
    }
    hide Answered, P.Follow;
  }

  /** A finished response: its text is pushed, it stops being current, and the client is told. */
  lemma FinishSound(d: Dialogue, v: View, starts: seq<nat>, limits: Limits, d': Dialogue, text: string)
    requires Sound(d, v, starts, limits) && d.current.Some?
    requires P.Grammatical(d.delivered[d.epoch] + [P.Completed])
    requires d.current.value.pendingAssistant == Some(text)
    requires d' == Log(d, d.epoch, P.Completed).(current := None, answers := d.answers + [Answer(d.epoch, text)],
                     pushed := d.pushed + [[Assistant(text)]], history := Retained(d.history + [[Assistant(text)]], limits))
    ensures Sound(d', Observe(v, ResponseCompleted(d.epoch, false)), starts, limits)
  {
    hide P.Follow, P.ToolPairs, P.Grammatical, Retained, PendingAgrees;
    FinishStory(d, v, starts, d', text);
    RetainedAgain(d.pushed, [[Assistant(text)]], limits);
    hide Story;
  }

  lemma FinishStory(d: Dialogue, v: View, starts: seq<nat>, d': Dialogue, text: string)
    requires Talk(d, v) && Story(d, v, starts) && d.current.Some?
    requires P.Grammatical(d.delivered[d.epoch] + [P.Completed])
    requires d.current.value.pendingAssistant == Some(text)
    requires d'.current.None? && d'.epoch == d.epoch && d'.delivered == Log(d, d.epoch, P.Completed).delivered
    requires d'.answers == d.answers + [Answer(d.epoch, text)] && d'.pushed == d.pushed + [[Assistant(text)]]
    ensures Story(d', Observe(v, ResponseCompleted(d.epoch, false)), starts)
  {
    var e := d.epoch;
    P.FollowOne(d.delivered[e], P.Completed);
    AssistantTextsOne(d.pushed, [Assistant(text)]);
    assert Upto(e - 1) + [e] == Upto(e);
    assert Epochs(d.answers) + [e] == Epochs(d'.answers);
    assert Texts(d.answers) + [text] == Texts(d'.answers);
    assert Answered(d', Answer(e, text));
    forall i | 0 <= i < |d'.answers|
      ensures Answered(d', d'.answers[i])
    {
      if i < |d.answers| {
        AnswerKept(d, e, P.Completed, d.answers[i]);
      }
    }
    hide P.Follow, Answered, AssistantTexts;
  }
}
