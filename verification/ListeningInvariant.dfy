/** What every handler keeps about inputs: each input epoch is committed, finally transcribed and
    answered at most once, and what is transcribed is exactly the audio heard in that epoch. */
module ListeningInvariant {
  import opened Common
  import opened SessionModel
  import T = Transcription

  // ---------- ordered logs of epochs ----------

  predicate Ascending(xs: seq<nat>) {
    && (forall k :: 0 <= k < |xs| ==> xs[k] > 0)
    && (forall j, k :: 0 <= j < k < |xs| ==> xs[j] < xs[k])
  }

  function Last(xs: seq<nat>): nat {
    if xs == [] then 0 else xs[|xs| - 1]
  }

  lemma AscendingOne(xs: seq<nat>, x: nat)
    requires Ascending(xs) && Last(xs) < x
    ensures Ascending(xs + [x]) && Last(xs + [x]) == x
  {
  }

  /** Distinct positive numbers up to `bound` are at most `bound` many. */
  lemma {:induction false} AscendingBound(xs: seq<nat>, bound: nat)
    requires Ascending(xs) && Last(xs) <= bound
    ensures |xs| <= bound
  {
    if xs != [] {
      var prior := xs[..|xs| - 1];
      assert Last(prior) <= bound - 1;
      AscendingBound(prior, bound - 1);
    }
  }

  // ---------- tasks and queue ----------

  function SttOf(control: seq<Command>, e: nat): seq<T.SttEvent> {
    if control == [] then []
    else (if control[0].Stt? && control[0].epoch == e then [control[0].heard] else []) + SttOf(control[1..], e)
  }

  lemma {:induction false} SttOfAppend(control: seq<Command>, c: Command, e: nat)
    ensures SttOf(control + [c], e) == SttOf(control, e) + (if c.Stt? && c.epoch == e then [c.heard] else [])
  {
    if control == [] {
      assert control + [c] == [c] && [c][1..] == [];
    } else {
      assert (control + [c])[0] == control[0] && (control + [c])[1..] == control[1..] + [c];
      SttOfAppend(control[1..], c, e);
    }
  }

  lemma {:induction false} SttOfNone(control: seq<Command>, e: nat)
    requires forall c :: c in control && c.Stt? ==> c.epoch != e
    ensures SttOf(control, e) == []
  {
    if control != [] {
      assert control[0] in control;
      assert forall c :: c in control[1..] ==> c in control;
      SttOfNone(control[1..], e);
    }
  }

  ghost predicate SttLogged(i: Listening, control: seq<Command>, e: nat)
    requires e in i.tasks && e in i.delivered
  {
    T.TaskOk(i.tasks[e]) && i.delivered[e] + SttOf(control, e) == i.tasks[e].emitted
  }

  ghost predicate SttTasks(i: Listening, control: seq<Command>) {
    && i.tasks.Keys == i.delivered.Keys
    && (forall e :: e in i.tasks ==> e <= i.epoch && SttLogged(i, control, e))
    && (forall c :: c in control && c.Stt? ==> c.epoch in i.tasks)
  }

  lemma SttEnqueue(i: Listening, control: seq<Command>, c: Command)
    requires SttTasks(i, control) && !c.Stt?
    ensures SttTasks(i, control + [c])
  {
    forall e | e in i.tasks
      ensures SttLogged(i, control + [c], e)
    {
      assert SttLogged(i, control, e);
      SttOfAppend(control, c, e);
    }
  }

  lemma SttDequeue(i: Listening, control: seq<Command>)
    requires SttTasks(i, control) && control != [] && !control[0].Stt?
    ensures SttTasks(i, control[1..])
  {
    hide T.TaskOk;
    assert forall c :: c in control[1..] ==> c in control;
    forall e | e in i.tasks
      ensures SttLogged(i, control[1..], e)
    {
      assert SttLogged(i, control, e);
      SttHead(i, control, e);
      hide SttOf;
      assert i.delivered[e] + [] == i.delivered[e];
    }
  }

  function LogHeard(i: Listening, e: nat, heard: T.SttEvent): Listening
    requires e in i.delivered
  {
    i.(delivered := i.delivered[e := i.delivered[e] + [heard]])
  }

  lemma SttHead(i: Listening, control: seq<Command>, e: nat)
    requires e in i.tasks && e in i.delivered && SttLogged(i, control, e) && control != []
    ensures var more := if control[0].Stt? && control[0].epoch == e then [control[0].heard] else [];
            i.delivered[e] + more + SttOf(control[1..], e) == i.tasks[e].emitted
  {
    var more := if control[0].Stt? && control[0].epoch == e then [control[0].heard] else [];
    assert i.delivered[e] + (more + SttOf(control[1..], e)) == i.delivered[e] + more + SttOf(control[1..], e);
  }

  /** Taking a transcription event off the lane: a final one is the first for its epoch. */
  lemma SttLog(i: Listening, control: seq<Command>)
    requires SttTasks(i, control) && control != [] && control[0].Stt?
    ensures var e := control[0].epoch;
            && e in i.delivered && e in i.tasks
            && SttTasks(LogHeard(i, e, control[0].heard), control[1..])
            && (T.IsFinal(control[0].heard) ==> !T.HasFinal(i.delivered[e]))
  {
    hide T.TaskOk;
    assert control[0] in control;
    assert forall c :: c in control[1..] ==> c in control;
    var at := control[0].epoch;
    var i' := LogHeard(i, at, control[0].heard);
    forall e | e in i'.tasks
      ensures SttLogged(i', control[1..], e)
    {
      assert SttLogged(i, control, e);
      SttHead(i, control, e);
      hide SttOf;
      assert i.delivered[e] + [] == i.delivered[e];
    }
    assert SttLogged(i, control, at);
    FinalLogged(i, control);
  }

  lemma FinalLogged(i: Listening, control: seq<Command>)
    requires control != [] && control[0].Stt? && control[0].epoch in i.tasks && control[0].epoch in i.delivered
    requires SttLogged(i, control, control[0].epoch)
    ensures T.IsFinal(control[0].heard) ==> !T.HasFinal(i.delivered[control[0].epoch])
  {
    var at := control[0].epoch;
    if T.IsFinal(control[0].heard) {
      SttHead(i, control, at);
      EmittedGrammar(i.tasks[at]);
      T.FinalIsFirst(i.delivered[at], control[0].heard, SttOf(control[1..], at));
    }
  }

  lemma EmittedGrammar(t: T.Task)
    requires T.TaskOk(t)
    ensures T.Follow(t.emitted) != T.OffGrammar
  {
  }

  lemma SttStep(i: Listening, control: seq<Command>, e: nat, hears: T.Input)
    requires SttTasks(i, control) && e in i.tasks
    ensures var t := i.tasks[e];
            var u := T.Step(t, hears);
            && u.audio == t.audio && |u.emitted| <= |t.emitted| + 1
            && SttTasks(i.(tasks := i.tasks[e := u]),
                        control + (if |u.emitted| > |t.emitted| then [Stt(e, u.emitted[|t.emitted|])] else []))
  {
    hide T.TaskOk, T.Step;
    var t := i.tasks[e];
    var u := T.Step(t, hears);
    assert SttLogged(i, control, e);
    T.StepOk(t, hears);
    var i' := i.(tasks := i.tasks[e := u]);
    if |u.emitted| > |t.emitted| {
      SttSend(i, control, e, u);
    } else {
      assert control + [] == control;
      SttReplace(i, control, e, u);
    }
  }

  lemma SttSend(i: Listening, control: seq<Command>, e: nat, u: T.Task)
    requires SttTasks(i, control) && e in i.tasks && T.TaskOk(u)
    requires var n := |i.tasks[e].emitted|; |u.emitted| == n + 1 && u.emitted[..n] == i.tasks[e].emitted
    ensures SttTasks(i.(tasks := i.tasks[e := u]), control + [Stt(e, u.emitted[|i.tasks[e].emitted|])])
  {
    hide T.TaskOk;
    var c := Stt(e, u.emitted[|i.tasks[e].emitted|]);
    var i' := i.(tasks := i.tasks[e := u]);
    assert u.emitted == i.tasks[e].emitted + [c.heard];
    forall k | k in i'.tasks
      ensures SttLogged(i', control + [c], k)
    {
      assert SttLogged(i, control, k);
      SttOfAppend(control, c, k);
      hide SttOf;
      assert i.delivered[k] + (SttOf(control, k) + [c.heard]) == i.delivered[k] + SttOf(control, k) + [c.heard];
    }
  }

  lemma SttReplace(i: Listening, control: seq<Command>, e: nat, u: T.Task)
    requires SttTasks(i, control) && e in i.tasks && T.TaskOk(u) && u.emitted == i.tasks[e].emitted
    ensures SttTasks(i.(tasks := i.tasks[e := u]), control)
  {
    var i' := i.(tasks := i.tasks[e := u]);
    forall k | k in i'.tasks
      ensures SttLogged(i', control, k)
    {
      assert SttLogged(i, control, k);
    }
  }

  lemma SttFrame(i: Listening, i': Listening, control: seq<Command>)
    requires SttTasks(i, control)
    requires i'.tasks == i.tasks && i'.delivered == i.delivered && i'.epoch >= i.epoch
    ensures SttTasks(i', control)
  {
    forall e | e in i'.tasks
      ensures SttLogged(i', control, e)
    {
      assert SttLogged(i, control, e);
    }
  }

  // ---------- audio ----------

  /** The frames heard in one input epoch, in order. */
  function FramesOf(heard: seq<Heard>, e: nat): seq<seq<byte>> {
    if heard == [] then []
    else
      var last := heard[|heard| - 1];
      FramesOf(heard[..|heard| - 1], e) + (if last.epoch == e then [last.frame] else [])
  }

  lemma FramesOfOne(heard: seq<Heard>, h: Heard, e: nat)
    ensures FramesOf(heard + [h], e) == FramesOf(heard, e) + (if h.epoch == e then [h.frame] else [])
  {
    assert (heard + [h])[..|heard|] == heard;
  }

  lemma {:induction false} FramesOfNone(heard: seq<Heard>, e: nat)
    requires forall k :: 0 <= k < |heard| ==> heard[k].epoch < e
    ensures FramesOf(heard, e) == []
  {
    if heard != [] {
      FramesOfNone(heard[..|heard| - 1], e);
    }
  }

  function CommitEpochs(commits: seq<Commit>): seq<nat> {
    seq(|commits|, k requires 0 <= k < |commits| => commits[k].epoch)
  }

  /** What was handed to transcription for an epoch is exactly what was heard in it. */
  ghost predicate Faithful(i: Listening, e: nat, budget: nat)
    requires e in i.tasks
  {
    var audio := i.tasks[e].audio;
    audio == Concat(FramesOf(i.heard, e)) && audio != [] && |audio| % 2 == 0 && |audio| <= budget
  }

  /** Holds whatever else happens: the audio logs. */
  ghost predicate AudioLogs(i: Listening, budget: nat) {
    && Ascending(CommitEpochs(i.commits)) && Last(CommitEpochs(i.commits)) <= i.epoch
    && i.tasks.Keys == (set k | 0 <= k < |i.commits| :: i.commits[k].epoch)
    && (forall k :: 0 <= k < |i.heard| ==> i.heard[k].epoch <= i.epoch)
    && (forall e :: e in i.tasks ==> Faithful(i, e, budget))
  }

  /** While the loop runs: the buffer is the frames of the utterance in progress. */
  ghost predicate Buffer(i: Listening, budget: nat) {
    && (i.speaking ==> i.epoch > 0 && i.epoch !in i.tasks && i.audio == Concat(FramesOf(i.heard, i.epoch)))
    && (!i.speaking ==> i.audio == [])
    && |i.audio| <= budget && |i.audio| % 2 == 0
  }

  /** Holds whatever else happens: finals and responses come at most once per input epoch. */
  ghost predicate InputLogs(i: Listening, origins: seq<nat>, responses: nat, finals: seq<nat>) {
    && Ascending(finals) && Last(finals) <= i.epoch
    && Ascending(origins) && Last(origins) <= i.epoch && |origins| == responses
  }

  /** Neither a final transcript nor a response has come out of the current input epoch yet. */
  ghost predicate Fresh(i: Listening, origins: seq<nat>, finals: seq<nat>) {
    Last(finals) < i.epoch && Last(origins) < i.epoch
  }

  /** While the loop runs: an utterance still spoken, or committed and not yet finally heard, is
      fresh; and a current response belongs to the current input epoch. */
  ghost predicate Order(i: Listening, origins: seq<nat>, finals: seq<nat>, talking: bool) {
    && (i.speaking ==> Fresh(i, origins, finals))
    && (i.epoch in i.tasks && i.epoch in i.delivered && !T.HasFinal(i.delivered[i.epoch]) ==> Fresh(i, origins, finals))
    && (talking ==> Last(origins) == i.epoch)
  }

  lemma NewInputKeeps(i: Listening, i': Listening, budget: nat, origins: seq<nat>, responses: nat, finals: seq<nat>)
    requires AudioLogs(i, budget) && InputLogs(i, origins, responses, finals)
    requires i'.epoch == i.epoch + 1 && i'.audio == [] && i' == i.(epoch := i'.epoch, speaking := i'.speaking, audio := [])
    ensures AudioLogs(i', budget) && Buffer(i', budget) && InputLogs(i', origins, responses, finals)
    ensures Order(i', origins, finals, false) && Fresh(i', origins, finals) && i'.epoch !in i'.tasks
  {
    FramesOfNone(i.heard, i'.epoch);
    forall e | e in i.tasks
      ensures e <= i.epoch && Faithful(i', e, budget)
    {
      assert Faithful(i, e, budget);
      var k :| 0 <= k < |i.commits| && i.commits[k].epoch == e;
      var cs := CommitEpochs(i.commits);
      assert cs[k] <= cs[|cs| - 1];
    }
  }

  lemma FrameKeeps(i: Listening, i': Listening, frame: seq<byte>, budget: nat)
    requires AudioLogs(i, budget) && Buffer(i, budget) && i.speaking && |frame| % 2 == 0 && |i.audio| + |frame| <= budget
    requires i' == i.(audio := i.audio + frame, heard := i.heard + [Heard(i.epoch, frame)])
    ensures AudioLogs(i', budget) && Buffer(i', budget)
  {
    FramesOfOne(i.heard, Heard(i.epoch, frame), i.epoch);
    ConcatOne(FramesOf(i.heard, i.epoch), frame);
    forall e | e in i.tasks
      ensures Faithful(i', e, budget)
    {
      assert Faithful(i, e, budget);
      FramesOfOne(i.heard, Heard(i.epoch, frame), e);
      assert FramesOf(i.heard, e) + [] == FramesOf(i.heard, e);
    }
  }

  /** Committing hands over the buffered utterance, once. */
  lemma CommitKeeps(i: Listening, i': Listening, control: seq<Command>, budget: nat, origins: seq<nat>, finals: seq<nat>, talking: bool)
    requires AudioLogs(i, budget) && Buffer(i, budget) && SttTasks(i, control) && i.audio != []
    requires Order(i, origins, finals, talking)
    requires i' == i.(speaking := false, audio := [], commits := i.commits + [Commit(i.epoch, i.audio)],
                      tasks := i.tasks[i.epoch := T.Spawn(i.audio)], delivered := i.delivered[i.epoch := []])
    ensures AudioLogs(i', budget) && Buffer(i', budget) && SttTasks(i', control)
    ensures Order(i', origins, finals, talking)
  {
    CommitLogs(i, i', budget);
    CommitStt(i, i', control);
  }

  lemma CommitLogs(i: Listening, i': Listening, budget: nat)
    requires AudioLogs(i, budget) && Buffer(i, budget) && i.audio != []
    requires i'.commits == i.commits + [Commit(i.epoch, i.audio)] && i'.tasks == i.tasks[i.epoch := T.Spawn(i.audio)]
    requires i'.epoch == i.epoch && i'.heard == i.heard
    ensures AudioLogs(i', budget)
  {
    CommitOrdered(i, i', budget);
    CommitKeys(i.commits, i'.commits, i.epoch);
    hide FramesOf, Ascending;
    forall e | e in i'.tasks
      ensures Faithful(i', e, budget)
    {
      if e != i.epoch {
        assert Faithful(i, e, budget);
      }
    }
  }

  lemma CommitOrdered(i: Listening, i': Listening, budget: nat)
    requires AudioLogs(i, budget) && i.epoch > 0 && i.epoch !in i.tasks && i'.commits == i.commits + [Commit(i.epoch, i.audio)]
    ensures Ascending(CommitEpochs(i'.commits)) && Last(CommitEpochs(i'.commits)) <= i.epoch
  {
    hide Faithful;
    var cs := CommitEpochs(i.commits);
    assert CommitEpochs(i'.commits) == cs + [i.epoch];
    if cs != [] {
      assert i.commits[|cs| - 1].epoch in i.tasks;
    }
    hide Ascending;
    AscendingOne(cs, i.epoch);
  }

  lemma CommitKeys(commits: seq<Commit>, commits': seq<Commit>, epoch: nat)
    requires |commits'| == |commits| + 1 && commits'[..|commits|] == commits && commits'[|commits|].epoch == epoch
    ensures (set k | 0 <= k < |commits'| :: commits'[k].epoch) == (set k | 0 <= k < |commits| :: commits[k].epoch) + {epoch}
  {
    assert forall k :: 0 <= k < |commits| ==> commits'[k] == commits[k];
  }

  lemma CommitStt(i: Listening, i': Listening, control: seq<Command>)
    requires SttTasks(i, control) && i.epoch !in i.tasks && i'.epoch == i.epoch
    requires i'.tasks == i.tasks[i.epoch := T.Spawn(i.audio)] && i'.delivered == i.delivered[i.epoch := []]
    ensures SttTasks(i', control)
  {
    forall e | e in i'.tasks
      ensures SttLogged(i', control, e)
    {
      if e == i.epoch {
        SttOfNone(control, e);
      } else {
        assert SttLogged(i, control, e);
      }
    }
  }
}
