/** What clients are sent and what is recorded, over whole runs: exactly what response tasks and
    transcription tasks emitted, which is exactly what their providers said to them. */
module MirrorTheorems {
  import opened ClientView
  import opened SessionModel
  import opened DialogueInvariant
  import opened ListeningInvariant
  import opened SystemSafety
  import opened SessionTheorems
  import opened SessionMirror
  import R = ResponseMirror
  import U = TurnMirror
  import H = Greetings
  import E = EventSpool
  import P = ResponsePipeline
  import T = Transcription

  lemma ReachedMirrored(config: Config, steps: seq<Step>, s: Session)
    requires Reached(config, steps, s)
    ensures Mirrored(s)
  {
    hide Inv, Run, Mirrored;
    BeginInv(config);
    BeginMirrored(config);
    RunMirrored(Begin(config), steps);
  }

  // ---------- looking past the filters ----------

  lemma {:induction false} SpeechTells(outputs: seq<Output>, e: nat)
    ensures R.TextsTo(R.Speech(outputs), e) == R.TextsTo(outputs, e)
    ensures R.FramesTo(R.Speech(outputs), e) == R.FramesTo(outputs, e)
    ensures ResponseCompleted(e, false) in outputs ==> ResponseCompleted(e, false) in R.Speech(outputs)
  {
    if outputs != [] {
      var prior, last := outputs[..|outputs| - 1], outputs[|outputs| - 1];
      SpeechTells(prior, e);
      R.TextsOne(R.Speech(prior), last, e);
    }
  }

  lemma {:induction false} TalksTell(outputs: seq<Output>, k: nat)
    ensures U.WordsTo(U.Talks(outputs), k) == U.WordsTo(outputs, k)
  {
    if outputs != [] {
      var prior, last := outputs[..|outputs| - 1], outputs[|outputs| - 1];
      TalksTell(prior, k);
      U.WordsOne(U.Talks(prior), last, k);
    }
  }

  /** A longer emission makes more due. */
  lemma {:induction false} DuePrefix(es: seq<P.PipelineEvent>, more: seq<P.PipelineEvent>)
    ensures R.Within(R.Due(es), R.Due(es + more))
    decreases |more|
  {
    if more == [] {
      assert es + more == es;
    } else {
      hide R.Due;
      var shorter := more[..|more| - 1];
      assert es + more == (es + shorter) + [more[|more| - 1]];
      DuePrefix(es, shorter);
      R.DueGrows(R.Due(es), es + shorter, more[|more| - 1]);
    }
  }

  // ---------- responses ----------

  /** What the client was sent of a response, and what was recorded about it. */
  function Sent(s: Session, e: nat): R.Told {
    R.Told(R.TextsTo(s.io.outputs, e), R.FramesTo(s.io.outputs, e), R.KindsFor(R.Minutes(s.io.spool.accepted), e))
  }

  lemma SentIs(s: Session, e: nat)
    ensures Sent(s, e) == R.ToldOf(TraceOf(s.io).speech, TraceOf(s.io).minutes, e)
  {
    hide R.TextsTo, R.FramesTo, R.Minutes, R.KindsFor;
    SpeechTells(s.io.outputs, e);
  }

  /** The texts and frames a client is sent for a response, and the milestones recorded for it, are
      those of its task's emissions, in order and unchanged: of a prefix of them; of everything taken
      off the lane while the response is current; of everything ever emitted, which is everything the
      reasoner and the synthesizer said, once the response is completed uninterrupted. */
  lemma ResponsesAreMirrored(config: Config, steps: seq<Step>, s: Session, e: nat)
    requires Reached(config, steps, s)
    ensures e !in s.dialogue.tasks ==> Sent(s, e) == R.Told([], [], [])
    ensures e in s.dialogue.tasks ==>
              && e in s.dialogue.delivered && s.dialogue.delivered[e] <= s.dialogue.tasks[e].emitted
              && R.Within(Sent(s, e), R.Due(s.dialogue.delivered[e])) && R.Within(Sent(s, e), R.Due(s.dialogue.tasks[e].emitted))
              && Sent(s, e).texts <= P.SaidTexts(s.dialogue.tasks[e].reasoned)
              && Sent(s, e).frames <= P.SungFrames(s.dialogue.tasks[e].sung)
    ensures s.dialogue.current.Some? && s.dialogue.current.value.epoch == e && e in s.dialogue.delivered && !Faulted(s) ==>
              Sent(s, e) == R.Due(s.dialogue.delivered[e])
    ensures ResponseCompleted(e, false) in s.io.outputs ==>
              && e in s.dialogue.tasks && Sent(s, e) == R.Due(s.dialogue.tasks[e].emitted)
              && Sent(s, e).texts == P.SaidTexts(s.dialogue.tasks[e].reasoned)
              && Sent(s, e).frames == P.SungFrames(s.dialogue.tasks[e].sung)
  {
    hide Reached, Stage, Lanes, Mirrored, Sent, Tasks, See, Starts, E.Inv, SttTasks, AudioLogs, InputLogs, R.Due, R.Within, P.SaidTexts, P.SungFrames;
    ReachedInv(config, steps, s);
    ReachedMirrored(config, steps, s);
    SentWithin(s, e);
    TasksKnown(s.dialogue, s.control);
    if e in s.dialogue.tasks {
      TaskMirrored(s.dialogue, s.control, Sent(s, e), e);
    }
  }

  lemma TasksKnown(d: Dialogue, control: seq<Command>)
    requires Tasks(d, control)
    ensures d.tasks.Keys == d.delivered.Keys
  {
  }

  lemma SentWithin(s: Session, e: nat)
    requires Mirrored(s)
    ensures if e in s.dialogue.delivered then R.Within(Sent(s, e), R.Due(s.dialogue.delivered[e])) else Sent(s, e) == R.Told([], [], [])
    ensures s.dialogue.current.Some? && s.dialogue.current.value.epoch == e && e in s.dialogue.delivered && !Faulted(s) ==>
              Sent(s, e) == R.Due(s.dialogue.delivered[e])
    ensures ResponseCompleted(e, false) in s.io.outputs ==>
              e in s.dialogue.delivered && P.Follow(s.dialogue.delivered[e]).Finished? && Sent(s, e) == R.Due(s.dialogue.delivered[e])
  {
    hide Sent, R.Due, R.Within, U.Turns, H.Greeted, Even, P.Follow, R.ToldOf;
    SentIs(s, e);
    SpeechTells(s.io.outputs, e);
  }

  /** From what was taken off the lane to what was emitted, and on to what the providers said. */
  lemma TaskMirrored(d: Dialogue, control: seq<Command>, told: R.Told, e: nat)
    requires Tasks(d, control) && e in d.tasks && R.Within(told, R.Due(d.delivered[e]))
    ensures var task := d.tasks[e];
            && d.delivered[e] <= task.emitted && R.Within(told, R.Due(task.emitted))
            && told.texts <= P.SaidTexts(task.reasoned) && told.frames <= P.SungFrames(task.sung)
            && (P.Follow(d.delivered[e]).Finished? && told == R.Due(d.delivered[e]) ==>
                  && told == R.Due(task.emitted)
                  && told.texts == P.SaidTexts(task.reasoned) && told.frames == P.SungFrames(task.sung))
  {
    hide PipelineOf, P.Coherent, P.SaidTexts, P.SungFrames, P.AskedCalls, P.Returns, P.StartedCalls, P.ToolOutputs, P.DeltaTexts, P.AudioFrames, R.NotesOf, P.Follow;
    var task, rest := d.tasks[e], PipelineOf(control, e);
    assert TaskLogged(d, control, e);
    DuePrefix(d.delivered[e], rest);
    if P.Follow(d.delivered[e]).Finished? {
      P.TaskOkGrammar(task);
      P.FinishedIsLast(d.delivered[e], rest);
      assert d.delivered[e] == task.emitted;
    }
  }

  // ---------- turns ----------

  /** The transcripts a client is shown for a turn are, in order and unchanged, those its
      transcription heard, or the text it typed: a prefix of them, and of the latest turn all that
      were taken off the lane. */
  lemma TurnsAreMirrored(config: Config, steps: seq<Step>, s: Session, k: nat)
    requires Reached(config, steps, s)
    ensures k in s.input.tasks ==>
              && k in s.input.delivered && s.input.delivered[k] <= s.input.tasks[k].emitted
              && U.WordsTo(s.io.outputs, k) <= T.Segments(s.input.delivered[k]) <= T.Said(s.input.tasks[k].heard)
              && (k == s.input.epoch && Running(s) ==> U.WordsTo(s.io.outputs, k) == T.Segments(s.input.delivered[k]))
    ensures k !in s.input.tasks && k in s.input.typed ==>
              && U.WordsTo(s.io.outputs, k) <= [T.Words(s.input.typed[k], true)]
              && (k == s.input.epoch && Running(s) ==> U.WordsTo(s.io.outputs, k) == [T.Words(s.input.typed[k], true)])
    ensures k !in s.input.tasks && k !in s.input.typed ==> U.WordsTo(s.io.outputs, k) == []
    ensures U.FinalsFor(U.Hearings(s.io.spool.accepted), k) <= U.Marks(U.DueTo(s.input, k))
  {
    hide Reached, Stage, Lanes, Mirrored, See, Starts, E.Inv, Tasks, SttTasks, AudioLogs, InputLogs, T.Segments, T.Said, U.WordsTo, U.FinalsFor;
    ReachedInv(config, steps, s);
    ReachedMirrored(config, steps, s);
    ShownIsDue(s, k);
    TurnsKnown(s.input, s.control);
    if k in s.input.tasks {
      TurnMirrored(s.input, s.control, k);
    }
  }

  lemma TurnsKnown(i: Listening, control: seq<Command>)
    requires SttTasks(i, control)
    ensures i.tasks.Keys == i.delivered.Keys
  {
  }

  lemma ShownIsDue(s: Session, k: nat)
    requires Mirrored(s)
    ensures U.WordsTo(s.io.outputs, k) <= U.DueTo(s.input, k)
    ensures U.FinalsFor(U.Hearings(s.io.spool.accepted), k) <= U.Marks(U.DueTo(s.input, k))
    ensures Running(s) && k == s.input.epoch ==> U.WordsTo(s.io.outputs, k) == U.DueTo(s.input, k)
  {
    hide R.Mirror, H.Greeted, Even, U.Answering, U.WordsTo, U.FinalsFor, U.DueTo, U.Marks, U.Hearings, U.Talks;
    TalksTell(s.io.outputs, k);
    assert U.Partly(TraceOf(s.io).talks, TraceOf(s.io).hearings, U.DueTo(s.input, k), k);
  }

  lemma TurnMirrored(i: Listening, control: seq<Command>, k: nat)
    requires SttTasks(i, control) && k in i.tasks
    ensures i.delivered[k] <= i.tasks[k].emitted && T.Segments(i.delivered[k]) <= T.Said(i.tasks[k].heard)
  {
    hide SttOf, T.Positioned, T.Segments, T.Said;
    assert SttLogged(i, control, k);
    T.SegmentsPrefix(i.delivered[k], SttOf(control, k));
  }

  /** A response answers its turn: its user text is the final transcript shown for the turn it came
      from, which is the final segment heard for it, or the text typed. */
  lemma ResponsesAnswerTheirTurns(config: Config, steps: seq<Step>, s: Session, e: nat)
    requires Reached(config, steps, s) && e in s.dialogue.turns
    ensures 1 <= e <= |s.dialogue.origins|
    ensures var k, text := s.dialogue.origins[e - 1], s.dialogue.turns[e].text;
            && Transcript(k, text, true) in s.io.outputs
            && if k in s.input.tasks then T.Words(text, true) in T.Said(s.input.tasks[k].heard)
               else k in s.input.typed && text == s.input.typed[k]
  {
    hide Reached, Mirrored, Inv, T.Segments, T.Said, U.WordsTo;
    ReachedMirrored(config, steps, s);
    AnswersShown(s, e);
    var k, text := s.dialogue.origins[e - 1], s.dialogue.turns[e].text;
    TurnsAreMirrored(config, steps, s, k);
    WordsShown(s.io.outputs, k, text);
  }

  lemma AnswersShown(s: Session, e: nat)
    requires Mirrored(s) && e in s.dialogue.turns
    ensures 1 <= e <= |s.dialogue.origins| && T.Words(s.dialogue.turns[e].text, true) in U.WordsTo(s.io.outputs, s.dialogue.origins[e - 1])
  {
    hide R.Mirror, H.Greeted, Even, U.Partly, U.Fully, U.WordsTo, U.DueTo, U.Hearings, U.Talks;
    TalksTell(s.io.outputs, s.dialogue.origins[e - 1]);
  }

  lemma {:induction false} WordsShown(outputs: seq<Output>, k: nat, text: string)
    requires T.Words(text, true) in U.WordsTo(outputs, k)
    ensures Transcript(k, text, true) in outputs
  {
    var prior, last := outputs[..|outputs| - 1], outputs[|outputs| - 1];
    if T.Words(text, true) in U.WordsTo(prior, k) {
      WordsShown(prior, k, text);
    }
  }

  // ---------- greetings and interruptions ----------

  /** A session says it is ready once, when it comes alive, and started once, when the client starts
      it; and the client is told of an interruption exactly when it is recorded, unless the session
      breaks in between. */
  lemma GreetingsAreOrdered(config: Config, steps: seq<Step>, s: Session)
    requires Reached(config, steps, s)
    ensures H.Greetings(s.io.outputs) <= [ClientView.SessionReady, ClientView.SessionStarted]
    ensures H.Openings(s.io.spool.accepted) <= [E.SessionReady, E.SessionStarted]
    ensures s.life.Live? && Running(s) ==>
              && H.Greetings(s.io.outputs) == [ClientView.SessionReady] + (if s.phase.Active? then [ClientView.SessionStarted] else [])
              && H.Openings(s.io.spool.accepted) == [E.SessionReady] + (if s.phase.Active? then [E.SessionStarted] else [])
    ensures H.CutNotes(s.io.spool.accepted) <= H.Cuts(s.io.outputs)
    ensures !Faulted(s) ==> H.CutNotes(s.io.spool.accepted) == H.Cuts(s.io.outputs)
  {
    hide Reached, R.Mirror, U.Turns, H.Greetings, H.Openings, H.Cuts, H.CutNotes, R.Speech, R.Minutes, U.Talks, U.Hearings;
    ReachedMirrored(config, steps, s);
  }
}
