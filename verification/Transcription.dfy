/** The task that transcribes one committed utterance, as a step machine. However the provider
    behaves, at most one final segment is sent, and only the end notice may follow it. */
module Transcription {
  import opened Common

  datatype SttEvent =
    | Segment(text: string, isFinal: bool)
    | Error(cancelled: bool)
    | Ended(sawFinal: bool)

  datatype Progress = Hearing | Heard | Closed | OffGrammar

  function Next(p: Progress, e: SttEvent): Progress {
    match e
    case Segment(_, isFinal) => if p.Hearing? then (if isFinal then Heard else Hearing) else OffGrammar
    case Error(_) => if p.Hearing? then Hearing else OffGrammar
    case Ended(sawFinal) => if (sawFinal && p.Heard?) || (!sawFinal && p.Hearing?) then Closed else OffGrammar
  }

  function Follow(es: seq<SttEvent>): Progress {
    if es == [] then Hearing else Next(Follow(es[..|es| - 1]), es[|es| - 1])
  }

  predicate IsFinal(e: SttEvent) {
    e.Segment? && e.isFinal
  }

  predicate HasFinal(es: seq<SttEvent>) {
    exists i :: 0 <= i < |es| && IsFinal(es[i])
  }

  lemma FollowOne(es: seq<SttEvent>, e: SttEvent)
    ensures Follow(es + [e]) == Next(Follow(es), e)
  {
    assert (es + [e])[..|es|] == es;
  }

  lemma HasFinalOne(es: seq<SttEvent>, e: SttEvent)
    ensures HasFinal(es + [e]) <==> HasFinal(es) || IsFinal(e)
  {
    assert forall i :: 0 <= i < |es| ==> (es + [e])[i] == es[i];
    assert (es + [e])[|es|] == e;
  }

  lemma {:induction false} GrammarPrefix(es: seq<SttEvent>, more: seq<SttEvent>)
    requires Follow(es + more) != OffGrammar
    ensures Follow(es) != OffGrammar
    decreases |more|
  {
    if more == [] {
      assert es + more == es;
    } else {
      var shorter := more[..|more| - 1];
      assert (es + more)[..|es + more| - 1] == es + shorter;
      GrammarPrefix(es, shorter);
    }
  }

  lemma {:induction false} HearingMeansNoFinal(es: seq<SttEvent>)
    ensures Follow(es).Hearing? ==> !HasFinal(es)
  {
    if es != [] {
      var prior := es[..|es| - 1];
      HearingMeansNoFinal(prior);
      assert es == prior + [es[|es| - 1]];
      HasFinalOne(prior, es[|es| - 1]);
    }
  }

  /** A final segment in a grammatical emission is the first one. */
  lemma FinalIsFirst(before: seq<SttEvent>, e: SttEvent, after: seq<SttEvent>)
    requires Follow(before + [e] + after) != OffGrammar && IsFinal(e)
    ensures !HasFinal(before)
  {
    GrammarPrefix(before + [e], after);
    FollowOne(before, e);
    HearingMeansNoFinal(before);
  }

  datatype Stage = Listening | Ending(sawFinal: bool) | Over

  /** `heard` is what the provider has said to it. */
  datatype Task = Task(audio: seq<byte>, stage: Stage, emitted: seq<SttEvent>, heard: seq<Input>)

  function Spawn(audio: seq<byte>): Task {
    Task(audio, Listening, [], [])
  }

  datatype Input = Hears(text: string, isFinal: bool) | Errs(cancelled: bool) | StreamEnds | TimesOut | Proceed | Cancelled

  function Emit(t: Task, e: SttEvent, stage: Stage): Task {
    t.(emitted := t.emitted + [e], stage := stage)
  }

  function Listen(t: Task, i: Input): Task {
    match i
    case Hears(text, isFinal) => Emit(t, Segment(text, isFinal), if isFinal then Ending(true) else Listening)
    case Errs(cancelled) => Emit(t, Error(cancelled), Listening)
    case StreamEnds => t.(stage := Ending(false))
    case TimesOut => Emit(t, Error(false), Over)
    case _ => t
  }

  /** One step: at most one event is sent; a cancelled task is over. */
  function Step(t: Task, i: Input): Task {
    if i.Cancelled? then t.(stage := Over)
    else match t.stage
      case Listening => Listen(t.(heard := t.heard + [i]), i)
      case Ending(sawFinal) => if i.Proceed? then Emit(t, Ended(sawFinal), Over) else t
      case Over => t
  }

  // ---------- what was said to it, and what it says ----------

  /** A segment as it is heard, sent or shown. */
  datatype Words = Words(text: string, isFinal: bool)

  function Said(inputs: seq<Input>): seq<Words> {
    if inputs == [] then []
    else
      var last := inputs[|inputs| - 1];
      if last.Hears? then Said(inputs[..|inputs| - 1]) + [Words(last.text, last.isFinal)] else Said(inputs[..|inputs| - 1])
  }

  function Segments(es: seq<SttEvent>): seq<Words> {
    if es == [] then []
    else
      var last := es[|es| - 1];
      if last.Segment? then Segments(es[..|es| - 1]) + [Words(last.text, last.isFinal)] else Segments(es[..|es| - 1])
  }

  lemma SegmentsOne(es: seq<SttEvent>, e: SttEvent)
    ensures Segments(es + [e]) == if e.Segment? then Segments(es) + [Words(e.text, e.isFinal)] else Segments(es)
  {
    assert (es + [e])[..|es|] == es;
  }

  lemma SaidOne(inputs: seq<Input>, i: Input)
    ensures Said(inputs + [i]) == if i.Hears? then Said(inputs) + [Words(i.text, i.isFinal)] else Said(inputs)
  {
    assert (inputs + [i])[..|inputs|] == inputs;
  }

  lemma {:induction false} SegmentsPrefix(es: seq<SttEvent>, more: seq<SttEvent>)
    ensures Segments(es) <= Segments(es + more)
    decreases |more|
  {
    if more == [] {
      assert es + more == es;
    } else {
      var shorter := more[..|more| - 1];
      assert es + more == (es + shorter) + [more[|more| - 1]];
      SegmentsPrefix(es, shorter);
      SegmentsOne(es + shorter, more[|more| - 1]);
    }
  }

  predicate Positioned(t: Task) {
    match t.stage
    case Listening => Follow(t.emitted) == Hearing
    case Ending(sawFinal) => Follow(t.emitted) == if sawFinal then Heard else Hearing
    case Over => Follow(t.emitted) != OffGrammar
  }

  /** What the task reports of what it hears: segments and errors as they come, a timeout as an error. */
  function Reported(i: Input): seq<SttEvent> {
    match i
    case Hears(text, isFinal) => [Segment(text, isFinal)]
    case Errs(cancelled) => [Error(cancelled)]
    case TimesOut => [Error(false)]
    case _ => []
  }

  function Reports(inputs: seq<Input>): seq<SttEvent> {
    if inputs == [] then [] else Reports(inputs[..|inputs| - 1]) + Reported(inputs[|inputs| - 1])
  }

  /** After these it stops listening. */
  predicate Closes(i: Input) {
    i.StreamEnds? || i.TimesOut? || (i.Hears? && i.isFinal)
  }

  /** The end notice, which tells whether the last thing heard was a final segment. */
  predicate EndsWith(heard: seq<Input>, sawFinal: bool) {
    heard != [] && if sawFinal then heard[|heard| - 1].Hears? && heard[|heard| - 1].isFinal else heard[|heard| - 1].StreamEnds?
  }

  /** What was sent is the report of what was heard up to the first thing that closes, and then the
      end notice that goes with it. */
  ghost predicate Reporting(t: Task) {
    && (forall j :: 0 <= j < |t.heard| - 1 ==> !Closes(t.heard[j]))
    && match t.stage
       case Listening => t.emitted == Reports(t.heard) && (t.heard != [] ==> !Closes(t.heard[|t.heard| - 1]))
       case Ending(sawFinal) => t.emitted == Reports(t.heard) && EndsWith(t.heard, sawFinal)
       case Over =>
         || t.emitted == Reports(t.heard)
         || exists sawFinal :: t.emitted == Reports(t.heard) + [Ended(sawFinal)] && EndsWith(t.heard, sawFinal)
  }

  lemma ReportsOne(heard: seq<Input>, i: Input)
    ensures Reports(heard + [i]) == Reports(heard) + Reported(i)
  {
    assert (heard + [i])[..|heard|] == heard;
  }

  lemma ReportingStep(t: Task, i: Input)
    requires Reporting(t)
    ensures Reporting(Step(t, i))
  {
    hide Reports;
    ReportsOne(t.heard, i);
    if t.stage.Listening? && !i.Cancelled? {
      assert forall j :: 0 <= j < |t.heard| ==> !Closes(t.heard[j]);
      assert Reports(t.heard) + [] == Reports(t.heard);
    }
  }

  function Run(t: Task, inputs: seq<Input>): Task
    decreases |inputs|
  {
    if inputs == [] then t else Run(Step(t, inputs[0]), inputs[1..])
  }

  lemma {:induction false} RunReporting(t: Task, inputs: seq<Input>)
    requires Reporting(t)
    ensures Reporting(Run(t, inputs))
    decreases |inputs|
  {
    if inputs != [] {
      hide Reporting, Step;
      ReportingStep(t, inputs[0]);
      RunReporting(Step(t, inputs[0]), inputs[1..]);
    }
  }

  /** Whatever the provider says and wherever it is cut off, a transcription reports what it hears, in
      order and unchanged, up to the first final segment, end or timeout; then it says whether it saw
      a final one, and nothing more. */
  lemma EveryRunReports(audio: seq<byte>, inputs: seq<Input>)
    ensures Reporting(Run(Spawn(audio), inputs))
  {
    RunReporting(Spawn(audio), inputs);
  }

  /** The emissions follow the grammar, and the segments sent are exactly those heard. */
  predicate TaskOk(t: Task) {
    Positioned(t) && Segments(t.emitted) == Said(t.heard)
  }

  lemma SegmentsStep(t: Task, i: Input)
    requires Segments(t.emitted) == Said(t.heard)
    ensures Segments(Step(t, i).emitted) == Said(Step(t, i).heard)
  {
    hide Segments, Said;
    SaidOne(t.heard, i);
    if t.stage.Listening? && !i.Cancelled? {
      match i
      case Hears(text, isFinal) => SegmentsOne(t.emitted, Segment(text, isFinal));
      case Errs(cancelled) => SegmentsOne(t.emitted, Error(cancelled));
      case TimesOut => SegmentsOne(t.emitted, Error(false));
      case _ =>
    } else if t.stage.Ending? {
      SegmentsOne(t.emitted, Ended(t.stage.sawFinal));
    }
  }

  /** Every step keeps the emissions grammatical, adds at most one, and leaves the audio alone. */
  lemma StepOk(t: Task, i: Input)
    requires TaskOk(t)
    ensures var u := Step(t, i);
            && TaskOk(u) && u.audio == t.audio
            && (u.emitted == t.emitted || (|u.emitted| == |t.emitted| + 1 && u.emitted[..|t.emitted|] == t.emitted))
  {
    hide Segments, Said;
    SegmentsStep(t, i);
    var u := Step(t, i);
    if |u.emitted| > |t.emitted| {
      FollowOne(t.emitted, u.emitted[|t.emitted|]);
      assert u.emitted == t.emitted + [u.emitted[|t.emitted|]];
    }
  }
}
