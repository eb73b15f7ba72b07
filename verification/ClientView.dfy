/** What a realtime client sees: the actor's output log, an automaton that reads it, and what it
    means for that automaton to accept. */
module ClientView {
  import opened Common

  datatype Output =
    | SessionReady
    | SessionStarted
    | Transcript(turn: nat, text: string, isFinal: bool)
    | Delta(epoch: nat, text: string)
    | Voice(epoch: nat, sequence: nat, bytes: seq<byte>)
    | ResponseCompleted(epoch: nat, interrupted: bool)
    | ErrorNotice

  predicate OfResponse(o: Output) {
    o.Delta? || o.Voice? || o.ResponseCompleted?
  }

  /** A reading of the log so far: the latest response seen, whether it is closed, its audio
      frames, and in order the epochs completed, those completed uninterrupted, and the turns
      that received a final transcript. */
  datatype View = View(
    ok: bool, epoch: nat, closed: bool, frames: nat,
    completed: seq<nat>, answered: seq<nat>, finals: seq<nat>)

  const BLANK: View := View(true, 0, true, 0, [], [], [])

  /** Open the response an output belongs to, unless it is stale or already closed. */
  function Focus(v: View, epoch: nat): View {
    if epoch > v.epoch then v.(epoch := epoch, closed := false, frames := 0)
    else v.(ok := v.ok && epoch == v.epoch && !v.closed)
  }

  function Observe(v: View, o: Output): View {
    match o
    case Delta(e, _) => Focus(v, e)
    case Voice(e, n, _) =>
      var w := Focus(v, e);
      w.(ok := w.ok && n == w.frames, frames := w.frames + 1)
    case ResponseCompleted(e, interrupted) =>
      var w := Focus(v, e);
      w.(closed := true, completed := w.completed + [e], answered := if interrupted then w.answered else w.answered + [e])
    case Transcript(turn, _, isFinal) => if isFinal then v.(finals := v.finals + [turn]) else v
    case _ => v
  }

  function See(outputs: seq<Output>): View {
    if outputs == [] then BLANK else Observe(See(outputs[..|outputs| - 1]), outputs[|outputs| - 1])
  }

  lemma SeeOne(outputs: seq<Output>, o: Output)
    ensures See(outputs + [o]) == Observe(See(outputs), o)
  {
    assert (outputs + [o])[..|outputs|] == outputs;
  }

  /** The frame numbers sent for one response, in order. */
  function VoiceNumbers(outputs: seq<Output>, epoch: nat): seq<nat> {
    if outputs == [] then []
    else
      var last := outputs[|outputs| - 1];
      VoiceNumbers(outputs[..|outputs| - 1], epoch) + (if last.Voice? && last.epoch == epoch then [last.sequence] else [])
  }

  function FromZero(n: nat): seq<nat> {
    seq(n, i => i)
  }

  /** Response epochs never go backwards. */
  predicate EpochsAscend(outputs: seq<Output>) {
    forall i, j :: 0 <= i < j < |outputs| && OfResponse(outputs[i]) && OfResponse(outputs[j]) ==>
      outputs[i].epoch <= outputs[j].epoch
  }

  /** Nothing of a response follows its completion. */
  predicate NothingAfterCompletion(outputs: seq<Output>) {
    forall i, j :: 0 <= i < j < |outputs| && outputs[i].ResponseCompleted? && OfResponse(outputs[j]) ==>
      outputs[j].epoch > outputs[i].epoch
  }

  /** The latest epoch bounds every output, and a completion of it means it is closed. */
  lemma {:induction false} AcceptedLogBounds(outputs: seq<Output>, i: nat)
    requires See(outputs).ok && i < |outputs| && OfResponse(outputs[i])
    ensures outputs[i].epoch <= See(outputs).epoch
    ensures outputs[i].ResponseCompleted? && outputs[i].epoch == See(outputs).epoch ==> See(outputs).closed
  {
    if i < |outputs| - 1 {
      AcceptedLogBounds(outputs[..|outputs| - 1], i);
    }
  }

  /** An accepted log is fenced: epochs ascend and completion is final. */
  lemma {:induction false} AcceptedLogIsFenced(outputs: seq<Output>)
    requires See(outputs).ok
    ensures EpochsAscend(outputs) && NothingAfterCompletion(outputs)
  {
    if outputs != [] {
      var prior, last := outputs[..|outputs| - 1], outputs[|outputs| - 1];
      AcceptedLogIsFenced(prior);
      forall i | 0 <= i < |prior| && OfResponse(outputs[i]) && OfResponse(last)
        ensures outputs[i].epoch <= last.epoch
        ensures outputs[i].ResponseCompleted? ==> outputs[i].epoch < last.epoch
      {
        assert prior[i] == outputs[i];
        AcceptedLogBounds(prior, i);
      }
      assert forall i :: 0 <= i < |prior| ==> prior[i] == outputs[i];
      hide See, Observe;
    }
  }

  /** The audio frames of every response are numbered 0, 1, ..., k-1. */
  lemma {:induction false} AcceptedFramesCount(outputs: seq<Output>, epoch: nat)
    requires See(outputs).ok
    ensures See(outputs).epoch < epoch ==> VoiceNumbers(outputs, epoch) == []
    ensures See(outputs).epoch == epoch ==> VoiceNumbers(outputs, epoch) == FromZero(See(outputs).frames)
    ensures exists k: nat :: VoiceNumbers(outputs, epoch) == FromZero(k)
  {
    if outputs == [] {
      assert VoiceNumbers(outputs, epoch) == FromZero(0);
    } else {
      var prior, last := outputs[..|outputs| - 1], outputs[|outputs| - 1];
      AcceptedFramesCount(prior, epoch);
      var k: nat :| VoiceNumbers(prior, epoch) == FromZero(k);
      if last.Voice? && last.epoch == epoch {
        assert VoiceNumbers(outputs, epoch) == FromZero(last.sequence + 1);
      } else {
        assert VoiceNumbers(outputs, epoch) == VoiceNumbers(prior, epoch);
      }
      if See(prior).epoch < epoch == See(outputs).epoch && !last.Voice? {
        assert VoiceNumbers(outputs, epoch) == FromZero(0);
      }
    }
  }
}
