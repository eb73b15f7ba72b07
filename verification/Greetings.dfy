/** The session's opening, as the client sees it and as it is recorded, and its interruptions. */
module Greetings {
  import opened ClientView
  import opened SessionModel
  import E = EventSpool

  predicate IsGreeting(o: Output) {
    o.SessionReady? || o.SessionStarted?
  }

  predicate IsOpening(kind: E.EventType) {
    kind.SessionReady? || kind.SessionStarted?
  }

  predicate IsCut(o: Output) {
    o.ResponseCompleted? && o.interrupted
  }

  function Greetings(outputs: seq<Output>): seq<Output> {
    if outputs == [] then []
    else
      var last := outputs[|outputs| - 1];
      if IsGreeting(last) then Greetings(outputs[..|outputs| - 1]) + [last] else Greetings(outputs[..|outputs| - 1])
  }

  function Openings(accepted: seq<E.Sealed>): seq<E.EventType> {
    if accepted == [] then []
    else
      var last := accepted[|accepted| - 1].event.kind;
      if IsOpening(last) then Openings(accepted[..|accepted| - 1]) + [last] else Openings(accepted[..|accepted| - 1])
  }

  /** The responses a client is told were interrupted, and those recorded so. */
  function Cuts(outputs: seq<Output>): seq<nat> {
    if outputs == [] then []
    else
      var last := outputs[|outputs| - 1];
      if IsCut(last) then Cuts(outputs[..|outputs| - 1]) + [last.epoch] else Cuts(outputs[..|outputs| - 1])
  }

  function CutNotes(accepted: seq<E.Sealed>): seq<nat> {
    if accepted == [] then []
    else
      var last := accepted[|accepted| - 1].event;
      if last.kind.SessionInterrupted? then CutNotes(accepted[..|accepted| - 1]) + [last.epoch] else CutNotes(accepted[..|accepted| - 1])
  }

  lemma GreetingsOne(outputs: seq<Output>, o: Output)
    ensures Greetings(outputs + [o]) == if IsGreeting(o) then Greetings(outputs) + [o] else Greetings(outputs)
    ensures Cuts(outputs + [o]) == if IsCut(o) then Cuts(outputs) + [o.epoch] else Cuts(outputs)
  {
    assert (outputs + [o])[..|outputs|] == outputs;
  }

  lemma OpeningsOne(accepted: seq<E.Sealed>, x: E.Sealed)
    ensures Openings(accepted + [x]) == if IsOpening(x.event.kind) then Openings(accepted) + [x.event.kind] else Openings(accepted)
    ensures CutNotes(accepted + [x]) == if x.event.kind.SessionInterrupted? then CutNotes(accepted) + [x.event.epoch] else CutNotes(accepted)
  {
    assert (accepted + [x])[..|accepted|] == accepted;
  }

  /** Ready is said once, when the session comes alive, and started once, when the client starts it. */
  ghost predicate Greeted(greetings: seq<Output>, openings: seq<E.EventType>, life: Life, phase: Phase, going: bool) {
    && greetings <= [ClientView.SessionReady, ClientView.SessionStarted] && openings <= [E.SessionReady, E.SessionStarted]
    && (going && life.Booting? ==> phase.Ready? && greetings == [] && openings == [])
    && (going && life.Live? && phase.Ready? ==> greetings == [ClientView.SessionReady] && openings == [E.SessionReady])
    && (going && life.Live? && phase.Active? ==>
          greetings == [ClientView.SessionReady, ClientView.SessionStarted] && openings == [E.SessionReady, E.SessionStarted])
  }

  lemma GreetedKept(greetings: seq<Output>, openings: seq<E.EventType>, life: Life, phase: Phase, going: bool, phase': Phase, going': bool)
    requires Greeted(greetings, openings, life, phase, going) && (going' ==> going && phase' == phase)
    ensures Greeted(greetings, openings, life, phase', going')
  {
  }

  /** One more greeting and one more opening, or a fault cuts in. */
  lemma GreetedNext(greetings: seq<Output>, openings: seq<E.EventType>, life: Life, phase: Phase, o: Output, kind: E.EventType,
                    greetings': seq<Output>, openings': seq<E.EventType>, life': Life, phase': Phase, going': bool)
    requires Greeted(greetings, openings, life, phase, true) && phase.Ready?
    requires (life.Booting? && life'.Live? && phase'.Ready? && o == ClientView.SessionReady && kind == E.SessionReady)
             || (life.Live? && life'.Live? && phase'.Active? && o == ClientView.SessionStarted && kind == E.SessionStarted)
    requires greetings' == greetings || greetings' == greetings + [o]
    requires openings' == openings || openings' == openings + [kind]
    requires going' ==> greetings' == greetings + [o] && openings' == openings + [kind]
    ensures Greeted(greetings', openings', life', phase', going')
  {
  }
}
