/** Exactly when the event pipeline accepts an event, which error a refused one gets, and exactly
    when its worker gives up, acknowledges and stops: for every reachable spool, whatever the worker
    and the sink do around the publish. */
module SpoolAcceptance {
  import opened Common
  import opened EventSpool

  // ---------- what the worker leaves alone ----------

  /** The worker sees only these. */
  ghost predicate SameToWorker(s: Spool, t: Spool) {
    s.config == t.config && s.open == t.open && s.channel == t.channel && s.worker == t.worker
  }

  lemma {:induction false} WorkSame(s: Spool, t: Spool, actions: seq<Action>)
    requires SameToWorker(s, t)
    ensures SameToWorker(Work(s, actions), Work(t, actions))
    decreases |actions|
  {
    if actions != [] {
      WorkerSame(s, t, actions[0]);
      hide WorkerStep;
      WorkSame(WorkerStep(s, actions[0]), WorkerStep(t, actions[0]), actions[1..]);
    }
  }

  lemma WorkerSame(s: Spool, t: Spool, a: Action)
    requires SameToWorker(s, t)
    ensures SameToWorker(WorkerStep(s, a), WorkerStep(t, a))
  {
    hide Ordinary, Double;
  }

  lemma {:induction false} WorkRefuses(s: Spool, actions: seq<Action>)
    ensures Work(s, actions).refused == s.refused && Work(s, actions).nextSequence == s.nextSequence
    decreases |actions|
  {
    if actions != [] {
      WorkRefuses(WorkerStep(s, actions[0]), actions[1..]);
    }
  }

  lemma {:induction false} WorkAppend(s: Spool, a: seq<Action>, b: seq<Action>)
    ensures Work(s, a + b) == Work(Work(s, a), b)
    decreases |a|
  {
    hide WorkerStep;
    if a == [] {
      assert a + b == b;
    } else {
      assert (a + b)[0] == a[0] && (a + b)[1..] == a[1..] + b;
      WorkAppend(WorkerStep(s, a[0]), a[1..], b);
    }
  }

  // ---------- acceptance ----------

  /** The first thing that stands in the way of an ordinary publish: no permit when it asks, a
      closed pipeline, a worker stopped by the time it wants a slot, an exhausted counter. */
  function Obstacle(s: Spool, i: Interleaving): Option<PublishError> {
    if Work(s, i.before).permits == 0 then Some(NoPermit)
    else if !s.open then Some(PipelineClosed)
    else if Work(s, i.before + i.acquired).worker.Stopped? then Some(WorkerStopped)
    else if s.nextSequence >= U64_MAX then Some(SequenceExhausted)
    else None
  }

  /** A permit and at most one terminal event leave a slot: the channel is never full. */
  lemma PermitHasSlot(s: Spool)
    requires Inv(s) && s.producer.Acquired? && Terminals(s.accepted) <= 1
    ensures SlotFree(s)
  {
    hide Ordinary, Terminals, DeliveryOk, CallsOk, WorkerOk, SequencesOk;
  }

  /** An ordinary publish is accepted exactly when nothing stands in its way, and otherwise gets the
      first obstacle as its error. */
  lemma AcceptsIff(s: Spool, e: Event, i: Interleaving)
    requires Inv(s) && s.producer.Idle? && Terminals(s.accepted) <= 1 && s.nextSequence <= U64_MAX
    ensures var t := TryPublish(s, e, i);
            && (Accepts(s, t) <==> Obstacle(s, i).None?)
            && t.refused == s.refused + (if Obstacle(s, i).Some? then [Obstacle(s, i).value] else [])
  {
    hide Inv, Terminals;
    var a := Work(s, i.before);
    WorkInv(s, i.before);
    WorkRefuses(s, i.before);
    var b := ProducerStep(a, Acquire(e));
    ProducerEffect(a, Acquire(e));
    var c := Work(b, i.acquired);
    WorkInv(b, i.acquired);
    WorkRefuses(b, i.acquired);
    WorkAppend(s, i.before, i.acquired);
    WorkSame(b, a, i.acquired);
    hide Work;
    if a.permits == 0 {
      AfterRefusal(s, i, c);
    } else {
      assert b.producer == Acquired(e);
      PermitHasSlot(c);
      Finishes(c, i);
    }
    assert s.refused + [] == s.refused;
  }

  lemma AfterRefusal(s: Spool, i: Interleaving, c: Spool)
    requires Inv(c) && c.producer.Idle?
    ensures var t := ProducerStep(Work(ProducerStep(c, Reserve), i.reserved), Seal);
            t.accepted == c.accepted && t.refused == c.refused
  {
    hide Inv;
    WorkInv(c, i.reserved);
    WorkRefuses(c, i.reserved);
  }

  lemma Finishes(c: Spool, i: Interleaving)
    requires Inv(c) && c.producer.Acquired? && SlotFree(c) && c.nextSequence <= U64_MAX
    ensures var t := ProducerStep(Work(ProducerStep(c, Reserve), i.reserved), Seal);
            var obstacle := if !c.open then Some(PipelineClosed) else if c.worker.Stopped? then Some(WorkerStopped)
                            else if c.nextSequence >= U64_MAX then Some(SequenceExhausted) else None;
            && (Accepts(c, t) <==> obstacle.None?)
            && t.refused == c.refused + (if obstacle.Some? then [obstacle.value] else [])
  {
    hide Inv;
    var d := ProducerStep(c, Reserve);
    ProducerEffect(c, Reserve);
    WorkInv(d, i.reserved);
    WorkRefuses(d, i.reserved);
    assert c.refused + [] == c.refused;
  }

  /** What stands in the way of the terminal publish. */
  function TerminalObstacle(s: Spool, e: Event, i: Interleaving): Option<PublishError> {
    if !IsTerminal(e) then Some(NotTerminal)
    else if !s.open then Some(PipelineClosed)
    else if Work(s, i.before).worker.Stopped? then Some(WorkerStopped)
    else if s.nextSequence >= U64_MAX then Some(SequenceExhausted)
    else None
  }

  lemma FirstTerminalHasSlot(s: Spool)
    requires Inv(s) && s.producer.Idle? && Terminals(s.accepted) == 0
    ensures SlotFree(s)
  {
    hide Ordinary, Terminals, DeliveryOk, CallsOk, WorkerOk, SequencesOk;
  }

  /** The first terminal event is accepted, without waiting, exactly when it is terminal, the
      pipeline is open, its worker runs and numbers are left. */
  lemma AcceptsTerminalIff(s: Spool, e: Event, i: Interleaving)
    requires Inv(s) && s.producer.Idle? && Terminals(s.accepted) == 0 && s.nextSequence <= U64_MAX
    ensures var t := PublishTerminal(s, e, i);
            && (Accepts(s, t) <==> TerminalObstacle(s, e, i).None?)
            && t.refused == s.refused + (if TerminalObstacle(s, e, i).Some? then [TerminalObstacle(s, e, i).value] else [])
  {
    hide Inv, Terminals, IsTerminal;
    var a := Work(s, i.before);
    WorkInv(s, i.before);
    WorkRefuses(s, i.before);
    FirstTerminalHasSlot(a);
    var b := ProducerStep(a, ReserveTerminal(e));
    ProducerEffect(a, ReserveTerminal(e));
    WorkInv(b, i.reserved);
    WorkRefuses(b, i.reserved);
    hide Work;
    assert s.refused + [] == s.refused;
  }

  // ---------- over runs ----------

  lemma {:induction false} RunNumbers(s: Spool, actions: seq<Action>)
    requires s.nextSequence <= U64_MAX
    ensures Run(s, actions).nextSequence <= U64_MAX
    decreases |actions|
  {
    if actions != [] {
      hide Ordinary, IsTerminal, Double;
      RunNumbers(Step(s, actions[0]), actions[1..]);
    }
  }

  /** In every reachable spool with no publish under way, and with the terminal event not accepted
      twice: an ordinary publish returns Ok exactly when a permit is left, the pipeline is open, the
      worker has not stopped and the counter is below its maximum; the error is the first of these
      to fail. The first terminal publish needs only the last three. */
  lemma PublishVerdicts(config: Config, actions: seq<Action>, e: Event, i: Interleaving)
    requires ValidConfig(config)
    requires Run(Start(config), actions).producer.Idle? && Terminals(Run(Start(config), actions).accepted) <= 1
    ensures var s := Run(Start(config), actions);
            var t := TryPublish(s, e, i);
            && (Accepts(s, t) <==> Obstacle(s, i).None?)
            && t.refused == s.refused + (if Obstacle(s, i).Some? then [Obstacle(s, i).value] else [])
    ensures var s := Run(Start(config), actions);
            var t := PublishTerminal(s, e, i);
            Terminals(s.accepted) == 0 ==>
              && (Accepts(s, t) <==> TerminalObstacle(s, e, i).None?)
              && t.refused == s.refused + (if TerminalObstacle(s, e, i).Some? then [TerminalObstacle(s, e, i).value] else [])
  {
    hide Inv, Terminals, TryPublish, PublishTerminal, Obstacle, TerminalObstacle;
    StartInv(config);
    RunInv(Start(config), actions);
    RunNumbers(Start(config), actions);
    hide Run;
    var s := Run(Start(config), actions);
    AcceptsIff(s, e, i);
    if Terminals(s.accepted) == 0 {
      AcceptsTerminalIff(s, e, i);
    }
  }

  // ---------- the worker ----------

  /** The worker acknowledges exactly on the sink's success, gives up exactly on a permanent failure
      or a transient one at its last attempt, stops in good order exactly when everything is drained
      from a closed pipeline, and offers a short batch only when nothing more is queued. */
  lemma WorkerVerdicts(config: Config, actions: seq<Action>, a: Action)
    requires ValidConfig(config)
    ensures var s := Run(Start(config), actions);
            var t := Step(s, a);
            && (t.acked != s.acked <==> s.worker.Calling? && a.SinkOk?)
            && (s.worker.Calling? && a.SinkOk? ==> t.acked == s.acked + s.worker.batch)
            && (!s.worker.Stopped? && t.worker == Stopped(false) <==>
                  s.worker.Calling? && (a.SinkPermanent? || (a.SinkTransient? && s.worker.attempt == config.maxAttempts)))
            && (!s.worker.Stopped? && t.worker == Stopped(true) <==>
                  a.Finish? && s.worker.Waiting? && s.channel == [] && !s.open)
            && (|t.calls| > |s.calls| && t.worker.Calling? && t.worker.attempt == 1 && |t.worker.batch| < config.batchSize ==> s.channel == [])
  {
    StartInv(config);
    RunInv(Start(config), actions);
    RunConfig(Start(config), actions);
    hide Run, Step, PermitsOk, SlotsOk, SequencesOk, DeliveryOk, CallsOk, WorkerOk;
    var s := Run(Start(config), actions);
    if OfProducer(a) {
      ProducerVerdicts(s, a);
    } else {
      StepVerdicts(s, a);
    }
  }

  lemma ProducerVerdicts(s: Spool, a: Action)
    requires OfProducer(a)
    ensures var t := Step(s, a);
            t.acked == s.acked && t.worker == s.worker && t.calls == s.calls
  {
    hide IsTerminal;
  }

  lemma StepVerdicts(s: Spool, a: Action)
    requires WorkerOk(s) && !OfProducer(a)
    ensures var t := Step(s, a);
            && (t.acked != s.acked <==> s.worker.Calling? && a.SinkOk?)
            && (s.worker.Calling? && a.SinkOk? ==> t.acked == s.acked + s.worker.batch)
            && (!s.worker.Stopped? && t.worker == Stopped(false) <==>
                  s.worker.Calling? && (a.SinkPermanent? || (a.SinkTransient? && s.worker.attempt == s.config.maxAttempts)))
            && (!s.worker.Stopped? && t.worker == Stopped(true) <==>
                  a.Finish? && s.worker.Waiting? && s.channel == [] && !s.open)
            && (|t.calls| > |s.calls| && t.worker.Calling? && t.worker.attempt == 1 && |t.worker.batch| < s.config.batchSize ==> s.channel == [])
  {
    hide Ordinary, Double, Delay;
    if s.worker.Calling? {
      assert |s.acked + s.worker.batch| > |s.acked|;
    }
  }
}
