/** The promises about flushed sessions are not empty: an undisturbed session that is completed by
    its operator, and whose sink acknowledges, is flushed. */
module SessionExample {
  import opened Common
  import opened ClientView
  import opened SessionModel
  import E = EventSpool

  const READY: E.Event := E.Event(E.SessionReady, 0)
  const DONE: E.Event := E.Event(E.SessionCompleted, 0)

  const QUIET: E.Interleaving := E.Interleaving([], [], [])

  ghost predicate Free(s: E.Spool) {
    s.producer.Idle? && s.open && s.worker.Waiting? && s.permits > 0 && |s.channel| <= s.config.capacity && s.nextSequence < U64_MAX
  }

  lemma PublishFree(s: E.Spool, e: E.Event)
    requires Free(s)
    ensures var item := E.Sealed(e, s.nextSequence);
            E.TryPublish(s, e, QUIET) == s.(permits := s.permits - 1, nextSequence := s.nextSequence + 1,
                                            accepted := s.accepted + [item], channel := s.channel + [E.Queued(item, true)])
  {
    assert E.Work(s, []) == s;
    var acquired := E.ProducerStep(s, E.Acquire(e));
    assert acquired == s.(permits := s.permits - 1, producer := E.Acquired(e));
    assert E.Work(acquired, []) == acquired;
    var reserved := E.ProducerStep(acquired, E.Reserve);
    assert reserved == acquired.(producer := E.Reserved(e, true));
    assert E.Work(reserved, []) == reserved;
  }

  lemma PublishLast(s: E.Spool, e: E.Event)
    requires Free(s) && E.IsTerminal(e)
    ensures var item := E.Sealed(e, s.nextSequence);
            E.PublishTerminal(s, e, QUIET) == s.(nextSequence := s.nextSequence + 1,
                                                 accepted := s.accepted + [item], channel := s.channel + [E.Queued(item, false)])
  {
    assert E.Work(s, []) == s;
    var reserved := E.ProducerStep(s, E.ReserveTerminal(e));
    assert reserved == s.(producer := E.Reserved(e, false));
    assert E.Work(reserved, []) == reserved;
  }

  ghost predicate Small(c: Config) {
    E.ValidConfig(c.spool) && c.spool.capacity == 2 && c.spool.batchSize == 2 && c.controlCapacity > 0
  }

  /** Booted, told to complete, and torn down. */
  function Closing(config: Config): Session {
    Next(Next(Next(Next(Begin(config), Boot([])), Operate(false)), TakeControl([])), Teardown([]))
  }

  lemma BootStep(config: Config)
    requires Small(config)
    ensures var s := Next(Begin(config), Boot([]));
            && s == Begin(config).(life := Live, io := s.io) && s.io.fault.None? && s.io.script == []
            && s.io.spool == E.TryPublish(E.Start(config.spool), READY, QUIET)
  {
    PublishFree(E.Start(config.spool), READY);
    hide E.TryPublish;
  }

  lemma ClosingStep(config: Config)
    requires Small(config)
    ensures var s := Closing(config);
            && s.life == Flushing(false) && s.outcome.Pending? && s.phase.Completed?
            && s.io.spool == E.PublishTerminal(E.TryPublish(E.Start(config.spool), READY, QUIET), DONE, QUIET).(open := false)
  {
    BootStep(config);
    PublishFree(E.Start(config.spool), READY);
    var booted := Next(Begin(config), Boot([]));
    PublishLast(booted.io.spool, DONE);
    hide E.TryPublish, E.PublishTerminal;
    var asked := Next(booted, Operate(false));
    assert asked == booted.(control := [CompleteSession]);
    var ended := Next(asked, TakeControl([]));
    EndStep(asked);
    assert ended.phase.Completed? && ended.io.fault.None?;
  }

  lemma EndStep(s: Session)
    requires s.life.Live? && s.phase.Ready? && s.io.fault.None? && s.control == [CompleteSession] && s.dialogue.current.None?
    requires Free(s.io.spool)
    ensures var t := Next(s, TakeControl([]));
            && t == s.(control := [], phase := Completed, io := t.io)
            && t.io == s.io.(script := [], spool := E.PublishTerminal(s.io.spool, DONE, QUIET))
  {
    PublishLast(s.io.spool, DONE);
    hide E.PublishTerminal;
    assert [CompleteSession][1..] == [];
  }

  /** The worker's run over the two accepted events. */
  const DELIVERY: seq<E.Action> := [E.Receive, E.Unpack, E.Receive, E.Unpack, E.Submit, E.SinkOk, E.Finish]

  function Delivered(s: E.Spool): E.Spool {
    E.Work(s, DELIVERY)
  }

  lemma DeliverBoth(s: E.Spool, a: E.Queued, b: E.Queued)
    requires s.config.batchSize == 2 && s.worker.Waiting? && s.channel == [a, b] && !s.open && s.acked == []
    ensures Delivered(s).worker == E.Stopped(true) && Delivered(s).acked == [a.item, b.item] && Delivered(s).accepted == s.accepted
  {
    CollectNext(s, a);
    var s2 := E.WorkerStep(E.WorkerStep(s, E.Receive), E.Unpack);
    CollectNext(s2, b);
    var s4 := E.WorkerStep(E.WorkerStep(s2, E.Receive), E.Unpack);
    SubmitAll(s4, [a.item, b.item]);
    hide E.WorkerStep, E.Work;
    WorkSeven(s, DELIVERY);
  }

  function Gathered(w: E.Worker): seq<E.Sealed> {
    if w.Collecting? then w.batch else []
  }

  lemma CollectNext(s: E.Spool, q: E.Queued)
    requires s.channel != [] && s.channel[0] == q && (s.worker.Waiting? || (s.worker.Collecting? && |s.worker.batch| < s.config.batchSize))
    ensures var t := E.WorkerStep(E.WorkerStep(s, E.Receive), E.Unpack);
            t == s.(channel := s.channel[1..], worker := E.Collecting(Gathered(s.worker) + [q.item]), permits := t.permits)
  {
  }

  lemma SubmitAll(s: E.Spool, batch: seq<E.Sealed>)
    requires s.worker == E.Collecting(batch) && s.channel == [] && !s.open && s.acked == []
    ensures var t := E.WorkerStep(E.WorkerStep(E.WorkerStep(s, E.Submit), E.SinkOk), E.Finish);
            t.worker == E.Stopped(true) && t.acked == batch && t.accepted == s.accepted
  {
  }

  lemma WorkSeven(s: E.Spool, a: seq<E.Action>)
    requires |a| == 7
    ensures var s2 := E.WorkerStep(E.WorkerStep(s, a[0]), a[1]);
            var s4 := E.WorkerStep(E.WorkerStep(s2, a[2]), a[3]);
            E.Work(s, a) == E.WorkerStep(E.WorkerStep(E.WorkerStep(s4, a[4]), a[5]), a[6])
  {
    hide E.WorkerStep;
    WorkTwo(s, a);
    var s2 := E.WorkerStep(E.WorkerStep(s, a[0]), a[1]);
    WorkTwo(s2, a[2..]);
    var s4 := E.WorkerStep(E.WorkerStep(s2, a[2]), a[3]);
    WorkTwo(s4, a[4..]);
    assert a[2..][2..] == a[4..] && a[4..][2..] == a[6..];
  }

  lemma WorkTwo(s: E.Spool, a: seq<E.Action>)
    requires |a| >= 2
    ensures E.Work(s, a) == E.Work(E.WorkerStep(E.WorkerStep(s, a[0]), a[1]), a[2..])
  {
    hide E.WorkerStep;
    assert a[1..][1..] == a[2..];
  }

  /** The session's steps for a worker's actions. */
  function Deliveries(actions: seq<E.Action>): seq<Step> {
    seq(|actions|, i requires 0 <= i < |actions| => Deliver(actions[i]))
  }

  lemma {:induction false} DeliverRun(s: Session, actions: seq<E.Action>)
    ensures Run(s, Deliveries(actions)) == s.(io := s.io.(spool := E.Work(s.io.spool, actions)))
    decreases |actions|
  {
    hide E.WorkerStep;
    if actions != [] {
      assert Deliveries(actions)[1..] == Deliveries(actions[1..]);
      DeliverRun(Next(s, Deliver(actions[0])), actions[1..]);
    }
  }

  /** So there is a run that ends flushed, with ready and completed acknowledged. */
  lemma FlushedIsReachable(config: Config)
    requires Small(config)
    ensures var s := Next(Run(Closing(config), Deliveries(DELIVERY)), Join);
            && s.life.Over? && s.outcome.Flushed?
            && s.io.spool.acked == [E.Sealed(READY, 1), E.Sealed(DONE, 2)] == s.io.spool.accepted
  {
    hide Closing, E.TryPublish, E.PublishTerminal, Run, Delivered, E.Work;
    var start := E.Start(config.spool);
    PublishFree(start, READY);
    var one := E.TryPublish(start, READY, QUIET);
    PublishLast(one, DONE);
    ClosingStep(config);
    var closing := Closing(config);
    DeliverBoth(closing.io.spool, E.Queued(E.Sealed(READY, 1), true), E.Queued(E.Sealed(DONE, 2), false));
    DeliverRun(closing, DELIVERY);
    DeliveredIs(closing.io.spool);
  }

  lemma DeliveredIs(s: E.Spool)
    ensures Delivered(s) == E.Work(s, DELIVERY)
  {
  }
}
