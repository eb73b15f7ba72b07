/** The event pipeline as the runtime writes it: fields mutated by the producer's calls and by
    the delivery worker's loops. Every method is proved to be a run of the step machine in
    `EventSpool`, so the promises proved there for all interleavings hold of this code. */
module EventPipeline {
  import opened Common
  import opened EventSpool

  datatype Reply = Delivered | TransientFailure | PermanentFailure

  /** How the sink answers each try of each batch; no two calls of a pipeline are the same try of
      the same batch, so any behaviour is such a function. */
  type Sink = (seq<Sealed>, nat) -> Reply

  class Pipeline {
    const config: Config
    var open: bool
    var ordinarySlots: nat
    var channel: seq<Queued>
    var nextProducerSequence: nat
    var worker: Worker
    ghost var accepted: seq<Sealed>
    ghost var acked: seq<Sealed>
    ghost var calls: seq<Call>
    ghost var refused: seq<PublishError>

    ghost function Abs(): Spool
      reads this
    {
      Spool(config, open, ordinarySlots, channel, nextProducerSequence, Idle, worker, accepted, acked, calls, refused)
    }

    constructor (config: Config)
      requires ValidConfig(config)
      ensures Abs() == Start(config) && Inv(Abs())
    {
      this.config := config;
      open, ordinarySlots, channel, nextProducerSequence, worker := true, config.capacity, [], 1, Waiting;
      accepted, acked, calls, refused := [], [], [], [];
      new;
      StartInv(config);
    }

    /** Non-blocking enqueue of an ordinary event. */
    method TryPublish(event: Event) returns (r: Result<(), PublishError>)
      modifies this
      ensures Abs() == Run(old(Abs()), [Acquire(event), Reserve, Seal])
      ensures r.Ok? <==> accepted == old(accepted) + [Sealed(event, old(nextProducerSequence))]
      ensures r.Err? ==> accepted == old(accepted) && nextProducerSequence == old(nextProducerSequence)
                         && refused == old(refused) + [r.error]
      ensures old(Inv(Abs()) && Terminals(accepted) <= 1) ==>
                r == if old(ordinarySlots) == 0 then Err(NoPermit)
                     else if !open then Err(PipelineClosed)
                     else if worker.Stopped? then Err(WorkerStopped)
                     else if old(nextProducerSequence) == U64_MAX then Err(SequenceExhausted)
                     else Ok(())
    {
      ThreeSteps(Abs(), Acquire(event), Reserve, Seal);
      ChannelHasRoom(Abs());
      hide Inv, Terminals;
      if ordinarySlots == 0 {
        r := Err(NoPermit);
      } else if !open {
        r := Err(PipelineClosed);
      } else if worker.Stopped? {
        r := Err(WorkerStopped);
      } else if |channel| >= config.capacity + 1 {
        r := Err(ChannelFull);
      } else if nextProducerSequence == U64_MAX {
        r := Err(SequenceExhausted);
      } else {
        ordinarySlots := ordinarySlots - 1;
        var item := Sealed(event, nextProducerSequence);
        nextProducerSequence := nextProducerSequence + 1;
        channel, accepted := channel + [Queued(item, true)], accepted + [item];
        return Ok(());
      }
      refused := refused + [r.error];
    }

    /** Enqueue the terminal event in the reserved slot. */
    method PublishTerminal(event: Event) returns (r: Result<(), PublishError>)
      modifies this
      ensures Abs() == Run(old(Abs()), [ReserveTerminal(event), Seal])
      ensures r.Ok? <==> accepted == old(accepted) + [Sealed(event, old(nextProducerSequence))]
      ensures r.Err? ==> accepted == old(accepted) && nextProducerSequence == old(nextProducerSequence)
      ensures old(Inv(Abs()) && Terminals(accepted) == 0) ==>
                r == if !IsTerminal(event) then Err(NotTerminal)
                     else if !open then Err(PipelineClosed)
                     else if worker.Stopped? then Err(WorkerStopped)
                     else if old(nextProducerSequence) == U64_MAX then Err(SequenceExhausted)
                     else Ok(())
    {
      TwoSteps(Abs(), ReserveTerminal(event), Seal);
      ChannelHasRoom(Abs());
      hide Inv, Terminals;
      if !IsTerminal(event) {
        r := Err(NotTerminal);
      } else if !open {
        r := Err(PipelineClosed);
      } else if worker.Stopped? {
        r := Err(WorkerStopped);
      } else if |channel| >= config.capacity + 1 {
        r := Err(ChannelFull);
      } else if nextProducerSequence == U64_MAX {
        r := Err(SequenceExhausted);
      } else {
        var item := Sealed(event, nextProducerSequence);
        nextProducerSequence := nextProducerSequence + 1;
        channel, accepted := channel + [Queued(item, false)], accepted + [item];
        return Ok(());
      }
      refused := refused + [r.error];
    }

    /** One turn of the worker's outer loop: receive, fill the batch, deliver it with retries. */
    method DeliverBatch(sink: Sink) returns (ok: bool, ghost trace: seq<Action>)
      requires Inv(Abs()) && worker == Waiting && channel != []
      modifies this
      ensures Abs() == Run(old(Abs()), trace) && Inv(Abs())
      ensures worker == if ok then Waiting else Stopped(false)
      ensures accepted == old(accepted) && open == old(open)
      ensures if ok then old(acked) < acked else acked == old(acked)
    {
      hide Step, Inv;
      ghost var before := Abs();
      CollectOne();
      TwoSteps(before, Receive, Unpack);
      RunInv(before, [Receive, Unpack]);
      ghost var more;
      ok, more := FinishBatch(sink);
      RunAppend(before, [Receive, Unpack], more);
      trace := [Receive, Unpack] + more;
    }

    /** Somewhere inside that turn: go on from there to its end. */
    method FinishBatch(sink: Sink) returns (ok: bool, ghost trace: seq<Action>)
      requires Inv(Abs()) && !worker.Waiting? && !worker.Stopped?
      modifies this
      ensures Abs() == Run(old(Abs()), trace) && Inv(Abs())
      ensures worker == if ok then Waiting else Stopped(false)
      ensures accepted == old(accepted) && open == old(open)
      ensures if ok then old(acked) < acked else acked == old(acked)
    {
      hide Step, Inv, Run;
      ghost var before := Abs();
      MidBatch(before);
      trace := [];
      RunNothing(before);
      if worker.Unpacking? {
        UnpackOne();
        trace := [Unpack];
        OneStep(before, Unpack);
      }
      ghost var more;
      if worker.Collecting? {
        more := Assemble();
        RunAppend(before, trace, more);
        trace := trace + more;
      } else if worker.Sleeping? {
        Offer(worker.attempt + 1, Double(worker.backoff, config), worker.backoff);
        Extend(before, trace, Wake);
        trace := trace + [Wake];
      }
      ok, more := Resolve(sink);
      RunAppend(before, trace, more);
      trace := trace + more;
      RunInv(before, trace);
    }

    /** The first close, whatever the worker is doing: drop the sender and let the worker finish its
        batch and drain what is queued. It succeeds exactly when every accepted event was
        acknowledged. */
    method CloseAndFlush(sink: Sink) returns (ok: bool, ghost trace: seq<Action>)
      requires Inv(Abs())
      modifies this
      ensures Abs() == Run(old(Abs()), trace) && Inv(Abs())
      ensures accepted == old(accepted) && worker == Stopped(ok)
      ensures ok <==> acked == accepted
    {
      hide Inv, Step;
      ghost var before := Abs();
      trace := [Close];
      OneStep(before, Close);
      ClosingSteps(before);
      open := false;
      RunInv(before, trace);
      hide Run;
      ghost var more;
      var delivered;
      if !worker.Waiting? && !worker.Stopped? {
        delivered, more := FinishBatch(sink);
        RunAppend(before, trace, more);
        trace := trace + more;
      }
      while worker.Waiting? && channel != []
        invariant Abs() == Run(before, trace) && Inv(Abs()) && !open
        invariant worker.Waiting? || worker.Stopped?
        invariant accepted == before.accepted
        decreases |accepted| - |acked|, if worker.Waiting? then 1 else 0
      {
        AckedBound(Abs());
        delivered, more := DeliverBatch(sink);
        AckedBound(Abs());
        RunAppend(before, trace, more);
        trace := trace + more;
      }
      if worker.Waiting? {
        Extend(before, trace, Finish);
        ClosingSteps(Abs());
        trace := trace + [Finish];
        worker := Stopped(true);
        RunInv(before, trace);
      }
      StoppedVerdict(Abs());
      ok := worker.delivered;
    }

    /** Take one queued event and give its permit back. */
    method CollectOne()
      requires channel != [] && (worker.Waiting? || (worker.Collecting? && |worker.batch| < config.batchSize))
      modifies this`channel, this`worker, this`ordinarySlots
      ensures Abs() == Step(Step(old(Abs()), Receive), Unpack)
      ensures worker == Collecting((if old(worker).Waiting? then [] else old(worker).batch) + [old(channel)[0].item])
      ensures channel == old(channel)[1..]
    {
      var queued := channel[0];
      channel := channel[1..];
      if queued.ordinary {
        ordinarySlots := ordinarySlots + 1;
      }
      worker := Collecting((if worker.Waiting? then [] else worker.batch) + [queued.item]);
    }

    /** Give the permit of a received event back. */
    method UnpackOne()
      requires worker.Unpacking?
      modifies this`worker, this`ordinarySlots
      ensures Abs() == Step(old(Abs()), Unpack) && worker == Collecting(old(worker).batch + [old(worker).queued.item])
    {
      if worker.queued.ordinary {
        ordinarySlots := ordinarySlots + 1;
      }
      worker := Collecting(worker.batch + [worker.queued.item]);
    }

    /** Fill the batch with what is queued and offer it for the first time. */
    method Assemble() returns (ghost trace: seq<Action>)
      requires worker.Collecting?
      modifies this`channel, this`worker, this`ordinarySlots, this`calls
      ensures Abs() == Run(old(Abs()), trace) && worker.Calling? && worker.attempt == 1 && |worker.batch| >= |old(worker).batch|
      ensures acked == old(acked) && accepted == old(accepted)
    {
      hide Step, Run;
      ghost var before := Abs();
      trace := [];
      RunNothing(before);
      while |worker.batch| < config.batchSize && channel != []
        invariant Abs() == Run(before, trace) && worker.Collecting? && |worker.batch| >= |before.worker.batch|
        decreases |channel|
      {
        RunAppend(before, trace, [Receive, Unpack]);
        TwoSteps(Abs(), Receive, Unpack);
        CollectOne();
        trace := trace + [Receive, Unpack];
      }
      Extend(before, trace, Submit);
      trace := trace + [Submit];
      Offer(1, config.initialBackoff, 0);
    }

    /** Try again until the batch is acknowledged, refused for good, or out of attempts. */
    method Resolve(sink: Sink) returns (ok: bool, ghost trace: seq<Action>)
      requires worker.Calling? && worker.attempt <= config.maxAttempts
      modifies this`worker, this`calls, this`acked, this`channel, this`ordinarySlots
      ensures Abs() == Run(old(Abs()), trace)
      ensures worker == if ok then Waiting else Stopped(false)
      ensures acked == if ok then old(acked) + old(worker).batch else old(acked)
    {
      hide Step, Run;
      ghost var before := Abs();
      var Calling(batch, attempt, backoff) := worker;
      trace := [];
      RunNothing(before);
      var reply := sink(batch, attempt);
      while reply == TransientFailure && attempt < config.maxAttempts
        invariant Abs() == Run(before, trace) && worker == Calling(batch, attempt, backoff)
        invariant attempt <= config.maxAttempts && acked == before.acked
        decreases config.maxAttempts - attempt
      {
        RunAppend(before, trace, [SinkTransient, Wake]);
        TwoSteps(Abs(), SinkTransient, Wake);
        trace := trace + [SinkTransient, Wake];
        var slept := backoff;
        backoff := if backoff * 2 <= config.maxBackoff then backoff * 2 else config.maxBackoff;
        attempt := attempt + 1;
        Offer(attempt, backoff, slept);
        reply := sink(batch, attempt);
      }
      Extend(before, trace, Answer(reply));
      trace := trace + [Answer(reply)];
      ok := Settle(reply);
    }

    /** Call the sink with the batch. */
    method Offer(attempt: nat, backoff: nat, slept: nat)
      requires worker.Collecting? || worker.Calling? || worker.Sleeping?
      modifies this`worker, this`calls
      ensures worker == Calling(old(worker).batch, attempt, backoff)
      ensures old(worker).Collecting? && (|old(worker).batch| >= config.batchSize || channel == [])
              && attempt == 1 && backoff == config.initialBackoff && slept == 0 ==>
                Abs() == Step(old(Abs()), Submit)
      ensures old(worker).Calling? && old(worker).attempt < config.maxAttempts && attempt == old(worker).attempt + 1
              && slept == old(worker).backoff && backoff == Double(slept, config) ==>
                Abs() == Step(Step(old(Abs()), SinkTransient), Wake)
      ensures old(worker).Sleeping? && attempt == old(worker).attempt + 1
              && slept == old(worker).backoff && backoff == Double(slept, config) ==>
                Abs() == Step(old(Abs()), Wake)
    {
      calls := calls + [Call(|acked|, worker.batch, attempt, slept)];
      worker := Calling(worker.batch, attempt, backoff);
    }

    /** Act on the sink's last answer: acknowledged, or give up and drop what is queued. */
    method Settle(reply: Reply) returns (ok: bool)
      requires worker.Calling? && (reply == TransientFailure ==> worker.attempt >= config.maxAttempts)
      modifies this`worker, this`acked, this`channel, this`ordinarySlots
      ensures Abs() == Step(old(Abs()), Answer(reply))
      ensures ok == (reply == Delivered) && worker == if ok then Waiting else Stopped(false)
      ensures acked == if ok then old(acked) + old(worker).batch else old(acked)
    {
      ok := reply == Delivered;
      if ok {
        acked, worker := acked + worker.batch, Waiting;
      } else {
        ordinarySlots, channel, worker := ordinarySlots + Ordinary(channel), [], Stopped(false);
      }
    }
  }

  /** A permit, or the reserved slot, always finds room in the channel. */
  lemma ChannelHasRoom(s: Spool)
    ensures Inv(s) && s.producer.Idle? && (Terminals(s.accepted) == 0 || (Terminals(s.accepted) <= 1 && s.permits > 0)) ==>
              |s.channel| < s.config.capacity + 1
  {
    hide Ordinary, Terminals, DeliveryOk, CallsOk, WorkerOk, SequencesOk;
  }

  lemma ClosingSteps(s: Spool)
    ensures s.producer.Idle? ==> Step(s, Close) == s.(open := false)
    ensures s.worker.Waiting? && s.channel == [] && !s.open ==> Step(s, Finish) == s.(worker := Stopped(true))
  {
  }

  /** Inside a turn there is something to deliver, and tries are left for it. */
  lemma MidBatch(s: Spool)
    requires Inv(s) && !s.worker.Waiting? && !s.worker.Stopped?
    ensures s.config.maxAttempts > 0
    ensures s.worker.Collecting? || s.worker.Calling? || s.worker.Sleeping? ==> |s.worker.batch| > 0
    ensures s.worker.Calling? ==> s.worker.attempt <= s.config.maxAttempts
    ensures s.worker.Sleeping? ==> s.worker.attempt < s.config.maxAttempts
  {
  }

  lemma RunNothing(s: Spool)
    ensures Run(s, []) == s
  {
  }

  lemma AckedBound(s: Spool)
    requires Inv(s)
    ensures |s.acked| <= |s.accepted|
  {
  }

  lemma StoppedVerdict(s: Spool)
    requires Inv(s) && s.worker.Stopped?
    ensures s.worker.delivered <==> s.acked == s.accepted
  {
    assert s.acked + [] + [] == s.acked;
  }

  function Answer(reply: Reply): Action {
    match reply case Delivered => SinkOk case TransientFailure => SinkTransient case PermanentFailure => SinkPermanent
  }

  lemma OneStep(s: Spool, a: Action)
    ensures Run(s, [a]) == Step(s, a)
  {
    assert [a][1..] == [];
  }

  lemma TwoSteps(s: Spool, a: Action, b: Action)
    ensures Run(s, [a, b]) == Step(Step(s, a), b)
  {
    hide Step;
    assert [a, b][1..] == [b];
    OneStep(Step(s, a), b);
  }

  lemma ThreeSteps(s: Spool, a: Action, b: Action, c: Action)
    ensures Run(s, [a, b, c]) == Step(Step(Step(s, a), b), c)
  {
    hide Step;
    assert [a, b, c][1..] == [b, c];
    TwoSteps(Step(s, a), b, c);
  }

  lemma Extend(s: Spool, trace: seq<Action>, a: Action)
    ensures Run(s, trace + [a]) == Step(Run(s, trace), a)
  {
    RunAppend(s, trace, [a]);
    OneStep(Run(s, trace), a);
  }
}
