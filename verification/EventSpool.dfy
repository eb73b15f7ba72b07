/** The event pipeline as a step machine: one producer (the session actor), a channel of
    `capacity + 1` slots whose last slot is reserved for the terminal event by a semaphore over
    ordinary events, and a batching, retrying delivery worker facing an arbitrary sink. */
module EventSpool {
  import opened Common

  datatype EventType =
    | SessionReady | SessionStarted | SessionInterrupted | SessionCompleted | SessionCanceled | SessionFailed
    | SpeechStarted | SpeechPartial | SpeechFinal
    | ReasoningStarted | ReasoningDelta | ReasoningCompleted
    | ToolStarted | ToolCompleted | ToolFailed
    | TtsStarted | TtsFirstAudio | TtsCompleted | AudioOverrun

  /** A semantic event; `epoch` is the response or the turn it belongs to, zero when there is none. */
  datatype Event = Event(kind: EventType, epoch: nat)

  predicate IsTerminal(e: Event) {
    e.kind.SessionCompleted? || e.kind.SessionCanceled? || e.kind.SessionFailed?
  }

  /** An event with the producer sequence it was accepted under. */
  datatype Sealed = Sealed(event: Event, sequence: nat)

  datatype Queued = Queued(item: Sealed, ordinary: bool)

  datatype Config = Config(capacity: nat, batchSize: nat, maxAttempts: nat, initialBackoff: nat, maxBackoff: nat)

  predicate ValidConfig(c: Config) {
    c.capacity > 0 && c.batchSize > 0 && c.maxAttempts > 0 && 0 < c.initialBackoff <= c.maxBackoff
  }

  datatype Producer = Idle | Acquired(event: Event) | Reserved(event: Event, ordinary: bool)

  datatype Worker =
    | Waiting
    | Unpacking(batch: seq<Sealed>, queued: Queued)  // received, its permit not yet returned
    | Collecting(batch: seq<Sealed>)
    | Calling(batch: seq<Sealed>, attempt: nat, backoff: nat)
    | Sleeping(batch: seq<Sealed>, attempt: nat, backoff: nat)
    | Stopped(delivered: bool)

  datatype PublishError = NoPermit | ChannelFull | WorkerStopped | PipelineClosed | SequenceExhausted | NotTerminal

  /** One call of the sink: the slice offered, which try it is, and the delay slept before it. */
  datatype Call = Call(start: nat, batch: seq<Sealed>, attempt: nat, waited: nat)

  datatype Spool = Spool(
    config: Config,
    open: bool,
    permits: nat,
    channel: seq<Queued>,
    nextSequence: nat,
    producer: Producer,
    worker: Worker,
    accepted: seq<Sealed>,      // every event whose publish returned Ok
    acked: seq<Sealed>,         // every event the sink acknowledged
    calls: seq<Call>,
    refused: seq<PublishError>)

  function Start(config: Config): Spool {
    Spool(config, true, config.capacity, [], 1, Idle, Waiting, [], [], [], [])
  }

  datatype Action =
    // the producer
    | Acquire(event: Event) | Reserve | Seal | ReserveTerminal(event: Event) | Close
    // the worker
    | Receive | Unpack | Submit | Wake | Finish
    // the sink
    | SinkOk | SinkTransient | SinkPermanent

  function SlotsUsed(s: Spool): nat {
    |s.channel| + (if s.producer.Reserved? then 1 else 0)
  }

  predicate SlotFree(s: Spool) {
    SlotsUsed(s) < s.config.capacity + 1
  }

  function Refuse(s: Spool, e: PublishError): Spool {
    s.(refused := s.refused + [e], producer := Idle,
       permits := s.permits + (if s.producer.Acquired? || (s.producer.Reserved? && s.producer.ordinary) then 1 else 0))
  }

  function Ordinary(channel: seq<Queued>): nat {
    if channel == [] then 0 else (if channel[0].ordinary then 1 else 0) + Ordinary(channel[1..])
  }

  function Double(backoff: nat, c: Config): nat {
    if backoff * 2 <= c.maxBackoff then backoff * 2 else c.maxBackoff
  }

  /** A step of the producer. An action that is not enabled changes nothing. */
  function ProducerStep(s: Spool, a: Action): Spool {
    match a
    case Acquire(event) =>
      if !s.producer.Idle? then s
      else if s.permits == 0 then Refuse(s, NoPermit)
      else s.(permits := s.permits - 1, producer := Acquired(event))
    case Reserve =>
      if !s.producer.Acquired? then s
      else if !s.open then Refuse(s, PipelineClosed)
      else if s.worker.Stopped? then Refuse(s, WorkerStopped)
      else if !SlotFree(s) then Refuse(s, ChannelFull)
      else s.(producer := Reserved(s.producer.event, true))
    case ReserveTerminal(event) =>
      if !s.producer.Idle? then s
      else if !IsTerminal(event) then Refuse(s, NotTerminal)
      else if !s.open then Refuse(s, PipelineClosed)
      else if s.worker.Stopped? then Refuse(s, WorkerStopped)
      else if !SlotFree(s) then Refuse(s, ChannelFull)  // waits, and may miss its deadline
      else s.(producer := Reserved(event, false))
    case Seal =>
      if !s.producer.Reserved? then s
      else if s.nextSequence == U64_MAX then Refuse(s, SequenceExhausted)
      else
        var item := Sealed(s.producer.event, s.nextSequence);
        s.(nextSequence := s.nextSequence + 1, producer := Idle, accepted := s.accepted + [item],
           channel := s.channel + [Queued(item, s.producer.ordinary)])
    case Close =>
      if s.producer.Idle? then s.(open := false) else s
    case _ => s
  }

  /** A step of the worker, or the sink's answer to it. */
  function WorkerStep(s: Spool, a: Action): Spool {
    match a
    case Receive =>
      if s.channel != [] && (s.worker.Waiting? || (s.worker.Collecting? && |s.worker.batch| < s.config.batchSize)) then
        s.(channel := s.channel[1..],
           worker := Unpacking(if s.worker.Waiting? then [] else s.worker.batch, s.channel[0]))
      else s
    case Unpack =>
      if s.worker.Unpacking? then
        s.(worker := Collecting(s.worker.batch + [s.worker.queued.item]),
           permits := s.permits + (if s.worker.queued.ordinary then 1 else 0))
      else s
    case Submit =>
      if s.worker.Collecting? && (|s.worker.batch| >= s.config.batchSize || s.channel == []) then
        s.(worker := Calling(s.worker.batch, 1, s.config.initialBackoff),
           calls := s.calls + [Call(|s.acked|, s.worker.batch, 1, 0)])
      else s
    case SinkOk =>
      if s.worker.Calling? then s.(worker := Waiting, acked := s.acked + s.worker.batch) else s
    case SinkTransient =>
      if !s.worker.Calling? then s
      else if s.worker.attempt < s.config.maxAttempts then
        s.(worker := Sleeping(s.worker.batch, s.worker.attempt, s.worker.backoff))
      else Abandon(s)
    case SinkPermanent =>
      if s.worker.Calling? then Abandon(s) else s
    case Wake =>
      if s.worker.Sleeping? then
        s.(worker := Calling(s.worker.batch, s.worker.attempt + 1, Double(s.worker.backoff, s.config)),
           calls := s.calls + [Call(|s.acked|, s.worker.batch, s.worker.attempt + 1, s.worker.backoff)])
      else s
    case Finish =>
      if s.worker.Waiting? && s.channel == [] && !s.open then s.(worker := Stopped(true)) else s
    case _ => s
  }

  predicate OfProducer(a: Action) {
    a.Acquire? || a.Reserve? || a.ReserveTerminal? || a.Seal? || a.Close?
  }

  function Step(s: Spool, a: Action): Spool {
    if OfProducer(a) then ProducerStep(s, a) else WorkerStep(s, a)
  }

  /** The worker gives up: the receiver is dropped and the queued events with it. */
  function Abandon(s: Spool): Spool {
    s.(worker := Stopped(false), channel := [], permits := s.permits + Ordinary(s.channel))
  }

  function Run(s: Spool, actions: seq<Action>): Spool
    decreases |actions|
  {
    if actions == [] then s else Run(Step(s, actions[0]), actions[1..])
  }

  lemma {:induction false} RunAppend(s: Spool, a: seq<Action>, b: seq<Action>)
    ensures Run(s, a + b) == Run(Run(s, a), b)
    decreases |a|
  {
    hide Step;
    if a == [] {
      assert a + b == b;
    } else {
      assert (a + b)[0] == a[0] && (a + b)[1..] == a[1..] + b;
      RunAppend(Step(s, a[0]), a[1..], b);
    }
  }

  // ---------- what every step keeps ----------

  function Items(channel: seq<Queued>): seq<Sealed> {
    if channel == [] then [] else [channel[0].item] + Items(channel[1..])
  }

  function InFlight(w: Worker): seq<Sealed> {
    match w
    case Unpacking(batch, queued) => batch + [queued.item]
    case Collecting(batch) => batch
    case Calling(batch, _, _) => batch
    case Sleeping(batch, _, _) => batch
    case _ => []
  }

  /** Permits held outside the semaphore: by the producer, by queued events, by the worker. */
  function Outstanding(s: Spool): nat {
    (if s.producer.Acquired? || (s.producer.Reserved? && s.producer.ordinary) then 1 else 0)
    + Ordinary(s.channel)
    + (if s.worker.Unpacking? && s.worker.queued.ordinary then 1 else 0)
  }

  predicate PermitsOk(s: Spool) {
    s.permits + Outstanding(s) == s.config.capacity
  }

  function Terminals(items: seq<Sealed>): nat {
    if items == [] then 0 else Terminals(items[..|items| - 1]) + (if IsTerminal(items[|items| - 1].event) then 1 else 0)
  }

  /** Unreserved (terminal) slots in use never exceed the terminal events accepted or about to be. */
  predicate SlotsOk(s: Spool) {
    && |s.channel| - Ordinary(s.channel) <= Terminals(s.accepted)
    && (forall i :: 0 <= i < |s.channel| && !s.channel[i].ordinary ==> IsTerminal(s.channel[i].item.event))
    && (s.producer.Reserved? && !s.producer.ordinary ==> IsTerminal(s.producer.event))
  }

  predicate SequencesOk(s: Spool) {
    && s.nextSequence == |s.accepted| + 1
    && forall i :: 0 <= i < |s.accepted| ==> s.accepted[i].sequence == i + 1
  }

  /** Accepted events are, in order: acknowledged, in the worker's hands, and queued. */
  predicate DeliveryOk(s: Spool) {
    if s.worker.Stopped? && !s.worker.delivered then
      s.acked < s.accepted
    else
      && s.accepted == s.acked + InFlight(s.worker) + Items(s.channel)
      && (s.worker.Stopped? ==> s.channel == [] && !s.open)
  }

  predicate ClosedOk(s: Spool) {
    !s.open ==> !s.producer.Reserved?
  }

  /** The delay before try `k + 1`. */
  function Delay(k: nat, c: Config): nat {
    if k <= 1 then c.initialBackoff else Double(Delay(k - 1, c), c)
  }

  predicate WorkerOk(s: Spool) {
    match s.worker
    case Unpacking(batch, _) => |batch| < s.config.batchSize
    case Collecting(batch) => 0 < |batch| <= s.config.batchSize
    case Calling(batch, attempt, backoff) =>
      && 0 < |batch| <= s.config.batchSize && 1 <= attempt <= s.config.maxAttempts
      && backoff == Delay(attempt, s.config)
      && s.calls != [] && var last := s.calls[|s.calls| - 1];
      last.start == |s.acked| && last.batch == batch && last.attempt == attempt
    case Sleeping(batch, attempt, backoff) =>
      && 0 < |batch| <= s.config.batchSize && 1 <= attempt < s.config.maxAttempts
      && backoff == Delay(attempt, s.config)
      && s.calls != [] && var last := s.calls[|s.calls| - 1];
      last.start == |s.acked| && last.batch == batch && last.attempt == attempt
    case _ => true
  }

  /** Every sink call offers a contiguous slice of the accepted log; a first try starts where the
      last acknowledged slice ended; a retry repeats its slice exactly after the scheduled delay. */
  predicate CallOk(calls: seq<Call>, i: nat, accepted: seq<Sealed>, c: Config)
    requires i < |calls|
  {
    var call := calls[i];
    && 0 < |call.batch| <= c.batchSize && 1 <= call.attempt <= c.maxAttempts
    && call.start + |call.batch| <= |accepted|
    && call.batch == accepted[call.start..call.start + |call.batch|]
    && (if call.attempt == 1 then
          && call.waited == 0
          && call.start == (if i == 0 then 0 else calls[i - 1].start + |calls[i - 1].batch|)
        else
          && i > 0 && call.waited == Delay(call.attempt - 1, c)
          && calls[i - 1].start == call.start && calls[i - 1].batch == call.batch
          && calls[i - 1].attempt == call.attempt - 1)
  }

  predicate CallsOk(s: Spool) {
    && (forall i :: 0 <= i < |s.calls| ==> CallOk(s.calls, i, s.accepted, s.config))
    && (!s.worker.Calling? && !s.worker.Sleeping? && !(s.worker.Stopped? && !s.worker.delivered) ==>
          |s.acked| == if s.calls == [] then 0 else s.calls[|s.calls| - 1].start + |s.calls[|s.calls| - 1].batch|)
  }

  predicate Inv(s: Spool) {
    && ValidConfig(s.config)
    && PermitsOk(s) && SlotsOk(s) && SequencesOk(s) && ClosedOk(s) && DeliveryOk(s) && WorkerOk(s) && CallsOk(s)
  }

  lemma {:induction false} OrdinaryAppend(a: seq<Queued>, q: Queued)
    ensures Ordinary(a + [q]) == Ordinary(a) + (if q.ordinary then 1 else 0)
    ensures Items(a + [q]) == Items(a) + [q.item]
  {
    if a != [] {
      assert (a + [q])[0] == a[0] && (a + [q])[1..] == a[1..] + [q];
      OrdinaryAppend(a[1..], q);
    } else {
      assert (a + [q])[1..] == [];
    }
  }

  lemma {:induction false} OrdinaryBound(a: seq<Queued>)
    ensures Ordinary(a) <= |a| == |Items(a)|
  {
    if a != [] {
      OrdinaryBound(a[1..]);
    }
  }

  lemma TerminalsAppend(items: seq<Sealed>, x: Sealed)
    ensures Terminals(items + [x]) == Terminals(items) + (if IsTerminal(x.event) then 1 else 0)
  {
    assert (items + [x])[..|items|] == items;
  }

  lemma ProducerInv(s: Spool, a: Action)
    requires Inv(s) && OfProducer(a)
    ensures Inv(ProducerStep(s, a))
  {
    if a.Seal? && s.producer.Reserved? && s.nextSequence != U64_MAX {
      SealKeepsCounts(s);
      SealKeepsDelivery(s);
    } else {
      QuietProducer(s, a);
    }
  }

  /** Everything a producer does short of sealing an event moves only its permit. */
  lemma QuietProducer(s: Spool, a: Action)
    requires Inv(s) && OfProducer(a)
    requires !(a.Seal? && s.producer.Reserved? && s.nextSequence != U64_MAX)
    ensures Inv(ProducerStep(s, a))
  {
    QuietCounts(s, a);
    hide ProducerStep, PermitsOk, SlotsOk, SequencesOk, ClosedOk, CallOk, Delay, Items;
  }

  lemma QuietCounts(s: Spool, a: Action)
    requires PermitsOk(s) && SlotsOk(s) && SequencesOk(s) && ClosedOk(s) && OfProducer(a)
    requires !(a.Seal? && s.producer.Reserved? && s.nextSequence != U64_MAX)
    ensures var t := ProducerStep(s, a);
            && PermitsOk(t) && SlotsOk(t) && SequencesOk(t) && ClosedOk(t)
            && t == s.(producer := t.producer, permits := t.permits, refused := t.refused, open := s.open && t.open)
  {
    hide Ordinary, IsTerminal, Terminals;
  }

  lemma SealKeepsCounts(s: Spool)
    requires PermitsOk(s) && SlotsOk(s) && SequencesOk(s) && ClosedOk(s) && s.producer.Reserved? && s.nextSequence != U64_MAX
    ensures var t := ProducerStep(s, Seal);
            t.config == s.config && PermitsOk(t) && SlotsOk(t) && SequencesOk(t) && ClosedOk(t)
  {
    var q := Queued(Sealed(s.producer.event, s.nextSequence), s.producer.ordinary);
    OrdinaryAppend(s.channel, q);
    TerminalsAppend(s.accepted, q.item);
    hide Ordinary, Items, Terminals, IsTerminal;
  }

  lemma SealKeepsDelivery(s: Spool)
    requires DeliveryOk(s) && WorkerOk(s) && CallsOk(s) && ClosedOk(s) && s.producer.Reserved? && s.nextSequence != U64_MAX
    ensures var t := ProducerStep(s, Seal);
            DeliveryOk(t) && WorkerOk(t) && CallsOk(t)
  {
    var q := Queued(Sealed(s.producer.event, s.nextSequence), s.producer.ordinary);
    OrdinaryAppend(s.channel, q);
    CallsGrow(s.calls, s.accepted, [q.item], s.config);
    hide Ordinary, Items, CallOk, Delay;
    assert s.acked + InFlight(s.worker) + Items(s.channel) + [q.item]
        == s.acked + InFlight(s.worker) + (Items(s.channel) + [q.item]);
  }

  /** Accepting more events leaves every past sink call right. */
  lemma CallsGrow(calls: seq<Call>, accepted: seq<Sealed>, more: seq<Sealed>, c: Config)
    requires forall i :: 0 <= i < |calls| ==> CallOk(calls, i, accepted, c)
    ensures forall i :: 0 <= i < |calls| ==> CallOk(calls, i, accepted + more, c)
  {
    forall i | 0 <= i < |calls|
      ensures CallOk(calls, i, accepted + more, c)
    {
      var n := calls[i].start + |calls[i].batch|;
      assert CallOk(calls, i, accepted, c);
      assert (accepted + more)[calls[i].start..n] == accepted[calls[i].start..n];
    }
  }

  /** One more sink call keeps the earlier ones right. */
  lemma CallsPush(calls: seq<Call>, call: Call, accepted: seq<Sealed>, c: Config)
    requires forall i :: 0 <= i < |calls| ==> CallOk(calls, i, accepted, c)
    requires CallOk(calls + [call], |calls|, accepted, c)
    ensures forall i :: 0 <= i < |calls + [call]| ==> CallOk(calls + [call], i, accepted, c)
  {
    forall i | 0 <= i < |calls + [call]|
      ensures CallOk(calls + [call], i, accepted, c)
    {
      if i < |calls| {
        assert CallOk(calls, i, accepted, c);
      }
    }
  }

  lemma WorkerInv(s: Spool, a: Action)
    requires Inv(s) && !OfProducer(a)
    ensures Inv(WorkerStep(s, a))
  {
    WorkerKeepsCounts(s, a);
    WorkerKeepsDelivery(s, a);
    WorkerKeepsCalls(s, a);
  }

  lemma WorkerKeepsCounts(s: Spool, a: Action)
    requires ValidConfig(s.config) && PermitsOk(s) && SlotsOk(s) && SequencesOk(s) && ClosedOk(s) && !OfProducer(a)
    ensures var t := WorkerStep(s, a);
            ValidConfig(t.config) && PermitsOk(t) && SlotsOk(t) && SequencesOk(t) && ClosedOk(t)
  {
    hide IsTerminal, Terminals;
  }

  lemma WorkerKeepsDelivery(s: Spool, a: Action)
    requires DeliveryOk(s) && WorkerOk(s) && !OfProducer(a)
    ensures DeliveryOk(WorkerStep(s, a))
  {
    hide IsTerminal, Ordinary, Delay, Double;
    if a.Receive? && s.channel != [] {
      assert InFlight(s.worker) + [s.channel[0].item] + Items(s.channel[1..]) == InFlight(s.worker) + Items(s.channel);
    } else if s.worker.Calling? {
      assert s.acked + s.worker.batch + Items(s.channel) == s.acked + s.worker.batch + [] + Items(s.channel);
      assert s.acked <= s.accepted;
    }
  }

  lemma WorkerKeepsCalls(s: Spool, a: Action)
    requires ValidConfig(s.config) && DeliveryOk(s) && WorkerOk(s) && CallsOk(s) && !OfProducer(a)
    ensures WorkerOk(WorkerStep(s, a)) && CallsOk(WorkerStep(s, a))
  {
    var t := WorkerStep(s, a);
    if |t.calls| > |s.calls| {
      var call := t.calls[|s.calls|];
      assert call.batch == s.accepted[call.start..call.start + |call.batch|];
      assert CallOk(s.calls + [call], |s.calls|, s.accepted, s.config);
      CallsPush(s.calls, call, s.accepted, s.config);
    }
    hide CallOk, Items, Ordinary, DeliveryOk;
  }

  lemma StepInv(s: Spool, a: Action)
    requires Inv(s)
    ensures Inv(Step(s, a))
  {
    hide Inv, ProducerStep, WorkerStep;
    if OfProducer(a) {
      ProducerInv(s, a);
    } else {
      WorkerInv(s, a);
    }
  }

  /** The invariant holds in every state any interleaving can reach. */
  lemma {:induction false} RunInv(s: Spool, actions: seq<Action>)
    requires Inv(s)
    ensures Inv(Run(s, actions))
    decreases |actions|
  {
    if actions != [] {
      StepInv(s, actions[0]);
      RunInv(Step(s, actions[0]), actions[1..]);
    }
  }

  lemma StartInv(config: Config)
    requires ValidConfig(config)
    ensures Inv(Start(config))
  {
  }

  // ---------- the pipeline's promises, for every interleaving ----------

  /** Accepted events are numbered 1..n without gaps, whatever was refused in between, and what
      the sink has acknowledged is at every moment a prefix of what was accepted. */
  lemma GapFreeAndInOrder(config: Config, actions: seq<Action>)
    requires ValidConfig(config)
    ensures var s := Run(Start(config), actions);
            && (forall i :: 0 <= i < |s.accepted| ==> s.accepted[i].sequence == i + 1)
            && s.acked <= s.accepted
  {
    StartInv(config);
    RunInv(Start(config), actions);
    var s := Run(Start(config), actions);
    hide Run;
    if !(s.worker.Stopped? && !s.worker.delivered) {
      assert s.accepted == s.acked + (InFlight(s.worker) + Items(s.channel));
    }
  }

  /** A refused publish burns no sequence number and accepts nothing. */
  lemma RefusalBurnsNothing(s: Spool, a: Action)
    requires |Step(s, a).refused| > |s.refused|
    ensures Step(s, a).nextSequence == s.nextSequence && Step(s, a).accepted == s.accepted
    ensures Step(s, a).channel == s.channel && Step(s, a).producer.Idle?
  {
  }

  /** Ordinary events in the channel never exceed the permits held for them, and those never
      exceed the capacity. So while no terminal event has been accepted a terminal reserve never
      waits, and with at most one accepted an ordinary publish holding its permit never finds
      the channel full. */
  lemma ReservedSlot(config: Config, actions: seq<Action>)
    requires ValidConfig(config)
    ensures var s := Run(Start(config), actions);
            && Ordinary(s.channel) <= Outstanding(s) <= config.capacity
            && (s.producer.Idle? && Terminals(s.accepted) == 0 ==> SlotFree(s))
            && (s.producer.Acquired? && Terminals(s.accepted) <= 1 ==> SlotFree(s))
  {
    StartInv(config);
    RunInv(Start(config), actions);
    RunConfig(Start(config), actions);
    var s := Run(Start(config), actions);
    hide Run, Ordinary, Terminals, DeliveryOk, CallsOk, WorkerOk, SequencesOk;
  }

  lemma {:induction false} RunConfig(s: Spool, actions: seq<Action>)
    ensures Run(s, actions).config == s.config
    decreases |actions|
  {
    if actions != [] {
      RunConfig(Step(s, actions[0]), actions[1..]);
    }
  }

  /** Every call of the sink is the next contiguous slice, or the same slice again after the
      scheduled delay; see `CallOk`. */
  lemma SinkCallsAreSlices(config: Config, actions: seq<Action>)
    requires ValidConfig(config)
    ensures var s := Run(Start(config), actions);
            forall i :: 0 <= i < |s.calls| ==> CallOk(s.calls, i, s.accepted, config)
  {
    StartInv(config);
    RunInv(Start(config), actions);
    RunConfig(Start(config), actions);
  }

  function Power2(n: nat): nat {
    if n == 0 then 1 else 2 * Power2(n - 1)
  }

  /** The delays double from the initial one up to the ceiling. */
  lemma {:induction false} DelayDoubles(k: nat, c: Config)
    requires ValidConfig(c) && k >= 1
    ensures Delay(k, c) == if c.initialBackoff * Power2(k - 1) <= c.maxBackoff then c.initialBackoff * Power2(k - 1) else c.maxBackoff
  {
    if k > 1 {
      DelayDoubles(k - 1, c);
      var before := c.initialBackoff * Power2(k - 2);
      assert c.initialBackoff * Power2(k - 1) == 2 * before;
    }
  }

  /** The worker's verdict, which the first `close` returns, is success exactly when everything
      accepted was acknowledged. */
  lemma CloseVerdict(config: Config, actions: seq<Action>)
    requires ValidConfig(config)
    ensures var s := Run(Start(config), actions);
            s.worker.Stopped? ==> (s.worker.delivered <==> s.acked == s.accepted)
  {
    StartInv(config);
    RunInv(Start(config), actions);
    var s := Run(Start(config), actions);
    hide Run;
    if s.worker.Stopped? && s.worker.delivered {
      assert s.acked + [] + [] == s.acked;
    }
  }

  // ---------- one publish, with the worker running in between ----------

  /** What the worker and the sink do around the producer's three steps. */
  datatype Interleaving = Interleaving(before: seq<Action>, acquired: seq<Action>, reserved: seq<Action>)

  function Work(s: Spool, actions: seq<Action>): Spool
    decreases |actions|
  {
    if actions == [] then s else Work(WorkerStep(s, actions[0]), actions[1..])
  }

  function TryPublish(s: Spool, e: Event, i: Interleaving): Spool {
    var acquired := ProducerStep(Work(s, i.before), Acquire(e));
    var reserved := ProducerStep(Work(acquired, i.acquired), Reserve);
    ProducerStep(Work(reserved, i.reserved), Seal)
  }

  function PublishTerminal(s: Spool, e: Event, i: Interleaving): Spool {
    var reserved := ProducerStep(Work(s, i.before), ReserveTerminal(e));
    ProducerStep(Work(reserved, i.reserved), Seal)
  }

  predicate Accepts(s: Spool, t: Spool) {
    |t.accepted| > |s.accepted|
  }

  lemma WorkerEffect(s: Spool, a: Action)
    requires Inv(s)
    ensures var t := WorkerStep(s, a);
            Inv(t) && t.accepted == s.accepted && t.producer == s.producer && t.open == s.open && t.config == s.config
  {
    if !OfProducer(a) {
      WorkerInv(s, a);
    }
    hide Inv;
  }

  lemma {:induction false} WorkInv(s: Spool, actions: seq<Action>)
    requires Inv(s)
    ensures var t := Work(s, actions);
            Inv(t) && t.accepted == s.accepted && t.producer == s.producer && t.open == s.open && t.config == s.config
    decreases |actions|
  {
    if actions != [] {
      hide Inv, WorkerStep;
      WorkerEffect(s, actions[0]);
      WorkInv(WorkerStep(s, actions[0]), actions[1..]);
    }
  }

  lemma ProducerEffect(s: Spool, a: Action)
    requires Inv(s) && OfProducer(a)
    ensures var t := ProducerStep(s, a);
            && Inv(t)
            && (t.accepted == s.accepted
                || (a.Seal? && s.producer.Reserved? && t.accepted == s.accepted + [Sealed(s.producer.event, |s.accepted| + 1)]))
  {
    ProducerInv(s, a);
    hide PermitsOk, SlotsOk, DeliveryOk, WorkerOk, CallsOk, ClosedOk;
  }

  /** A publish appends exactly its event to the accepted log, or changes nothing there. */
  lemma TryPublishEffect(s: Spool, e: Event, i: Interleaving)
    requires Inv(s) && s.producer.Idle?
    ensures var t := TryPublish(s, e, i);
            && Inv(t) && t.producer.Idle? && t.open == s.open && t.config == s.config
            && t.accepted == s.accepted + (if Accepts(s, t) then [Sealed(e, |s.accepted| + 1)] else [])
  {
    hide Inv;
    var s0 := Work(s, i.before);
    WorkInv(s, i.before);
    var s1 := ProducerStep(s0, Acquire(e));
    ProducerEffect(s0, Acquire(e));
    var s2 := Work(s1, i.acquired);
    WorkInv(s1, i.acquired);
    var s3 := ProducerStep(s2, Reserve);
    ProducerEffect(s2, Reserve);
    var s4 := Work(s3, i.reserved);
    WorkInv(s3, i.reserved);
    ProducerEffect(s4, Seal);
  }

  lemma PublishTerminalEffect(s: Spool, e: Event, i: Interleaving)
    requires Inv(s) && s.producer.Idle?
    ensures var t := PublishTerminal(s, e, i);
            && Inv(t) && t.producer.Idle? && t.open == s.open && t.config == s.config
            && t.accepted == s.accepted + (if Accepts(s, t) then [Sealed(e, |s.accepted| + 1)] else [])
  {
    hide Inv;
    var s0 := Work(s, i.before);
    WorkInv(s, i.before);
    var s1 := ProducerStep(s0, ReserveTerminal(e));
    ProducerEffect(s0, ReserveTerminal(e));
    var s2 := Work(s1, i.reserved);
    WorkInv(s1, i.reserved);
    ProducerEffect(s2, Seal);
  }
}
