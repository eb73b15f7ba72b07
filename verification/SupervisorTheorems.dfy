/** What the supervisor promises over every interleaving, and where it needs help from its callers. */
module SupervisorTheorems {
  import opened Common
  import opened Supervisor

  // ---------- unconditionally ----------

  /** Neither registry outgrows the shard, and a session has at most one registered actor, which is
      an actor of that session. */
  lemma RegistriesBounded(max: nat, ttl: nat, steps: seq<Step>)
    ensures var s := Run(Start(max, ttl), steps);
            && |s.sessions| <= max && |s.prepared| <= max
            && (forall id :: id in s.sessions ==> s.sessions[id].actor < |s.actors| && s.actors[s.sessions[id].actor].context.session == id)
            && (forall a, b :: a in s.sessions && b in s.sessions && a != b ==> s.sessions[a].actor != s.sessions[b].actor)
  {
    Reachable(max, ttl, steps);
    hide Run, TicketsOk, HandoffsOk, StopsOk, RecordsOk, OpsCredited, LeasesOk;
  }

  function DeparturesOf(departures: seq<Departure>, ticket: nat): nat {
    if departures == [] then 0
    else DeparturesOf(departures[..|departures| - 1], ticket) + (if departures[|departures| - 1].ticket == ticket then 1 else 0)
  }

  lemma {:induction false} CountDepartures(departures: seq<Departure>, ticket: nat)
    requires forall i, j :: 0 <= i < j < |departures| ==> departures[i].ticket != departures[j].ticket
    ensures DeparturesOf(departures, ticket) == if Departed(departures, ticket) then 1 else 0
  {
    if departures != [] {
      var prior := departures[..|departures| - 1];
      CountDepartures(prior, ticket);
      assert departures == prior + [departures[|departures| - 1]];
      DepartedOne(prior, departures[|departures| - 1], ticket);
    }
  }

  /** Each created preparation is in the registry or has left it, never both, and left it once: by
      attachment, stop, expiry or drain. It yields at most one lease, and only if it was attached. */
  lemma PreparationLeavesOnce(max: nat, ttl: nat, steps: seq<Step>, ticket: nat)
    requires ticket < Run(Start(max, ttl), steps).created
    ensures var s := Run(Start(max, ttl), steps);
            && DeparturesOf(s.departures, ticket) == (if Holds(s.prepared, ticket) then 0 else 1)
            && (LeasedTo(s.leases, ticket) ==> Taken(s.departures, ticket))
            && (forall i, j :: 0 <= i < j < |s.leases| && s.leases[i].ticket == Some(ticket) ==> s.leases[j].ticket != Some(ticket))
  {
    Reachable(max, ttl, steps);
    var s := Run(Start(max, ttl), steps);
    hide Run, SessionsOk, PreparedOk, StopsOk, RecordsOk, OpsCredited, LeasesOk;
    CountDepartures(s.departures, ticket);
  }

  // ---------- capacity across both registries ----------

  function Handoffs(ops: map<nat, Op>): set<nat> {
    set o | o in ops && ops[o].Admitting?
  }

  /** Active, prepared and handed-over sessions fit the shard together. */
  ghost predicate Room(s: Shard) {
    |s.sessions| + |s.prepared| + |Handoffs(s.ops)| <= s.maxSessions
  }

  /** No direct admission, and no reservation while a hand-off is under way; both hold when direct
      admission is unused and attaching is atomic. */
  ghost predicate Calm(s: Shard, step: Step) {
    && !step.AdmitDirect?
    && (step.Proceed? && step.op in s.ops && s.ops[step.op].Preparing? ==> Handoffs(s.ops) == {})
  }

  ghost predicate CalmRun(s: Shard, steps: seq<Step>)
    decreases |steps|
  {
    steps == [] || (Calm(s, steps[0]) && CalmRun(Next(s, steps[0]), steps[1..]))
  }

  lemma HandoffsChange(ops: map<nat, Op>, op: nat, o: Op)
    ensures var was := op in ops && ops[op].Admitting?;
            |Handoffs(ops[op := o])| == |Handoffs(ops)| - (if was then 1 else 0) + (if o.Admitting? then 1 else 0)
  {
    var before, after := Handoffs(ops), Handoffs(ops[op := o]);
    forall k | k != op
      ensures k in before <==> k in after
    {
    }
    assert op in after <==> o.Admitting?;
    assert op in before <==> op in ops && ops[op].Admitting?;
    hide Handoffs;
    WithOne(before, before - {op}, op);
    WithOne(after, before - {op}, op);
  }

  lemma ReapedSize(s: Shard)
    ensures |Reaped(s).sessions| <= |s.sessions| && Reaped(s) == s.(sessions := Reaped(s).sessions)
  {
    SubsetSize(Reaped(s).sessions.Keys, s.sessions.Keys);
  }

  lemma RoomReserve(s: Shard, op: nat, p: Preparation)
    requires Room(s) && op in s.ops && s.ops[op].Preparing? && Handoffs(s.ops) == {}
    ensures Room(Reserve(s, op, p))
  {
    hide Handoffs, Reaped;
    ReapedSize(s);
    HandoffsChange(s.ops, op, Reserve(s, op, p).ops[op]);
  }

  lemma RoomEnroll(s: Shard, op: nat, spawns: bool)
    requires Room(s) && op in s.ops && s.ops[op].Admitting?
    ensures Room(Enroll(s, op, spawns))
  {
    hide Handoffs, Reaped;
    ReapedSize(s);
    HandoffsChange(s.ops, op, Enroll(s, op, spawns).ops[op]);
  }

  lemma RoomUnregister(s: Shard, op: nat, context: Context)
    requires Room(s) && op in s.ops && s.ops[op].Stopping?
    ensures Room(Unregister(s, op, context))
  {
    hide Handoffs;
    HandoffsChange(s.ops, op, Done(Stopped));
    RemovedSize(s.sessions, context.session);
  }

  lemma RoomUnprepare(s: Shard, op: nat, context: Context, binding: nat)
    requires Room(s) && op in s.ops && s.ops[op].Unpreparing?
    ensures Room(Unprepare(s, op, context, binding))
  {
    hide Handoffs, PreparedProblem;
    HandoffsChange(s.ops, op, Unprepare(s, op, context, binding).ops[op]);
    RemovedSize(s.prepared, context.session);
  }

  lemma RoomContinue(s: Shard, op: nat, spawns: bool)
    requires Room(s) && op in s.ops && (s.ops[op].Preparing? ==> Handoffs(s.ops) == {})
    ensures Room(Continue(s, op, spawns))
  {
    hide Handoffs, Reserve, Enroll, Unprepare, Unregister;
    match s.ops[op]
    case Preparing(p) => RoomReserve(s, op, p);
    case Admitting(_, _, _, _, checked) =>
      if checked {
        RoomEnroll(s, op, spawns);
      } else {
        HandoffsChange(s.ops, op, Continue(s, op, spawns).ops[op]);
      }
    case Stopping(context, _) => RoomUnregister(s, op, context);
    case Unpreparing(context, binding) => RoomUnprepare(s, op, context, binding);
    case Done(_) =>
  }

  lemma RoomAttach(s: Shard, op: nat, context: Context, binding: nat)
    requires Room(s) && op !in s.ops
    ensures Room(Consume(s, op, context, binding))
  {
    hide Handoffs, PreparedProblem;
    HandoffsChange(s.ops, op, Consume(s, op, context, binding).ops[op]);
    RemovedSize(s.prepared, context.session);
  }

  lemma RoomLocate(s: Shard, op: nat, context: Context, binding: nat)
    requires Room(s) && op !in s.ops
    ensures Room(Locate(s, op, context, binding))
  {
    hide Handoffs, Reaped, ActiveProblem;
    ReapedSize(s);
    HandoffsChange(s.ops, op, Locate(s, op, context, binding).ops[op]);
  }

  lemma RoomOpen(s: Shard, step: Step)
    requires Room(s) && Opens(step) && step.op !in s.ops && !step.AdmitDirect?
    ensures Room(Open(s, step))
  {
    hide Handoffs, Consume, Locate;
    match step
    case Prepare(op, _) => HandoffsChange(s.ops, op, Open(s, step).ops[op]);
    case Attach(op, context, binding) => RoomAttach(s, op, context, binding);
    case Stop(op, context, binding) => RoomLocate(s, op, context, binding);
  }

  lemma RoomStep(s: Shard, step: Step)
    requires Room(s) && Calm(s, step)
    ensures Room(Next(s, step))
  {
    hide Handoffs, Open, Continue, Reaped, Enumerates;
    if Opens(step) {
      if step.op !in s.ops {
        RoomOpen(s, step);
      }
    } else {
      match step
      case Proceed(op, spawns) =>
        if op in s.ops {
          RoomContinue(s, op, spawns);
        }
      case GiveUp(op) => HandoffsChange(s.ops, op, Done(Refused(DidNotStop)));
      case Expire(id, _) => RemovedSize(s.prepared, id);
      case Reap => ReapedSize(s);
      case _ =>
    }
  }

  lemma {:induction false} CalmKeepsRoom(s: Shard, steps: seq<Step>)
    requires Room(s) && CalmRun(s, steps)
    ensures Room(Run(s, steps))
    decreases |steps|
  {
    if steps != [] {
      hide Room, Next, Calm;
      RoomStep(s, steps[0]);
      CalmKeepsRoom(Next(s, steps[0]), steps[1..]);
    }
  }

  /** In a calm run, active and prepared sessions together never exceed the shard. */
  lemma CapacityShared(max: nat, ttl: nat, steps: seq<Step>)
    requires CalmRun(Start(max, ttl), steps)
    ensures var s := Run(Start(max, ttl), steps);
            Total(s) <= max
  {
    hide Run, CalmRun;
    assert Handoffs(map[]) == {};
    CalmKeepsRoom(Start(max, ttl), steps);
    RunMax(Start(max, ttl), steps);
  }

  /** The one step that can overfill the shard: enrolling an actor when, after reaping, active and
      prepared sessions already fill it. */
  ghost predicate EnrolsOverFull(s: Shard, step: Step) {
    && step.Proceed? && step.op in s.ops && s.ops[step.op].Admitting? && s.ops[step.op].checked && step.spawns
    && var r := Reaped(s);
    s.ops[step.op].context.session !in r.sessions && |r.sessions| < s.maxSessions && |r.sessions| + |r.prepared| >= s.maxSessions
  }

  function Total(s: Shard): nat {
    |s.sessions| + |s.prepared|
  }

  /** Without calm, a step overfills the shard exactly when it enrols over a full one. */
  lemma OverfillsIff(s: Shard, step: Step)
    requires Total(s) <= s.maxSessions
    ensures Total(Next(s, step)) > Next(s, step).maxSessions <==> EnrolsOverFull(s, step)
  {
    hide Open, Continue, Total;
    NextMax(s, step);
    if step.Proceed? && step.op in s.ops {
      ContinueOverfills(s, step.op, step.spawns);
    } else {
      OtherShrinks(s, step);
    }
  }

  lemma OtherShrinks(s: Shard, step: Step)
    requires !step.Proceed? || step.op !in s.ops
    ensures Total(Next(s, step)) <= Total(s)
  {
    hide Open, Reaped, Enumerates;
    if Opens(step) {
      OpenShrinks(s, step);
    } else if step.Reap? {
      ReapedSize(s);
    } else if step.Expire? {
      RemovedSize(s.prepared, step.session);
    }
  }

  lemma OpenShrinks(s: Shard, step: Step)
    requires Opens(step)
    ensures |Open(s, step).sessions| <= |s.sessions| && |Open(s, step).prepared| <= |s.prepared|
  {
    hide Reaped, PreparedProblem, ActiveProblem;
    ReapedSize(s);
    if step.Attach? {
      RemovedSize(s.prepared, step.context.session);
    }
  }

  lemma ContinueOverfills(s: Shard, op: nat, spawns: bool)
    requires Total(s) <= s.maxSessions && op in s.ops
    ensures Total(Continue(s, op, spawns)) > s.maxSessions <==> EnrolsOverFull(s, Proceed(op, spawns))
  {
    hide Reserve, Enroll, Unregister, Unprepare, Reaped, Total;
    match s.ops[op]
    case Preparing(p) => ReserveFits(s, op, p);
    case Admitting(_, _, _, _, checked) =>
      if checked {
        EnrollOverfills(s, op, spawns);
      } else {
        assert Total(Continue(s, op, spawns)) == Total(s) by {
          CheckTotal(s, op, spawns);
        }
      }
    case Stopping(context, _) => UnregisterShrinks(s, op, context);
    case Unpreparing(context, binding) => UnprepareShrinks(s, op, context, binding);
    case Done(_) =>
  }

  lemma CheckTotal(s: Shard, op: nat, spawns: bool)
    requires op in s.ops && s.ops[op].Admitting? && !s.ops[op].checked
    ensures Total(Continue(s, op, spawns)) == Total(s)
  {
  }

  lemma ReserveFits(s: Shard, op: nat, p: Preparation)
    requires Total(s) <= s.maxSessions
    ensures Total(Reserve(s, op, p)) <= s.maxSessions
  {
    hide Reaped;
    ReapedSize(s);
  }

  lemma EnrollOverfills(s: Shard, op: nat, spawns: bool)
    requires Total(s) <= s.maxSessions && op in s.ops && s.ops[op].Admitting? && s.ops[op].checked
    ensures Total(Enroll(s, op, spawns)) > s.maxSessions <==> EnrolsOverFull(s, Proceed(op, spawns))
  {
    hide Reaped;
    ReapedSize(s);
  }

  lemma UnregisterShrinks(s: Shard, op: nat, context: Context)
    ensures Total(Unregister(s, op, context)) <= Total(s)
  {
    RemovedSize(s.sessions, context.session);
  }

  lemma UnprepareShrinks(s: Shard, op: nat, context: Context, binding: nat)
    ensures Total(Unprepare(s, op, context, binding)) <= Total(s)
  {
    hide PreparedProblem;
    RemovedSize(s.prepared, context.session);
  }

  /** The state after the first `k` steps. */
  function After(s: Shard, steps: seq<Step>, k: nat): Shard
    requires k <= |steps|
  {
    Run(s, steps[..k])
  }

  lemma AfterOne(s: Shard, steps: seq<Step>, k: nat)
    requires k < |steps|
    ensures After(s, steps, k + 1) == Next(After(s, steps, k), steps[k]) && After(s, steps, k).maxSessions == s.maxSessions
  {
    hide Next;
    assert steps[..k + 1] == steps[..k] + [steps[k]];
    RunOne(s, steps[..k], steps[k]);
    RunMax(s, steps[..k]);
  }

  lemma {:induction false} StaysWithin(s: Shard, steps: seq<Step>, k: nat)
    requires Total(s) <= s.maxSessions && k <= |steps|
    requires forall i :: 0 <= i < k ==> !EnrolsOverFull(After(s, steps, i), steps[i])
    ensures Total(After(s, steps, k)) <= s.maxSessions
  {
    hide EnrolsOverFull, Next, Total;
    if k == 0 {
      assert steps[..0] == [];
    } else {
      StaysWithin(s, steps, k - 1);
      AfterOne(s, steps, k - 1);
      hide After;
      NextMax(After(s, steps, k - 1), steps[k - 1]);
      OverfillsIff(After(s, steps, k - 1), steps[k - 1]);
    }
  }

  /** Over a whole run: active and prepared sessions fit the shard after every step exactly when no
      step of the run enrols over a full shard. */
  lemma CapacityIff(max: nat, ttl: nat, steps: seq<Step>)
    ensures var s := Start(max, ttl);
            (forall k :: 0 <= k <= |steps| ==> Total(After(s, steps, k)) <= max)
            <==> (forall k :: 0 <= k < |steps| ==> !EnrolsOverFull(After(s, steps, k), steps[k]))
  {
    var s := Start(max, ttl);
    hide EnrolsOverFull, Next, After;
    if forall k :: 0 <= k < |steps| ==> !EnrolsOverFull(After(s, steps, k), steps[k]) {
      forall k | 0 <= k <= |steps|
        ensures Total(After(s, steps, k)) <= max
      {
        StaysWithin(s, steps, k);
      }
    } else {
      var k :| 0 <= k < |steps| && EnrolsOverFull(After(s, steps, k), steps[k]);
      if Total(After(s, steps, k)) <= max {
        AfterOne(s, steps, k);
        NextMax(After(s, steps, k), steps[k]);
        OverfillsIff(After(s, steps, k), steps[k]);
        assert Total(After(s, steps, k + 1)) > max;
      }
    }
  }

  // ---------- stopping and generations ----------

  /** No session and generation is admitted twice. */
  ghost predicate AdmittedOnce(actors: seq<Actor>) {
    forall a, b :: 0 <= a < b < |actors| ==>
      actors[a].context.session != actors[b].context.session || actors[a].context.generation != actors[b].context.generation
  }

  /** Every actor still running is the one registered for its session. */
  ghost predicate RunningRegistered(sessions: map<string, Active>, actors: seq<Actor>) {
    forall a :: 0 <= a < |actors| && !actors[a].finished ==>
      actors[a].context.session in sessions && sessions[actors[a].context.session].actor == a
  }

  /** Actors are only ever added, and keep their context. */
  ghost predicate Extends(before: seq<Actor>, after: seq<Actor>) {
    |before| <= |after| && forall a :: 0 <= a < |before| ==> after[a].context == before[a].context
  }

  lemma OpenActors(s: Shard, step: Step)
    requires Opens(step)
    ensures Open(s, step).actors == s.actors
    ensures Open(s, step).sessions == s.sessions || Open(s, step).sessions == Reaped(s).sessions
  {
    hide Reaped, PreparedProblem, ActiveProblem;
    ReapedParts(s);
  }

  lemma NextExtends(s: Shard, step: Step)
    ensures Extends(s.actors, Next(s, step).actors)
  {
    hide Open, Enumerates, Reaped, PreparedProblem;
    ReapedParts(s);
    if Opens(step) {
      OpenActors(s, step);
    }
  }

  lemma {:induction false} RunExtends(s: Shard, steps: seq<Step>)
    ensures Extends(s.actors, Run(s, steps).actors)
    decreases |steps|
  {
    if steps != [] {
      hide Next;
      NextExtends(s, steps[0]);
      RunExtends(Next(s, steps[0]), steps[1..]);
    }
  }

  lemma RegisteredReaped(s: Shard)
    requires RunningRegistered(s.sessions, s.actors)
    ensures RunningRegistered(Reaped(s).sessions, s.actors)
  {
  }

  lemma RegisteredEnrolled(s: Shard, op: nat, spawns: bool)
    requires RunningRegistered(s.sessions, s.actors) && op in s.ops && s.ops[op].Admitting?
    ensures RunningRegistered(Enroll(s, op, spawns).sessions, Enroll(s, op, spawns).actors)
  {
    RegisteredReaped(s);
    ReapedParts(s);
    hide Reaped;
  }

  /** A finishing stop whose session has been admitted again, under the same generation, as an
      actor that still runs. */
  ghost predicate StopsRunning(s: Shard, step: Step) {
    && step.Proceed? && step.op in s.ops && s.ops[step.op].Stopping? && Finished(s.actors, s.ops[step.op].actor)
    && var context := s.ops[step.op].context;
    && context.session in s.sessions && s.sessions[context.session].context.generation == context.generation
    && !Finished(s.actors, s.sessions[context.session].actor)
  }

  lemma RegisteredUnregistered(s: Shard, op: nat, spawns: bool)
    requires RunningRegistered(s.sessions, s.actors) && SessionsOk(s.sessions, s.actors, s.maxSessions)
    requires op in s.ops && s.ops[op].Stopping? && Finished(s.actors, s.ops[op].actor)
    ensures RunningRegistered(Unregister(s, op, s.ops[op].context).sessions, s.actors) <==> !StopsRunning(s, Proceed(op, spawns))
  {
    var id := s.ops[op].context.session;
    if id in s.sessions {
      var other := s.sessions[id].actor;
      assert s.actors[other].context.session == id;
    }
  }

  /** If no session and generation is admitted twice, the entry a stop removes is the finished
      actor it waited for. */
  lemma AdmittedOnceStops(s: Shard, step: Step)
    requires Inv(s) && AdmittedOnce(s.actors)
    ensures !StopsRunning(s, step)
  {
    hide PreparedOk, TicketsOk, HandoffsOk, RecordsOk, OpsCredited, LeasesOk;
    if StopsRunning(s, step) {
      assert false;
    }
  }

  lemma RegisteredContinue(s: Shard, op: nat, spawns: bool)
    requires Inv(s) && RunningRegistered(s.sessions, s.actors) && op in s.ops
    ensures var t := Continue(s, op, spawns);
            RunningRegistered(t.sessions, t.actors) <==> !StopsRunning(s, Proceed(op, spawns))
  {
    hide RunningRegistered, SessionsOk, PreparedOk, TicketsOk, HandoffsOk, StopsOk, RecordsOk, OpsCredited, LeasesOk, Reaped, Enroll, PreparedProblem;
    ReapedParts(s);
    RegisteredReaped(s);
    match s.ops[op]
    case Admitting(_, _, _, _, _) => RegisteredEnrolled(s, op, spawns);
    case Stopping(context, actor) =>
      if Finished(s.actors, actor) {
        RegisteredUnregistered(s, op, spawns);
        UnregisterActors(s, op, context);
      }
    case _ =>
  }

  lemma UnregisterActors(s: Shard, op: nat, context: Context)
    ensures Unregister(s, op, context).actors == s.actors
  {
  }

  lemma RegisteredFinished(s: Shard, actor: nat)
    requires RunningRegistered(s.sessions, s.actors) && actor < |s.actors|
    ensures RunningRegistered(s.sessions, s.actors[actor := s.actors[actor].(finished := true)])
  {
  }

  /** A step unregisters a running actor exactly when it is such a stop. */
  lemma RegisteredStep(s: Shard, step: Step)
    requires Inv(s) && RunningRegistered(s.sessions, s.actors)
    ensures RunningRegistered(Next(s, step).sessions, Next(s, step).actors) <==> !StopsRunning(s, step)
  {
    hide Inv, RunningRegistered, Open, Continue, Reaped, Enumerates;
    RegisteredReaped(s);
    ReapedParts(s);
    if Opens(step) {
      OpenActors(s, step);
    } else if step.Proceed? && step.op in s.ops {
      RegisteredContinue(s, step.op, step.spawns);
    } else if step.FinishActor? && step.actor < |s.actors| {
      RegisteredFinished(s, step.actor);
    }
  }

  lemma {:induction false} RegisteredRun(s: Shard, steps: seq<Step>)
    requires Inv(s) && RunningRegistered(s.sessions, s.actors) && AdmittedOnce(Run(s, steps).actors)
    ensures var t := Run(s, steps);
            Inv(t) && RunningRegistered(t.sessions, t.actors)
    decreases |steps|
  {
    if steps != [] {
      RunExtends(s, steps);
      hide Inv, Next, RunningRegistered;
      NextInv(s, steps[0]);
      AdmittedOnceStops(s, steps[0]);
      RegisteredStep(s, steps[0]);
      RegisteredRun(Next(s, steps[0]), steps[1..]);
    }
  }

  lemma {:induction false} StaysRegistered(s: Shard, steps: seq<Step>, k: nat)
    requires Inv(s) && RunningRegistered(s.sessions, s.actors) && k <= |steps|
    requires forall i :: 0 <= i < k ==> !StopsRunning(After(s, steps, i), steps[i])
    ensures RunningRegistered(After(s, steps, k).sessions, After(s, steps, k).actors)
  {
    hide StopsRunning, Next, Inv, RunningRegistered;
    if k == 0 {
      assert steps[..0] == [];
    } else {
      StaysRegistered(s, steps, k - 1);
      AfterOne(s, steps, k - 1);
      RunInv(s, steps[..k - 1]);
      RegisteredStep(After(s, steps, k - 1), steps[k - 1]);
    }
  }

  /** Over a whole run: every running actor stays registered exactly when no stop of the run
      finishes while its session runs again under the same generation. */
  lemma RunningRegisteredIff(max: nat, ttl: nat, steps: seq<Step>)
    ensures var s := Start(max, ttl);
            (forall k :: 0 <= k <= |steps| ==> RunningRegistered(After(s, steps, k).sessions, After(s, steps, k).actors))
            <==> (forall k :: 0 <= k < |steps| ==> !StopsRunning(After(s, steps, k), steps[k]))
  {
    var s := Start(max, ttl);
    assert RunningRegistered(s.sessions, s.actors);
    Reachable(max, ttl, []);
    RunNone(s);
    hide StopsRunning, Next, After, Inv, RunningRegistered;
    if forall k :: 0 <= k < |steps| ==> !StopsRunning(After(s, steps, k), steps[k]) {
      forall k | 0 <= k <= |steps|
        ensures RunningRegistered(After(s, steps, k).sessions, After(s, steps, k).actors)
      {
        StaysRegistered(s, steps, k);
      }
    } else {
      var k :| 0 <= k < |steps| && StopsRunning(After(s, steps, k), steps[k]);
      StopBreaks(s, steps, k);
    }
  }

  lemma StopBreaks(s: Shard, steps: seq<Step>, k: nat)
    requires Inv(s) && k < |steps| && StopsRunning(After(s, steps, k), steps[k])
    ensures !(RunningRegistered(After(s, steps, k).sessions, After(s, steps, k).actors)
              && RunningRegistered(After(s, steps, k + 1).sessions, After(s, steps, k + 1).actors))
  {
    hide StopsRunning, Next, Inv, RunningRegistered;
    AfterOne(s, steps, k);
    RunInv(s, steps[..k]);
    if RunningRegistered(After(s, steps, k).sessions, After(s, steps, k).actors) {
      RegisteredStep(After(s, steps, k), steps[k]);
    }
  }

  function Unfinished(actors: seq<Actor>): set<nat> {
    set a | 0 <= a < |actors| && !actors[a].finished
  }

  lemma {:induction false} RegisteredSize(unfinished: set<nat>, sessions: map<string, Active>, ids: map<nat, string>)
    requires forall a :: a in unfinished ==> a in ids && ids[a] in sessions && sessions[ids[a]].actor == a
    ensures |unfinished| <= |sessions|
    decreases |unfinished|
  {
    if a :| a in unfinished {
      RegisteredSize(unfinished - {a}, sessions - {ids[a]}, ids);
      RemovedSize(sessions, ids[a]);
    }
  }

  /** If no session and generation is admitted twice, no actor is unregistered while it runs, so
      the actors running never outnumber the shard. */
  lemma RunningActorsBounded(max: nat, ttl: nat, steps: seq<Step>)
    requires AdmittedOnce(Run(Start(max, ttl), steps).actors)
    ensures var s := Run(Start(max, ttl), steps);
            RunningRegistered(s.sessions, s.actors) && |Unfinished(s.actors)| <= max
  {
    hide Run, AdmittedOnce, TicketsOk, HandoffsOk, StopsOk, RecordsOk, OpsCredited, LeasesOk;
    Reachable(max, ttl, []);
    assert Start(max, ttl) == Run(Start(max, ttl), []) by {
      RunNone(Start(max, ttl));
    }
    RegisteredRun(Start(max, ttl), steps);
    Reachable(max, ttl, steps);
    var s := Run(Start(max, ttl), steps);
    var ids := map a | a in Unfinished(s.actors) :: s.actors[a].context.session;
    RegisteredSize(Unfinished(s.actors), s.sessions, ids);
  }

  /** Exactly when a stop unregisters a running actor: its session was admitted again under the
      same generation, as another actor than the one the stop waited for. */
  lemma StopUnregistersIff(max: nat, ttl: nat, steps: seq<Step>, op: nat, id: string)
    requires var s := Run(Start(max, ttl), steps);
             op in s.ops && s.ops[op].Stopping? && Finished(s.actors, s.ops[op].actor) && id in s.sessions
             && !Finished(s.actors, s.sessions[id].actor)
    ensures var s := Run(Start(max, ttl), steps);
            var waited := s.ops[op].actor;
            && waited != s.sessions[id].actor
            && (id !in Next(s, Proceed(op, false)).sessions <==>
                  && s.sessions[id].context.session == s.actors[waited].context.session
                  && s.sessions[id].context.generation == s.actors[waited].context.generation)
  {
    Reachable(max, ttl, steps);
    hide Run, PreparedOk, TicketsOk, HandoffsOk, RecordsOk, OpsCredited, LeasesOk;
  }

  // ---------- draining ----------

  /** A drain accounts for every actor it asked to stop, and forces exactly those that outlast the
      grace period. If no session and generation was admitted twice, it aborts actors exactly when
      one of those it asked is still running. */
  lemma DrainAccounts(max: nat, ttl: nat, steps: seq<Step>, grace: seq<Step>, force: seq<Step>)
    ensures var stopping := Run(Start(max, ttl), steps);
            var late := Run(stopping, grace);
            var last := Run(late, force);
            var report, handles := ReportOf(stopping, late, last), Handles(stopping);
            && report.graceful + report.forced == |handles|
            && (report.forced == 0 <==> Remaining(handles, late.actors) == {})
            && (AdmittedOnce(last.actors) && report.forced > 0 ==> (report.aborted == 0 <==> Remaining(handles, last.actors) == {}))
  {
    hide Run, AdmittedOnce, ReportOf;
    var stopping := Run(Start(max, ttl), steps);
    var late := Run(stopping, grace);
    var last := Run(late, force);
    ReportParts(stopping, late, last);
    if AdmittedOnce(last.actors) {
      RunMore(Start(max, ttl), steps, grace);
      RunMore(Start(max, ttl), steps + grace, force);
      RunningActorsBounded(max, ttl, steps + grace + force);
      Reachable(max, ttl, steps);
      RunExtends(stopping, grace);
      RunExtends(late, force);
      RemainingRegistered(stopping, last);
    }
  }

  lemma ReportParts(stopping: Shard, late: Shard, last: Shard)
    ensures var report, handles := ReportOf(stopping, late, last), Handles(stopping);
            && report.graceful + report.forced == |handles|
            && (report.forced == 0 <==> Remaining(handles, late.actors) == {})
            && (report.forced > 0 ==> report.aborted == if Remaining(handles, last.actors) == {} then 0 else |Handles(last)|)
  {
    SubsetSize(Remaining(Handles(stopping), late.actors), Handles(stopping).Keys);
  }

  /** A handle still running is registered, so it is among those aborted. */
  lemma RemainingRegistered(stopping: Shard, last: Shard)
    requires Inv(stopping) && Extends(stopping.actors, last.actors) && RunningRegistered(last.sessions, last.actors)
    ensures Remaining(Handles(stopping), last.actors) != {} ==> |Handles(last)| > 0
  {
    hide TicketsOk, HandoffsOk, StopsOk, RecordsOk, OpsCredited, LeasesOk, PreparedOk;
    if id :| id in Remaining(Handles(stopping), last.actors) {
      var actor := Handles(stopping)[id];
      assert last.actors[actor].context.session in Handles(last);
    }
  }

  // ---------- the conditions are needed ----------

  function Snapshot(c: Context): Preparation {
    Preparation(c, 7, 9, true)
  }

  /** Prepare a session, using operation `op`. */
  function Prepares(s: Shard, op: nat, c: Context): Shard {
    Next(Next(s, Prepare(op, Snapshot(c))), Proceed(op, true))
  }

  lemma PreparesOne(s: Shard, op: nat, c: Context)
    requires s.accepting && op !in s.ops && |Reaped(s).sessions| + |s.prepared| < s.maxSessions
    requires c.session !in Reaped(s).sessions && c.session !in s.prepared
    ensures Prepares(s, op, c) == s.(sessions := Reaped(s).sessions, ops := s.ops[op := Done(Created(s.created))], created := s.created + 1,
                                     preparations := s.preparations + [Reservation(c, 7, 9, s.now + s.ttl)],
                                     prepared := s.prepared[c.session := Prepared(c, 7, 9, s.now + s.ttl, s.created)])
  {
    var begun := Next(s, Prepare(op, Snapshot(c)));
    assert begun == s.(ops := s.ops[op := Preparing(Snapshot(c))]);
    assert Reaped(begun).sessions == Reaped(s).sessions;
    hide Reaped;
    ReapedParts(begun);
    assert s.ops[op := Preparing(Snapshot(c))][op := Done(Created(s.created))] == s.ops[op := Done(Created(s.created))];
  }

  /** Finish admitting the session that operation `op` is handing over. */
  function Enrols(s: Shard, op: nat): Shard {
    Next(Next(s, Proceed(op, true)), Proceed(op, true))
  }

  lemma EnrolsOne(s: Shard, op: nat, c: Context)
    requires s.accepting && op in s.ops && s.ops[op].Admitting? && !s.ops[op].checked && s.ops[op].context == c
    requires |Reaped(s).sessions| < s.maxSessions && c.session !in Reaped(s).sessions
    ensures var t := Enrols(s, op);
            && t.sessions == Reaped(s).sessions[c.session := Active(|s.actors|, c, s.ops[op].fingerprint, s.ops[op].attachment)]
            && t.actors == s.actors + [Actor(c, false)] && t.prepared == s.prepared && t.maxSessions == s.maxSessions
            && t.ops == s.ops[op := Done(Leased(|s.actors|))]
  {
    var checked := Next(s, Proceed(op, true));
    assert checked == s.(ops := s.ops[op := s.ops[op].(checked := true)]);
    assert Reaped(checked).sessions == Reaped(s).sessions;
    hide Reaped;
    ReapedParts(checked);
    assert checked.ops[op := Done(Leased(|s.actors|))] == s.ops[op := Done(Leased(|s.actors|))];
  }

  lemma AttachesOne(s: Shard, op: nat, c: Context)
    requires op !in s.ops && c.session in s.prepared && s.prepared[c.session].context == c
    requires s.prepared[c.session].attachment == 9 && s.now < s.prepared[c.session].expiresAt
    ensures var p := s.prepared[c.session];
            Next(s, Attach(op, c, 9)) == s.(prepared := s.prepared - {c.session}, departures := s.departures + [Departure(p.ticket, ByAttach(s.now, c, 9))],
                                            ops := s.ops[op := Admitting(Some(p.ticket), c, Some(p.fingerprint), Some(9), false)])
  {
  }

  /** A reservation between the two sections of an attach overfills a shard of one session. */
  lemma OverlappingHandoffOverfills(a: Context, b: Context)
    requires a.session != b.session
    ensures var handing := Next(Prepares(Start(1, 5), 0, a), Attach(1, a, 9));
            var s := Enrols(Prepares(handing, 2, b), 1);
            Total(s) == 2 && s.maxSessions == 1
  {
    hide Prepares, Enrols, Next;
    PreparesOne(Start(1, 5), 0, a);
    var first := Prepares(Start(1, 5), 0, a);
    AttachesOne(first, 1, a);
    var handing := Next(first, Attach(1, a, 9));
    assert handing.prepared == map[] && handing.sessions == map[];
    PreparesOne(handing, 2, b);
    EnrolsOne(Prepares(handing, 2, b), 1, a);
  }

  /** A direct admission beside a reservation overfills it too. */
  lemma DirectAdmissionOverfills(a: Context, b: Context)
    requires a.session != b.session
    ensures var s := Enrols(Next(Prepares(Start(1, 5), 0, a), AdmitDirect(1, b)), 1);
            Total(s) == 2 && s.maxSessions == 1
  {
    hide Prepares, Enrols;
    PreparesOne(Start(1, 5), 0, a);
    EnrolsOne(Next(Prepares(Start(1, 5), 0, a), AdmitDirect(1, b)), 1, b);
  }

  function Admits(s: Shard, op: nat, next: nat, c: Context): Shard {
    Enrols(Next(Prepares(s, op, c), Attach(next, c, 9)), next)
  }

  /** A session admitted again under the same generation while a stop of its first actor is still
      waiting: the stop unregisters the second actor, which keeps running. */
  lemma ReadmittedGenerationUnregistered(c: Context)
    ensures var stopping := Next(Next(Admits(Start(1, 5), 0, 1, c), Stop(2, c, 9)), FinishActor(0));
            var second := Admits(stopping, 3, 4, c);
            var s := Next(second, Proceed(2, false));
            && second.sessions == map[c.session := Active(1, c, Some(7), Some(9))] && s.sessions == map[]
            && s.actors == [Actor(c, true), Actor(c, false)]
  {
    hide Admits, Next;
    AdmitCycle(Start(1, 5), 0, 1, c);
    var first := Admits(Start(1, 5), 0, 1, c);
    StopFirst(first, c);
    var stopping := Next(Next(first, Stop(2, c, 9)), FinishActor(0));
    AdmitCycle(stopping, 3, 4, c);
    StopSecond(Admits(stopping, 3, 4, c), c);
  }

  lemma StopSecond(second: Shard, c: Context)
    requires 2 in second.ops && second.ops[2] == Stopping(c, 0) && second.actors == [Actor(c, true), Actor(c, false)]
    requires second.sessions == map[c.session := Active(1, c, Some(7), Some(9))]
    ensures Next(second, Proceed(2, false)).sessions == map[] && Next(second, Proceed(2, false)).actors == second.actors
  {
  }

  lemma StopFirst(first: Shard, c: Context)
    requires 2 !in first.ops && first.actors == [Actor(c, false)] && first.sessions == map[c.session := Active(0, c, Some(7), Some(9))]
    ensures var t := Next(Next(first, Stop(2, c, 9)), FinishActor(0));
            && t == first.(ops := first.ops[2 := Stopping(c, 0)], actors := [Actor(c, true)])
            && Reaped(t).sessions == map[]
  {
    assert Reaped(first).sessions == first.sessions;
    assert Next(first, Stop(2, c, 9)) == first.(ops := first.ops[2 := Stopping(c, 0)]);
  }

  lemma AdmitCycle(s: Shard, op: nat, next: nat, c: Context)
    requires s.accepting && s.maxSessions == 1 && s.ttl == 5 && Reaped(s).sessions == map[] && s.prepared == map[]
    requires op !in s.ops && next !in s.ops && op != next
    ensures var t := Admits(s, op, next, c);
            && t.sessions == map[c.session := Active(|s.actors|, c, Some(7), Some(9))]
            && t.actors == s.actors + [Actor(c, false)] && t.prepared == map[] && t.maxSessions == 1
            && t.ops == s.ops[op := Done(Created(s.created))][next := Done(Leased(|s.actors|))]
            && t.accepting && t.ttl == 5
  {
    PreparesOne(s, op, c);
    var prepared := Prepares(s, op, c);
    AttachesOne(prepared, next, c);
    var handing := Next(prepared, Attach(next, c, 9));
    assert handing.prepared == map[];
    assert Reaped(handing).sessions == map[];
    EnrolsOne(handing, next, c);
    EnrolsKeeps(handing, next);
    hide Prepares, Enrols, Next;
  }

  lemma EnrolsKeeps(s: Shard, op: nat)
    requires op in s.ops && s.ops[op].Admitting?
    ensures Enrols(s, op).accepting == s.accepting && Enrols(s, op).ttl == s.ttl
  {
    hide Reaped;
    ReapedParts(s);
    ReapedParts(Next(s, Proceed(op, true)));
  }
}
