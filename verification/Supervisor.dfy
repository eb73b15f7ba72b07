/** The shard supervisor as a step machine: prepared and active registries with generation
    fencing. Each lock-held section is one step; operations that take several sections, and the
    actors and timers, interleave in any order. */
module Supervisor {
  import opened Common

  /** `tenant` stands for organization, project and deployment together. */
  datatype Context = Context(session: string, generation: nat, tenant: string)

  /** `sound` says that the snapshot validates and its providers resolve. */
  datatype Preparation = Preparation(context: Context, fingerprint: nat, attachment: nat, sound: bool)

  datatype Prepared = Prepared(context: Context, fingerprint: nat, attachment: nat, expiresAt: nat, ticket: nat)

  datatype Active = Active(actor: nat, context: Context, fingerprint: Option<nat>, attachment: Option<nat>)

  datatype Actor = Actor(context: Context, finished: bool)

  datatype ShardError = Draining | Unsound | SessionConflict | AtCapacity | NotPrepared | Expired | GenerationMismatch
                      | TenantMismatch | BindingMismatch | SpawnFailed | DidNotStop

  datatype Reply = Created(ticket: nat) | Existing | Leased(actor: nat) | Stopped | Refused(error: ShardError)

  /** How far an operation has come. */
  datatype Op =
    | Preparing(preparation: Preparation)
    | Admitting(ticket: Option<nat>, context: Context, fingerprint: Option<nat>, attachment: Option<nat>, checked: bool)
    | Stopping(context: Context, actor: nat)
    | Unpreparing(context: Context, binding: nat)
    | Done(reply: Reply)

  /** What a preparation was created with, and until when it may be attached. */
  datatype Reservation = Reservation(context: Context, fingerprint: nat, attachment: nat, expiresAt: nat)

  /** Why a preparation left the registry: the request that took it and when, or its timer and when. */
  datatype Reason =
    | ByAttach(at: nat, context: Context, binding: nat)
    | ByStop(at: nat, context: Context, binding: nat)
    | ByExpiry(at: nat, fingerprint: nat)
    | ByDrain

  datatype Departure = Departure(ticket: nat, reason: Reason)

  datatype Lease = Lease(ticket: Option<nat>, actor: nat)

  datatype Shard = Shard(
    maxSessions: nat,
    ttl: nat,
    now: nat,
    accepting: bool,
    sessions: map<string, Active>,
    prepared: map<string, Prepared>,
    actors: seq<Actor>,             // every actor ever spawned
    ops: map<nat, Op>,
    // logs
    created: nat,                   // preparations answered Created, numbered from zero
    preparations: seq<Reservation>, // and what each of them was
    departures: seq<Departure>,     // preparations that left the registry
    leases: seq<Lease>)

  function Start(maxSessions: nat, ttl: nat): Shard {
    Shard(maxSessions, ttl, 0, true, map[], map[], [], map[], 0, [], [], [])
  }

  // ---------- the lock-held sections ----------

  predicate Finished(actors: seq<Actor>, actor: nat) {
    actor < |actors| && actors[actor].finished
  }

  /** Reap finished actors (`retain`). */
  function Reaped(s: Shard): Shard {
    s.(sessions := map k | k in s.sessions && !Finished(s.actors, s.sessions[k].actor) :: s.sessions[k])
  }

  function Settle(s: Shard, op: nat, reply: Reply): Shard {
    s.(ops := s.ops[op := Done(reply)])
  }

  function PreparedProblem(p: Prepared, now: nat, context: Context, binding: nat): Option<ShardError> {
    if p.expiresAt <= now then Some(Expired)
    else if p.context.generation != context.generation then Some(GenerationMismatch)
    else if p.context.tenant != context.tenant then Some(TenantMismatch)
    else if p.attachment != binding then Some(BindingMismatch)
    else None
  }

  function ActiveProblem(a: Active, context: Context, binding: nat): Option<ShardError> {
    if a.context.generation != context.generation then Some(GenerationMismatch)
    else if a.context.tenant != context.tenant then Some(TenantMismatch)
    else if a.attachment != Some(binding) then Some(BindingMismatch)
    else None
  }

  /** `prepare`, once both registries are locked. */
  function Reserve(s: Shard, op: nat, p: Preparation): Shard {
    var r := Reaped(s);
    var id := p.context.session;
    if id in r.sessions then
      var a := r.sessions[id];
      Settle(r, op, if a.fingerprint == Some(p.fingerprint) && a.context.generation == p.context.generation then Existing
                    else Refused(SessionConflict))
    else if id in r.prepared then
      var e := r.prepared[id];
      Settle(r, op, if e.fingerprint == p.fingerprint && e.context.generation == p.context.generation then Existing
                    else Refused(SessionConflict))
    else if |r.sessions| + |r.prepared| >= r.maxSessions then Settle(r, op, Refused(AtCapacity))
    else
      Settle(r, op, Created(r.created))
      .(prepared := r.prepared[id := Prepared(p.context, p.fingerprint, p.attachment, r.now + r.ttl, r.created)],
        created := r.created + 1,
        preparations := r.preparations + [Reservation(p.context, p.fingerprint, p.attachment, r.now + r.ttl)])
  }

  function Depart(s: Shard, id: string, reason: Reason): Shard
    requires id in s.prepared
  {
    s.(prepared := s.prepared - {id}, departures := s.departures + [Departure(s.prepared[id].ticket, reason)])
  }

  /** `attach_prepared`, its first section: the preparation is consumed. */
  function Consume(s: Shard, op: nat, context: Context, binding: nat): Shard {
    var id := context.session;
    if id !in s.prepared then Settle(s, op, Refused(NotPrepared))
    else
      var p := s.prepared[id];
      var problem := PreparedProblem(p, s.now, context, binding);
      if problem.Some? then Settle(s, op, Refused(problem.value))
      else Depart(s, id, ByAttach(s.now, context, binding)).(ops := s.ops[op := Admitting(Some(p.ticket), context, Some(p.fingerprint), Some(p.attachment), false)])
  }

  /** `admit_internal`, its locked section. */
  function Enroll(s: Shard, op: nat, spawns: bool): Shard
    requires op in s.ops && s.ops[op].Admitting?
  {
    var r := Reaped(s);
    var o := s.ops[op];
    var id := o.context.session;
    if id in r.sessions then Settle(r, op, Refused(SessionConflict))
    else if |r.sessions| >= r.maxSessions then Settle(r, op, Refused(AtCapacity))
    else if !spawns then Settle(r, op, Refused(SpawnFailed))
    else
      var actor := |r.actors|;
      Settle(r, op, Leased(actor))
      .(actors := r.actors + [Actor(o.context, false)], leases := r.leases + [Lease(o.ticket, actor)],
        sessions := r.sessions[id := Active(actor, o.context, o.fingerprint, o.attachment)])
  }

  /** `stop_session`, its first section. */
  function Locate(s: Shard, op: nat, context: Context, binding: nat): Shard {
    var r := Reaped(s);
    if context.session in r.sessions then
      var a := r.sessions[context.session];
      var problem := ActiveProblem(a, context, binding);
      if problem.Some? then Settle(r, op, Refused(problem.value))
      else r.(ops := r.ops[op := Stopping(context, a.actor)])
    else r.(ops := r.ops[op := Unpreparing(context, binding)])
  }

  /** `stop_session`, when there was no active entry. */
  function Unprepare(s: Shard, op: nat, context: Context, binding: nat): Shard {
    var id := context.session;
    if id in s.prepared then
      var problem := PreparedProblem(s.prepared[id], s.now, context, binding);
      if problem.Some? then Settle(s, op, Refused(problem.value)) else Settle(Depart(s, id, ByStop(s.now, context, binding)), op, Stopped)
    else Settle(s, op, Stopped)
  }

  /** `stop_session`, after its actor finished: drop the entry of that generation. */
  function Unregister(s: Shard, op: nat, context: Context): Shard {
    var id := context.session;
    Settle(if id in s.sessions && s.sessions[id].context.generation == context.generation then
             s.(sessions := s.sessions - {id})
           else s,
           op, Stopped)
  }

  predicate Enumerates(order: seq<string>, prepared: map<string, Prepared>) {
    Distinct(order) && (forall id :: id in order ==> id in prepared) && (forall id :: id in prepared ==> id in order)
  }

  function DrainAll(s: Shard, order: seq<string>): Shard
    requires Enumerates(order, s.prepared)
  {
    s.(prepared := map[],
       departures := s.departures
                     + seq(|order|, i requires 0 <= i < |order| => assert order[i] in order; Departure(s.prepared[order[i]].ticket, ByDrain)))
  }

  datatype Step =
    | Prepare(op: nat, preparation: Preparation)
    | Attach(op: nat, context: Context, binding: nat)
    | AdmitDirect(op: nat, context: Context)
    | Stop(op: nat, context: Context, binding: nat)
    | Proceed(op: nat, spawns: bool)          // the operation's next section
    | GiveUp(op: nat)                         // a stop whose actor does not finish
    | Expire(session: string, fingerprint: nat)
    | FinishActor(actor: nat)
    | Reap
    | Tick(elapsed: nat)
    | BeginDraining
    | DrainPrepared(order: seq<string>)

  predicate Opens(step: Step) {
    step.Prepare? || step.Attach? || step.AdmitDirect? || step.Stop?
  }

  function Open(s: Shard, step: Step): Shard
    requires Opens(step)
  {
    match step
    case Prepare(op, p) =>
      if !s.accepting then Settle(s, op, Refused(Draining))
      else if !p.sound then Settle(s, op, Refused(Unsound))
      else s.(ops := s.ops[op := Preparing(p)])
    case Attach(op, context, binding) => Consume(s, op, context, binding)
    case AdmitDirect(op, context) => s.(ops := s.ops[op := Admitting(None, context, None, None, false)])
    case Stop(op, context, binding) => Locate(s, op, context, binding)
  }

  function Continue(s: Shard, op: nat, spawns: bool): Shard
    requires op in s.ops
  {
    match s.ops[op]
    case Preparing(p) => Reserve(s, op, p)
    case Admitting(_, _, _, _, checked) =>
      if checked then Enroll(s, op, spawns)
      else if s.accepting then s.(ops := s.ops[op := s.ops[op].(checked := true)])
      else Settle(s, op, Refused(Draining))
    case Stopping(context, actor) => if Finished(s.actors, actor) then Unregister(s, op, context) else s
    case Unpreparing(context, binding) => Unprepare(s, op, context, binding)
    case Done(_) => s
  }

  /** A step that is not enabled changes nothing. */
  function Next(s: Shard, step: Step): Shard {
    if Opens(step) then if step.op in s.ops then s else Open(s, step)
    else match step
      case Proceed(op, spawns) => if op in s.ops then Continue(s, op, spawns) else s
      case GiveUp(op) => if op in s.ops && s.ops[op].Stopping? then Settle(s, op, Refused(DidNotStop)) else s
      case Expire(id, fingerprint) =>
        if id in s.prepared && s.prepared[id].fingerprint == fingerprint && s.prepared[id].expiresAt <= s.now then
          Depart(s, id, ByExpiry(s.now, fingerprint))
        else s
      case FinishActor(actor) =>
        if actor < |s.actors| then s.(actors := s.actors[actor := s.actors[actor].(finished := true)]) else s
      case Reap => Reaped(s)
      case Tick(elapsed) => s.(now := s.now + elapsed)
      case BeginDraining => s.(accepting := false)
      case DrainPrepared(order) => if Enumerates(order, s.prepared) then DrainAll(s, order) else s
      case _ => s
  }

  function Run(s: Shard, steps: seq<Step>): Shard
    decreases |steps|
  {
    if steps == [] then s else Run(Next(s, steps[0]), steps[1..])
  }

  // ---------- draining ----------

  datatype DrainReport = DrainReport(graceful: nat, forced: nat, aborted: nat)

  /** The registered actors still running. */
  function Handles(s: Shard): map<string, nat> {
    map id | id in s.sessions && !Finished(s.actors, s.sessions[id].actor) :: s.sessions[id].actor
  }

  /** Those of them that have not finished. */
  function Remaining(handles: map<string, nat>, actors: seq<Actor>): set<string> {
    set id | id in handles && !Finished(actors, handles[id])
  }

  /** What a drain reports, from the states in which it asked the actors to stop, in which its grace
      period ended, and in which it ended itself. */
  function ReportOf(stopping: Shard, late: Shard, last: Shard): DrainReport {
    var handles := Handles(stopping);
    var forced := Remaining(handles, late.actors);
    if forced == {} then DrainReport(|handles|, 0, 0)
    else
      DrainReport(if |forced| <= |handles| then |handles| - |forced| else 0, |forced|,
                  if Remaining(handles, last.actors) == {} then 0 else |Handles(last)|)
  }

  lemma RunNone(s: Shard)
    ensures Run(s, []) == s
  {
  }

  lemma {:induction false} RunMore(s: Shard, trace: seq<Step>, more: seq<Step>)
    ensures Run(s, trace + more) == Run(Run(s, trace), more)
    decreases |trace|
  {
    hide Next;
    if trace == [] {
      assert trace + more == more;
    } else {
      assert (trace + more)[0] == trace[0] && (trace + more)[1..] == trace[1..] + more;
      RunMore(Next(s, trace[0]), trace[1..], more);
    }
  }

  lemma RunOne(s: Shard, trace: seq<Step>, a: Step)
    ensures Run(s, trace + [a]) == Next(Run(s, trace), a)
  {
    RunMore(s, trace, [a]);
    hide Next;
    assert [a][1..] == [];
    assert Run(Next(Run(s, trace), a), []) == Next(Run(s, trace), a);
  }

  lemma RunFirst(s: Shard, a: Step)
    ensures Run(s, [a]) == Next(s, a)
  {
    RunOne(s, [], a);
    assert [] + [a] == [a];
  }

  // ---------- the parts of the invariant ----------

  /** Each registered actor is filed under its own session; at most `max` are. */
  ghost predicate SessionsOk(sessions: map<string, Active>, actors: seq<Actor>, max: nat) {
    && |sessions| <= max
    && (forall id :: id in sessions ==>
          && sessions[id].context.session == id && sessions[id].actor < |actors|
          && actors[sessions[id].actor].context == sessions[id].context)
  }

  predicate Departed(departures: seq<Departure>, ticket: nat) {
    exists i :: 0 <= i < |departures| && departures[i].ticket == ticket
  }

  ghost predicate Holds(prepared: map<string, Prepared>, ticket: nat) {
    exists id :: id in prepared && prepared[id].ticket == ticket
  }

  /** Every preparation ever created is in the registry, or has left it exactly once. */
  ghost predicate TicketsOk(prepared: map<string, Prepared>, created: nat, departures: seq<Departure>) {
    && (forall id :: id in prepared ==> prepared[id].ticket < created && !Departed(departures, prepared[id].ticket))
    && (forall a, b :: a in prepared && b in prepared && a != b ==> prepared[a].ticket != prepared[b].ticket)
    && (forall i, j :: 0 <= i < j < |departures| ==> departures[i].ticket != departures[j].ticket)
    && (forall i :: 0 <= i < |departures| ==> departures[i].ticket < created)
    && (forall ticket: nat :: ticket < created ==> Departed(departures, ticket) || Holds(prepared, ticket))
  }

  ghost predicate PreparedOk(prepared: map<string, Prepared>, max: nat) {
    |prepared| <= max && forall id :: id in prepared ==> prepared[id].context.session == id
  }

  /** Left the registry by being attached. */
  predicate Taken(departures: seq<Departure>, ticket: nat) {
    exists i :: 0 <= i < |departures| && departures[i].ticket == ticket && departures[i].reason.ByAttach?
  }

  predicate LeasedTo(leases: seq<Lease>, ticket: nat) {
    exists i :: 0 <= i < |leases| && leases[i].ticket == Some(ticket)
  }

  predicate Carries(o: Op, ticket: nat) {
    o.Admitting? && o.ticket == Some(ticket)
  }

  /** A departed preparation is carried by at most one operation or lease. */
  ghost predicate HandoffsOk(ops: map<nat, Op>, departures: seq<Departure>, leases: seq<Lease>) {
    && (forall o, ticket: nat :: o in ops && Carries(ops[o], ticket) ==> Taken(departures, ticket) && !LeasedTo(leases, ticket))
    && (forall a, b, ticket: nat :: a in ops && b in ops && Carries(ops[a], ticket) && Carries(ops[b], ticket) ==> a == b)
    && (forall i, j :: 0 <= i < j < |leases| && leases[i].ticket.Some? ==> leases[i].ticket != leases[j].ticket)
    && (forall i :: 0 <= i < |leases| && leases[i].ticket.Some? ==> Taken(departures, leases[i].ticket.value))
  }

  /** A stop remembers an actor of the session and generation it was asked to stop. */
  ghost predicate StopsOk(ops: map<nat, Op>, actors: seq<Actor>) {
    forall o :: o in ops && ops[o].Stopping? ==>
      && ops[o].actor < |actors| && actors[ops[o].actor].context.session == ops[o].context.session
      && actors[ops[o].actor].context.generation == ops[o].context.generation
  }

  /** A request or a timer was entitled to take a preparation. */
  predicate Entitled(reason: Reason, r: Reservation) {
    match reason
    case ByAttach(at, context, binding) => context == r.context && binding == r.attachment && at < r.expiresAt
    case ByStop(at, context, binding) => context == r.context && binding == r.attachment && at < r.expiresAt
    case ByExpiry(at, fingerprint) => fingerprint == r.fingerprint && at >= r.expiresAt
    case ByDrain => true
  }

  /** The registry holds what was reserved, and only the entitled took anything out. */
  ghost predicate RecordsOk(prepared: map<string, Prepared>, created: nat, preparations: seq<Reservation>, departures: seq<Departure>) {
    && |preparations| == created
    && (forall id :: id in prepared && prepared[id].ticket < created ==>
          var p := prepared[id];
          preparations[p.ticket] == Reservation(p.context, p.fingerprint, p.attachment, p.expiresAt))
    && (forall i :: 0 <= i < |departures| && departures[i].ticket < created ==>
          Entitled(departures[i].reason, preparations[departures[i].ticket]))
  }

  /** Credentials are those of a preparation, or there are none. */
  ghost predicate Credited(ticket: Option<nat>, context: Context, fingerprint: Option<nat>, attachment: Option<nat>, preparations: seq<Reservation>) {
    if ticket.None? then fingerprint.None? && attachment.None?
    else
      && ticket.value < |preparations|
      && var r := preparations[ticket.value];
      context == r.context && fingerprint == Some(r.fingerprint) && attachment == Some(r.attachment)
  }

  ghost predicate OpsCredited(ops: map<nat, Op>, preparations: seq<Reservation>) {
    forall o :: o in ops && ops[o].Admitting? ==>
      Credited(ops[o].ticket, ops[o].context, ops[o].fingerprint, ops[o].attachment, preparations)
  }

  /** Actor `a` runs under lease `a`; registered entries carry the credentials of that lease. */
  ghost predicate LeasesOk(sessions: map<string, Active>, actors: seq<Actor>, leases: seq<Lease>, preparations: seq<Reservation>) {
    && |leases| == |actors|
    && (forall a :: 0 <= a < |leases| ==>
          && leases[a].actor == a
          && (leases[a].ticket.Some? ==>
                leases[a].ticket.value < |preparations| && actors[a].context == preparations[leases[a].ticket.value].context))
    && (forall id :: id in sessions && sessions[id].actor < |leases| ==>
          Credited(leases[sessions[id].actor].ticket, sessions[id].context, sessions[id].fingerprint, sessions[id].attachment, preparations))
  }

  ghost predicate Inv(s: Shard) {
    && SessionsOk(s.sessions, s.actors, s.maxSessions) && PreparedOk(s.prepared, s.maxSessions)
    && TicketsOk(s.prepared, s.created, s.departures) && HandoffsOk(s.ops, s.departures, s.leases) && StopsOk(s.ops, s.actors)
    && RecordsOk(s.prepared, s.created, s.preparations, s.departures) && OpsCredited(s.ops, s.preparations)
    && LeasesOk(s.sessions, s.actors, s.leases, s.preparations)
  }

  // ---------- sessions ----------

  lemma RemovedSize<V>(m: map<string, V>, id: string)
    ensures |m - {id}| == if id in m then |m| - 1 else |m|
  {
    assert (m - {id}).Keys == m.Keys - {id};
  }

  lemma SessionsReaped(s: Shard)
    requires SessionsOk(s.sessions, s.actors, s.maxSessions)
    ensures SessionsOk(Reaped(s).sessions, s.actors, s.maxSessions) && |Reaped(s).sessions| <= |s.sessions|
  {
    SubsetSize(Reaped(s).sessions.Keys, s.sessions.Keys);
  }

  lemma SessionsEnrolled(sessions: map<string, Active>, actors: seq<Actor>, max: nat, a: Active)
    requires SessionsOk(sessions, actors, max) && |sessions| < max && a.actor == |actors|
    ensures SessionsOk(sessions[a.context.session := a], actors + [Actor(a.context, false)], max)
  {
  }

  lemma SessionsDropped(sessions: map<string, Active>, actors: seq<Actor>, max: nat, id: string)
    requires SessionsOk(sessions, actors, max)
    ensures SessionsOk(sessions - {id}, actors, max)
  {
    RemovedSize(sessions, id);
  }

  // ---------- preparations ----------

  lemma DepartedOne(departures: seq<Departure>, d: Departure, ticket: nat)
    ensures Departed(departures + [d], ticket) <==> Departed(departures, ticket) || d.ticket == ticket
  {
    assert (departures + [d])[|departures|] == d;
    assert forall i :: 0 <= i < |departures| ==> (departures + [d])[i] == departures[i];
  }

  lemma TicketsCreated(prepared: map<string, Prepared>, created: nat, departures: seq<Departure>, id: string, p: Prepared)
    requires TicketsOk(prepared, created, departures) && id !in prepared && p.ticket == created
    ensures TicketsOk(prepared[id := p], created + 1, departures)
  {
    var grown := prepared[id := p];
    forall ticket: nat | ticket < created + 1
      ensures Departed(departures, ticket) || Holds(grown, ticket)
    {
      if ticket == created {
        assert grown[id].ticket == ticket;
      } else if !Departed(departures, ticket) {
        assert Holds(prepared, ticket);
        var other :| other in prepared && prepared[other].ticket == ticket;
        assert grown[other].ticket == ticket;
      }
    }
    assert !Departed(departures, created);
  }

  lemma TicketsDeparted(prepared: map<string, Prepared>, created: nat, departures: seq<Departure>, id: string, reason: Reason)
    requires TicketsOk(prepared, created, departures) && id in prepared
    ensures TicketsOk(prepared - {id}, created, departures + [Departure(prepared[id].ticket, reason)])
  {
    var d := Departure(prepared[id].ticket, reason);
    var left := prepared - {id};
    forall ticket: nat | ticket < created
      ensures Departed(departures + [d], ticket) || Holds(left, ticket)
    {
      DepartedOne(departures, d, ticket);
      if !Departed(departures, ticket) && ticket != d.ticket {
        assert Holds(prepared, ticket);
        var other :| other in prepared && prepared[other].ticket == ticket;
        assert other in left;
      }
    }
    forall other | other in left
      ensures !Departed(departures + [d], left[other].ticket)
    {
      DepartedOne(departures, d, left[other].ticket);
    }
    forall i, j | 0 <= i < j < |departures + [d]|
      ensures (departures + [d])[i].ticket != (departures + [d])[j].ticket
    {
      assert !Departed(departures, d.ticket);
    }
  }

  lemma PreparedReserved(prepared: map<string, Prepared>, max: nat, p: Prepared)
    requires PreparedOk(prepared, max) && |prepared| < max
    ensures PreparedOk(prepared[p.context.session := p], max)
  {
  }

  lemma PreparedLeft(prepared: map<string, Prepared>, max: nat, id: string)
    requires PreparedOk(prepared, max)
    ensures PreparedOk(prepared - {id}, max)
  {
    RemovedSize(prepared, id);
  }

  // ---------- operations ----------

  lemma HandoffsQuiet(ops: map<nat, Op>, departures: seq<Departure>, leases: seq<Lease>, op: nat, o: Op)
    requires HandoffsOk(ops, departures, leases)
    requires forall ticket: nat :: Carries(o, ticket) ==> op in ops && Carries(ops[op], ticket)
    ensures HandoffsOk(ops[op := o], departures, leases)
  {
  }

  lemma HandoffsDeparted(ops: map<nat, Op>, departures: seq<Departure>, leases: seq<Lease>, more: seq<Departure>)
    requires HandoffsOk(ops, departures, leases)
    ensures HandoffsOk(ops, departures + more, leases)
  {
    forall ticket: nat | Taken(departures, ticket)
      ensures Taken(departures + more, ticket)
    {
      var i :| 0 <= i < |departures| && departures[i].ticket == ticket && departures[i].reason.ByAttach?;
      assert (departures + more)[i] == departures[i];
    }
    hide Taken;
  }

  /** A preparation that had not departed is in nobody's hands. */
  lemma HandoffsTaken(ops: map<nat, Op>, departures: seq<Departure>, leases: seq<Lease>, op: nat, o: Op, d: Departure)
    requires HandoffsOk(ops, departures, leases) && !Departed(departures, d.ticket)
    requires o.Admitting? && o.ticket == Some(d.ticket) && d.reason.ByAttach?
    ensures HandoffsOk(ops[op := o], departures + [d], leases)
  {
    HandoffsDeparted(ops, departures, leases, [d]);
    assert !Taken(departures, d.ticket);
    assert !LeasedTo(leases, d.ticket);
    assert (departures + [d])[|departures|] == d;
  }

  /** A lease ends the hand-off it came from. */
  lemma HandoffsLeased(ops: map<nat, Op>, departures: seq<Departure>, leases: seq<Lease>, op: nat, reply: Reply, actor: nat)
    requires HandoffsOk(ops, departures, leases) && op in ops && ops[op].Admitting?
    ensures HandoffsOk(ops[op := Done(reply)], departures, leases + [Lease(ops[op].ticket, actor)])
  {
    var ticket := ops[op].ticket;
    var grown := leases + [Lease(ticket, actor)];
    if ticket.Some? {
      assert Carries(ops[op], ticket.value);
    }
    forall t: nat
      ensures LeasedTo(grown, t) <==> LeasedTo(leases, t) || ticket == Some(t)
    {
      assert grown[|leases|].ticket == ticket;
      assert forall i :: 0 <= i < |leases| ==> grown[i] == leases[i];
    }
    hide Taken;
  }

  lemma StopsQuiet(ops: map<nat, Op>, actors: seq<Actor>, op: nat, o: Op)
    requires StopsOk(ops, actors) && !o.Stopping?
    ensures StopsOk(ops[op := o], actors)
  {
  }

  // ---------- credentials ----------

  function Reserved(p: Prepared): Reservation {
    Reservation(p.context, p.fingerprint, p.attachment, p.expiresAt)
  }

  /** Whoever passes the checks on a preparation of its own session is entitled to it. */
  lemma CheckedIsEntitled(p: Prepared, now: nat, context: Context, binding: nat)
    requires PreparedProblem(p, now, context, binding).None? && p.context.session == context.session
    ensures Entitled(ByAttach(now, context, binding), Reserved(p)) && Entitled(ByStop(now, context, binding), Reserved(p))
  {
  }

  lemma RecordsCreated(prepared: map<string, Prepared>, created: nat, preparations: seq<Reservation>, departures: seq<Departure>, id: string, p: Prepared)
    requires RecordsOk(prepared, created, preparations, departures) && p.ticket == created
    requires TicketsOk(prepared, created, departures)
    ensures RecordsOk(prepared[id := p], created + 1, preparations + [Reserved(p)], departures)
  {
    var grown, more := prepared[id := p], preparations + [Reserved(p)];
    forall other | other in grown && grown[other].ticket < created + 1
      ensures more[grown[other].ticket] == Reserved(grown[other])
    {
      if other != id {
        assert preparations[grown[other].ticket] == Reserved(prepared[other]);
      }
    }
  }

  lemma RecordsDeparted(prepared: map<string, Prepared>, created: nat, preparations: seq<Reservation>, departures: seq<Departure>, id: string, reason: Reason)
    requires RecordsOk(prepared, created, preparations, departures) && id in prepared && Entitled(reason, Reserved(prepared[id]))
    ensures RecordsOk(prepared - {id}, created, preparations, departures + [Departure(prepared[id].ticket, reason)])
  {
    hide Entitled;
    var d := Departure(prepared[id].ticket, reason);
    assert d.ticket < created ==> preparations[d.ticket] == Reserved(prepared[id]);
  }

  lemma RecordsDrained(prepared: map<string, Prepared>, created: nat, preparations: seq<Reservation>, departures: seq<Departure>, more: seq<Departure>)
    requires RecordsOk(prepared, created, preparations, departures) && forall i :: 0 <= i < |more| ==> more[i].reason.ByDrain?
    ensures RecordsOk(map[], created, preparations, departures + more)
  {
  }

  lemma OpsQuiet(ops: map<nat, Op>, preparations: seq<Reservation>, op: nat, o: Op)
    requires OpsCredited(ops, preparations)
    requires o.Admitting? ==> Credited(o.ticket, o.context, o.fingerprint, o.attachment, preparations)
    ensures OpsCredited(ops[op := o], preparations)
  {
    hide Credited;
  }

  lemma OpsMore(ops: map<nat, Op>, preparations: seq<Reservation>, r: Reservation)
    requires OpsCredited(ops, preparations)
    ensures OpsCredited(ops, preparations + [r])
  {
  }

  lemma LeasesMore(sessions: map<string, Active>, actors: seq<Actor>, leases: seq<Lease>, preparations: seq<Reservation>, r: Reservation)
    requires LeasesOk(sessions, actors, leases, preparations)
    ensures LeasesOk(sessions, actors, leases, preparations + [r])
  {
  }

  lemma LeasesFewer(sessions: map<string, Active>, fewer: map<string, Active>, actors: seq<Actor>, leases: seq<Lease>, preparations: seq<Reservation>)
    requires LeasesOk(sessions, actors, leases, preparations)
    requires forall id :: id in fewer ==> id in sessions && fewer[id] == sessions[id]
    ensures LeasesOk(fewer, actors, leases, preparations)
  {
    hide Credited;
  }

  lemma LeasesEnrolled(sessions: map<string, Active>, actors: seq<Actor>, leases: seq<Lease>, preparations: seq<Reservation>, ticket: Option<nat>, a: Active)
    requires LeasesOk(sessions, actors, leases, preparations) && a.actor == |actors|
    requires Credited(ticket, a.context, a.fingerprint, a.attachment, preparations)
    requires forall id :: id in sessions ==> sessions[id].actor < |actors|
    ensures LeasesOk(sessions[a.context.session := a], actors + [Actor(a.context, false)], leases + [Lease(ticket, a.actor)], preparations)
  {
    var grown, more := sessions[a.context.session := a], leases + [Lease(ticket, a.actor)];
    forall id | id in grown
      ensures Credited(more[grown[id].actor].ticket, grown[id].context, grown[id].fingerprint, grown[id].attachment, preparations)
    {
      if id != a.context.session {
        assert more[sessions[id].actor] == leases[sessions[id].actor];
      }
    }
    hide Credited;
  }

  // ---------- every section ----------

  lemma SettleInv(s: Shard, op: nat, reply: Reply)
    requires Inv(s)
    ensures Inv(Settle(s, op, reply))
  {
    hide SessionsOk, PreparedOk, TicketsOk, HandoffsOk, StopsOk, RecordsOk, OpsCredited, LeasesOk;
    HandoffsQuiet(s.ops, s.departures, s.leases, op, Done(reply));
    StopsQuiet(s.ops, s.actors, op, Done(reply));
    OpsQuiet(s.ops, s.preparations, op, Done(reply));
  }

  lemma ReapedInv(s: Shard)
    requires Inv(s)
    ensures Inv(Reaped(s))
  {
    hide SessionsOk, PreparedOk, TicketsOk, HandoffsOk, StopsOk, RecordsOk, OpsCredited, LeasesOk;
    SessionsReaped(s);
    LeasesFewer(s.sessions, Reaped(s).sessions, s.actors, s.leases, s.preparations);
  }

  lemma DepartInv(s: Shard, id: string, reason: Reason)
    requires Inv(s) && id in s.prepared && Entitled(reason, Reserved(s.prepared[id]))
    ensures Inv(Depart(s, id, reason))
  {
    hide SessionsOk, PreparedOk, TicketsOk, HandoffsOk, StopsOk, RecordsOk, OpsCredited, LeasesOk;
    TicketsDeparted(s.prepared, s.created, s.departures, id, reason);
    RecordsDeparted(s.prepared, s.created, s.preparations, s.departures, id, reason);
    PreparedLeft(s.prepared, s.maxSessions, id);
    HandoffsDeparted(s.ops, s.departures, s.leases, [Departure(s.prepared[id].ticket, reason)]);
  }

  lemma ReserveInv(s: Shard, op: nat, p: Preparation)
    requires Inv(s)
    ensures Inv(Reserve(s, op, p))
  {
    hide SessionsOk, PreparedOk, TicketsOk, HandoffsOk, StopsOk, RecordsOk, OpsCredited, LeasesOk, Reaped, Settle, Inv;
    ReapedInv(s);
    var r := Reaped(s);
    var id := p.context.session;
    if id !in r.sessions && id !in r.prepared && |r.sessions| + |r.prepared| < r.maxSessions {
      CreateInv(r, op, p);
    } else {
      var t := Reserve(s, op, p);
      SettleInv(r, op, Existing);
      SettleInv(r, op, Refused(SessionConflict));
      SettleInv(r, op, Refused(AtCapacity));
    }
  }

  lemma CreateInv(r: Shard, op: nat, p: Preparation)
    requires Inv(r) && p.context.session !in r.prepared && |r.prepared| < r.maxSessions
    ensures var entry := Prepared(p.context, p.fingerprint, p.attachment, r.now + r.ttl, r.created);
            Inv(Settle(r, op, Created(r.created)).(prepared := r.prepared[p.context.session := entry], created := r.created + 1,
                                                   preparations := r.preparations + [Reserved(entry)]))
  {
    hide SessionsOk, PreparedOk, TicketsOk, HandoffsOk, StopsOk, RecordsOk, OpsCredited, LeasesOk;
    SettleInv(r, op, Created(r.created));
    var entry := Prepared(p.context, p.fingerprint, p.attachment, r.now + r.ttl, r.created);
    TicketsCreated(r.prepared, r.created, r.departures, p.context.session, entry);
    PreparedReserved(r.prepared, r.maxSessions, entry);
    RecordsCreated(r.prepared, r.created, r.preparations, r.departures, p.context.session, entry);
    OpsMore(Settle(r, op, Created(r.created)).ops, r.preparations, Reserved(entry));
    LeasesMore(r.sessions, r.actors, r.leases, r.preparations, Reserved(entry));
  }

  lemma ConsumeInv(s: Shard, op: nat, context: Context, binding: nat)
    requires Inv(s)
    ensures Inv(Consume(s, op, context, binding))
  {
    hide SessionsOk, PreparedOk, TicketsOk, HandoffsOk, StopsOk, RecordsOk, OpsCredited, LeasesOk, PreparedProblem;
    var id := context.session;
    if id !in s.prepared {
      SettleInv(s, op, Refused(NotPrepared));
    } else {
      var p := s.prepared[id];
      var problem := PreparedProblem(p, s.now, context, binding);
      if problem.Some? {
        SettleInv(s, op, Refused(problem.value));
      } else {
        TakeInv(s, op, context, binding);
      }
    }
  }

  lemma TakeInv(s: Shard, op: nat, context: Context, binding: nat)
    requires Inv(s) && context.session in s.prepared
    requires PreparedProblem(s.prepared[context.session], s.now, context, binding).None?
    ensures Inv(Consume(s, op, context, binding))
  {
    hide SessionsOk, HandoffsOk, StopsOk, OpsCredited, LeasesOk, Departed, PreparedProblem, Entitled;
    var id := context.session;
    var p := s.prepared[id];
    var o := Admitting(Some(p.ticket), context, Some(p.fingerprint), Some(p.attachment), false);
    CheckedIsEntitled(p, s.now, context, binding);
    CheckedContext(p, s.now, context, binding);
    assert Credited(o.ticket, o.context, o.fingerprint, o.attachment, s.preparations);
    HandoffsTaken(s.ops, s.departures, s.leases, op, o, Departure(p.ticket, ByAttach(s.now, context, binding)));
    hide TicketsOk, RecordsOk, PreparedOk, Credited;
    DepartInv(s, id, ByAttach(s.now, context, binding));
    StopsQuiet(s.ops, s.actors, op, o);
    OpsQuiet(s.ops, s.preparations, op, o);
  }

  lemma CheckedContext(p: Prepared, now: nat, context: Context, binding: nat)
    requires PreparedProblem(p, now, context, binding).None? && p.context.session == context.session
    ensures p.context == context
  {
  }

  lemma EnrollInv(s: Shard, op: nat, spawns: bool)
    requires Inv(s) && op in s.ops && s.ops[op].Admitting?
    ensures Inv(Enroll(s, op, spawns))
  {
    hide SessionsOk, PreparedOk, TicketsOk, HandoffsOk, StopsOk, RecordsOk, OpsCredited, LeasesOk, Inv, Settle;
    ReapedInv(s);
    var r := Reaped(s);
    hide Reaped;
    if s.ops[op].context.session in r.sessions || |r.sessions| >= r.maxSessions || !spawns {
      SettleInv(r, op, Refused(SessionConflict));
      SettleInv(r, op, Refused(AtCapacity));
      SettleInv(r, op, Refused(SpawnFailed));
    } else {
      ReapedParts(s);
      LeaseInv(r, op);
    }
  }

  lemma ReapedParts(s: Shard)
    ensures Reaped(s) == s.(sessions := Reaped(s).sessions)
  {
  }

  lemma LeaseInv(r: Shard, op: nat)
    requires Inv(r) && op in r.ops && r.ops[op].Admitting? && |r.sessions| < r.maxSessions
    ensures var o := r.ops[op];
            Inv(Settle(r, op, Leased(|r.actors|))
                .(actors := r.actors + [Actor(o.context, false)], leases := r.leases + [Lease(o.ticket, |r.actors|)],
                  sessions := r.sessions[o.context.session := Active(|r.actors|, o.context, o.fingerprint, o.attachment)]))
  {
    hide PreparedOk, TicketsOk, HandoffsOk, RecordsOk, LeasesOk, Credited;
    var o := r.ops[op];
    var a := Active(|r.actors|, o.context, o.fingerprint, o.attachment);
    LeasesEnrolled(r.sessions, r.actors, r.leases, r.preparations, o.ticket, a);
    OpsQuiet(r.ops, r.preparations, op, Done(Leased(|r.actors|)));
    hide OpsCredited;
    SessionsEnrolled(r.sessions, r.actors, r.maxSessions, a);
    hide SessionsOk;
    HandoffsLeased(r.ops, r.departures, r.leases, op, Leased(|r.actors|), |r.actors|);
  }

  lemma LocateInv(s: Shard, op: nat, context: Context, binding: nat)
    requires Inv(s)
    ensures Inv(Locate(s, op, context, binding))
  {
    hide SessionsOk, PreparedOk, TicketsOk, HandoffsOk, StopsOk, RecordsOk, OpsCredited, LeasesOk, Reaped, ActiveProblem;
    ReapedInv(s);
    var r := Reaped(s);
    if context.session in r.sessions {
      var a := r.sessions[context.session];
      var problem := ActiveProblem(a, context, binding);
      if problem.Some? {
        SettleInv(r, op, Refused(problem.value));
      } else {
        StopsLocated(r, op, context, binding);
        OpsQuiet(r.ops, r.preparations, op, Stopping(context, a.actor));
        HandoffsQuiet(r.ops, r.departures, r.leases, op, Stopping(context, a.actor));
      }
    } else {
      HandoffsQuiet(r.ops, r.departures, r.leases, op, Unpreparing(context, binding));
      StopsQuiet(r.ops, r.actors, op, Unpreparing(context, binding));
      OpsQuiet(r.ops, r.preparations, op, Unpreparing(context, binding));
    }
  }

  lemma StopsLocated(r: Shard, op: nat, context: Context, binding: nat)
    requires SessionsOk(r.sessions, r.actors, r.maxSessions) && StopsOk(r.ops, r.actors)
    requires context.session in r.sessions && ActiveProblem(r.sessions[context.session], context, binding).None?
    ensures StopsOk(r.ops[op := Stopping(context, r.sessions[context.session].actor)], r.actors)
  {
  }

  lemma UnprepareInv(s: Shard, op: nat, context: Context, binding: nat)
    requires Inv(s)
    ensures Inv(Unprepare(s, op, context, binding))
  {
    hide Inv, Settle, PreparedProblem, Depart, Entitled;
    var id := context.session;
    if id in s.prepared {
      var problem := PreparedProblem(s.prepared[id], s.now, context, binding);
      if problem.Some? {
        SettleInv(s, op, Refused(problem.value));
      } else {
        PreparedSession(s, id);
        CheckedIsEntitled(s.prepared[id], s.now, context, binding);
        DepartInv(s, id, ByStop(s.now, context, binding));
        SettleInv(Depart(s, id, ByStop(s.now, context, binding)), op, Stopped);
      }
    } else {
      SettleInv(s, op, Stopped);
    }
  }

  lemma PreparedSession(s: Shard, id: string)
    requires Inv(s) && id in s.prepared
    ensures s.prepared[id].context.session == id
  {
  }

  lemma UnregisterInv(s: Shard, op: nat, context: Context)
    requires Inv(s)
    ensures Inv(Unregister(s, op, context))
  {
    hide SessionsOk, PreparedOk, TicketsOk, HandoffsOk, StopsOk, RecordsOk, OpsCredited, LeasesOk, Settle;
    SessionsDropped(s.sessions, s.actors, s.maxSessions, context.session);
    LeasesFewer(s.sessions, s.sessions - {context.session}, s.actors, s.leases, s.preparations);
    SettleInv(s.(sessions := s.sessions - {context.session}), op, Stopped);
    SettleInv(s, op, Stopped);
  }

  lemma FinishInv(s: Shard, actor: nat)
    requires Inv(s) && actor < |s.actors|
    ensures Inv(s.(actors := s.actors[actor := s.actors[actor].(finished := true)]))
  {
    hide PreparedOk, TicketsOk, HandoffsOk, RecordsOk, OpsCredited;
  }

  lemma DrainInv(s: Shard, order: seq<string>)
    requires Inv(s) && Enumerates(order, s.prepared)
    ensures Inv(DrainAll(s, order))
  {
    hide SessionsOk, HandoffsOk, StopsOk, RecordsOk, OpsCredited, LeasesOk;
    var t := DrainAll(s, order);
    var more := t.departures[|s.departures|..];
    assert t.departures == s.departures + more;
    HandoffsDeparted(s.ops, s.departures, s.leases, more);
    hide PreparedOk;
    RecordsDrained(s.prepared, s.created, s.preparations, s.departures, more);
    TicketsDrained(s.prepared, s.created, s.departures, order, more);
  }

  lemma TicketsDrained(prepared: map<string, Prepared>, created: nat, departures: seq<Departure>, order: seq<string>, more: seq<Departure>)
    requires TicketsOk(prepared, created, departures) && Enumerates(order, prepared) && |more| == |order|
    requires forall i :: 0 <= i < |more| ==> order[i] in prepared && more[i].ticket == prepared[order[i]].ticket
    ensures TicketsOk(map[], created, departures + more)
  {
    var all := departures + more;
    forall ticket: nat | ticket < created
      ensures Departed(all, ticket)
    {
      if Departed(departures, ticket) {
        var i :| 0 <= i < |departures| && departures[i].ticket == ticket;
        assert all[i].ticket == ticket;
      } else {
        assert Holds(prepared, ticket);
        var id :| id in prepared && prepared[id].ticket == ticket;
        var i :| 0 <= i < |order| && order[i] == id;
        assert all[|departures| + i].ticket == ticket;
      }
    }
    forall i, j | 0 <= i < j < |all|
      ensures all[i].ticket != all[j].ticket
    {
      DrainedOnce(prepared, departures, order, more, i, j);
    }
    forall i | 0 <= i < |all|
      ensures all[i].ticket < created
    {
    }
  }

  lemma DrainedOnce(prepared: map<string, Prepared>, departures: seq<Departure>, order: seq<string>, more: seq<Departure>, i: nat, j: nat)
    requires forall id :: id in prepared ==> !Departed(departures, prepared[id].ticket)
    requires forall a, b :: a in prepared && b in prepared && a != b ==> prepared[a].ticket != prepared[b].ticket
    requires forall i, j :: 0 <= i < j < |departures| ==> departures[i].ticket != departures[j].ticket
    requires Distinct(order) && |more| == |order|
    requires forall i :: 0 <= i < |more| ==> order[i] in prepared && more[i].ticket == prepared[order[i]].ticket
    requires i < j < |departures + more|
    ensures (departures + more)[i].ticket != (departures + more)[j].ticket
  {
    var n := |departures|;
    if j >= n {
      assert !Departed(departures, more[j - n].ticket);
      if i >= n {
        assert order[i - n] != order[j - n];
      }
    }
  }

  lemma ContinueInv(s: Shard, op: nat, spawns: bool)
    requires Inv(s) && op in s.ops
    ensures Inv(Continue(s, op, spawns))
  {
    hide Inv, Reserve, Enroll, Unregister, Unprepare, Settle;
    match s.ops[op]
    case Preparing(p) => ReserveInv(s, op, p);
    case Admitting(_, _, _, _, checked) =>
      if checked {
        EnrollInv(s, op, spawns);
      } else {
        CheckedInv(s, op);
        SettleInv(s, op, Refused(Draining));
      }
    case Stopping(context, _) => UnregisterInv(s, op, context);
    case Unpreparing(context, binding) => UnprepareInv(s, op, context, binding);
    case Done(_) =>
  }

  lemma CheckedInv(s: Shard, op: nat)
    requires Inv(s) && op in s.ops && s.ops[op].Admitting?
    ensures Inv(s.(ops := s.ops[op := s.ops[op].(checked := true)]))
  {
    hide SessionsOk, PreparedOk, TicketsOk, HandoffsOk, StopsOk, RecordsOk, OpsCredited, LeasesOk;
    OpsChecked(s.ops, s.preparations, op);
    HandoffsQuiet(s.ops, s.departures, s.leases, op, s.ops[op].(checked := true));
    StopsQuiet(s.ops, s.actors, op, s.ops[op].(checked := true));
  }

  lemma OpsChecked(ops: map<nat, Op>, preparations: seq<Reservation>, op: nat)
    requires OpsCredited(ops, preparations) && op in ops && ops[op].Admitting?
    ensures OpsCredited(ops[op := ops[op].(checked := true)], preparations)
  {
    hide Credited;
  }

  lemma BeganInv(s: Shard, op: nat, o: Op)
    requires Inv(s) && (o.Preparing? || (o.Admitting? && o.ticket.None? && o.fingerprint.None? && o.attachment.None?))
    ensures Inv(s.(ops := s.ops[op := o]))
  {
    hide SessionsOk, PreparedOk, TicketsOk, HandoffsOk, StopsOk, RecordsOk, OpsCredited, LeasesOk;
    HandoffsQuiet(s.ops, s.departures, s.leases, op, o);
    StopsQuiet(s.ops, s.actors, op, o);
    OpsQuiet(s.ops, s.preparations, op, o);
  }

  lemma OpenInv(s: Shard, step: Step)
    requires Inv(s) && Opens(step)
    ensures Inv(Open(s, step))
  {
    hide Inv, Consume, Locate, Settle;
    match step
    case Prepare(op, p) =>
      SettleInv(s, op, Refused(Draining));
      SettleInv(s, op, Refused(Unsound));
      BeganInv(s, op, Preparing(p));
    case Attach(op, context, binding) => ConsumeInv(s, op, context, binding);
    case AdmitDirect(op, context) => BeganInv(s, op, Admitting(None, context, None, None, false));
    case Stop(op, context, binding) => LocateInv(s, op, context, binding);
  }

  lemma ClockInv(s: Shard, now: nat, accepting: bool)
    requires Inv(s)
    ensures Inv(s.(now := now)) && Inv(s.(accepting := accepting))
  {
    hide SessionsOk, PreparedOk, TicketsOk, HandoffsOk, StopsOk, RecordsOk, OpsCredited, LeasesOk;
  }

  lemma NextInv(s: Shard, step: Step)
    requires Inv(s)
    ensures Inv(Next(s, step))
  {
    hide Inv, Open, Continue, Settle, Depart, Reaped, Enumerates, DrainAll;
    if Opens(step) {
      OpenInv(s, step);
    } else {
      match step
      case Proceed(op, spawns) =>
        if op in s.ops {
          ContinueInv(s, op, spawns);
        }
      case GiveUp(op) => SettleInv(s, op, Refused(DidNotStop));
      case Expire(id, fingerprint) =>
        if id in s.prepared && s.prepared[id].fingerprint == fingerprint && s.prepared[id].expiresAt <= s.now {
          DepartInv(s, id, ByExpiry(s.now, fingerprint));
        }
      case FinishActor(actor) =>
        if actor < |s.actors| {
          FinishInv(s, actor);
        }
      case Reap => ReapedInv(s);
      case Tick(elapsed) => ClockInv(s, s.now + elapsed, false);
      case BeginDraining => ClockInv(s, 0, false);
      case DrainPrepared(order) =>
        if Enumerates(order, s.prepared) {
          DrainInv(s, order);
        }
      case _ =>
    }
  }

  lemma {:induction false} RunInv(s: Shard, steps: seq<Step>)
    requires Inv(s)
    ensures Inv(Run(s, steps))
    decreases |steps|
  {
    if steps != [] {
      hide Inv, Next;
      NextInv(s, steps[0]);
      RunInv(Next(s, steps[0]), steps[1..]);
    }
  }

  lemma NextMax(s: Shard, step: Step)
    ensures Next(s, step).maxSessions == s.maxSessions
  {
    hide Open, Continue, Enumerates;
    if Opens(step) {
      OpenMax(s, step);
    } else if step.Proceed? && step.op in s.ops {
      ContinueMax(s, step.op, step.spawns);
    }
  }

  lemma OpenMax(s: Shard, step: Step)
    requires Opens(step)
    ensures Open(s, step).maxSessions == s.maxSessions
  {
    hide Reaped, PreparedProblem, ActiveProblem;
    ReapedParts(s);
  }

  lemma ContinueMax(s: Shard, op: nat, spawns: bool)
    requires op in s.ops
    ensures Continue(s, op, spawns).maxSessions == s.maxSessions
  {
    hide Reaped, PreparedProblem;
    ReapedParts(s);
  }

  lemma {:induction false} RunMax(s: Shard, steps: seq<Step>)
    ensures Run(s, steps).maxSessions == s.maxSessions
    decreases |steps|
  {
    if steps != [] {
      hide Next;
      NextMax(s, steps[0]);
      RunMax(Next(s, steps[0]), steps[1..]);
    }
  }

  lemma Reachable(max: nat, ttl: nat, steps: seq<Step>)
    ensures var s := Run(Start(max, ttl), steps);
            Inv(s) && s.maxSessions == max
  {
    RunInv(Start(max, ttl), steps);
    RunMax(Start(max, ttl), steps);
  }
}
