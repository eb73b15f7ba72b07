/** Who may take a preparation, stop a session or repeat a reservation: verdicts in terms of what was
    reserved, what has departed and who was leased, for every reachable shard. */
module SupervisorAccess {
  import opened Common
  import opened Supervisor

  /** A preparation that was created and has not left, by its number. */
  ghost predicate Waiting(s: Shard, ticket: nat, session: string) {
    ticket < |s.preparations| && s.preparations[ticket].context.session == session && !Departed(s.departures, ticket)
  }

  /** The running actor registered for a session. */
  ghost predicate Serving(s: Shard, actor: nat, session: string) {
    session in s.sessions && s.sessions[session].actor == actor && actor < |s.actors| && !s.actors[actor].finished
  }

  /** The preparation an actor was leased from. */
  ghost predicate LeasedFrom(s: Shard, actor: nat, ticket: nat) {
    actor < |s.leases| && s.leases[actor] == Lease(Some(ticket), actor)
  }

  /** Every lease from a preparation was attached with its generation, tenant and binding, before it
      expired, and its actor runs in that context. */
  lemma LeasesAreEntitled(max: nat, ttl: nat, steps: seq<Step>, actor: nat, ticket: nat)
    requires LeasedFrom(Run(Start(max, ttl), steps), actor, ticket)
    ensures var s := Run(Start(max, ttl), steps);
            && ticket < |s.preparations| && actor < |s.actors|
            && var r := s.preparations[ticket];
            && s.actors[actor].context == r.context
            && exists i :: && 0 <= i < |s.departures| && s.departures[i].ticket == ticket && s.departures[i].reason.ByAttach?
                           && var ask := s.departures[i].reason;
                           && ask.context.session == r.context.session && ask.context.generation == r.context.generation
                           && ask.context.tenant == r.context.tenant && ask.binding == r.attachment && ask.at < r.expiresAt
  {
    Reachable(max, ttl, steps);
    hide Run, SessionsOk, PreparedOk, StopsOk, OpsCredited;
    var s := Run(Start(max, ttl), steps);
    assert s.leases[actor].ticket == Some(ticket);
    assert Taken(s.departures, ticket);
    var i :| 0 <= i < |s.departures| && s.departures[i].ticket == ticket && s.departures[i].reason.ByAttach?;
    assert Entitled(s.departures[i].reason, s.preparations[ticket]);
  }

  /** Nothing leaves the registry early or by a stranger: an expired preparation had expired, a
      stopped one was stopped with its own credentials in time. */
  lemma DeparturesAreEntitled(max: nat, ttl: nat, steps: seq<Step>, i: nat)
    requires i < |Run(Start(max, ttl), steps).departures|
    ensures var s := Run(Start(max, ttl), steps);
            var d := s.departures[i];
            && d.ticket < |s.preparations|
            && var r := s.preparations[d.ticket];
            && (d.reason.ByExpiry? ==> d.reason.at >= r.expiresAt && d.reason.fingerprint == r.fingerprint)
            && (d.reason.ByStop? ==> d.reason.context == r.context && d.reason.binding == r.attachment && d.reason.at < r.expiresAt)
            && (d.reason.ByAttach? ==> d.reason.context == r.context && d.reason.binding == r.attachment && d.reason.at < r.expiresAt)
  {
    Reachable(max, ttl, steps);
    hide Run, SessionsOk, PreparedOk, StopsOk, OpsCredited, LeasesOk, HandoffsOk;
    var s := Run(Start(max, ttl), steps);
    assert Entitled(s.departures[i].reason, s.preparations[s.departures[i].ticket]);
  }

  // ---------- verdicts on a preparation ----------

  /** What a request for a waiting preparation is told, first objection first. */
  function Objection(r: Reservation, now: nat, context: Context, binding: nat): Option<ShardError> {
    if now >= r.expiresAt then Some(Expired)
    else if context.generation != r.context.generation then Some(GenerationMismatch)
    else if context.tenant != r.context.tenant then Some(TenantMismatch)
    else if binding != r.attachment then Some(BindingMismatch)
    else None
  }

  /** The registry entry of a session is its waiting preparation. */
  lemma WaitingIsPrepared(s: Shard, session: string)
    requires Inv(s)
    ensures session in s.prepared ==>
              var p := s.prepared[session];
              Waiting(s, p.ticket, session) && s.preparations[p.ticket] == Reserved(p)
    ensures forall ticket :: Waiting(s, ticket, session) ==> session in s.prepared && s.prepared[session].ticket == ticket
  {
    hide SessionsOk, HandoffsOk, StopsOk, OpsCredited, LeasesOk, Departed;
    forall ticket | Waiting(s, ticket, session)
      ensures session in s.prepared && s.prepared[session].ticket == ticket
    {
      assert Holds(s.prepared, ticket);
      var id :| id in s.prepared && s.prepared[id].ticket == ticket;
    }
  }

  /** An attach to a session without a waiting preparation is told so; to one with, it gets the first
      objection and changes nothing, or, without objection, takes the preparation and carries its
      credentials on. */
  lemma AttachVerdict(max: nat, ttl: nat, steps: seq<Step>, op: nat, context: Context, binding: nat, ticket: nat)
    requires op !in Run(Start(max, ttl), steps).ops
    ensures var s := Run(Start(max, ttl), steps);
            var t := Next(s, Attach(op, context, binding));
            && op in t.ops && t.sessions == s.sessions && t.actors == s.actors
            && ((forall k :: !Waiting(s, k, context.session)) <==> t.ops[op] == Done(Refused(NotPrepared)))
            && (Waiting(s, ticket, context.session) ==>
                  var r := s.preparations[ticket];
                  var objection := Objection(r, s.now, context, binding);
                  if objection.Some? then
                    t.ops[op] == Done(Refused(objection.value)) && t.prepared == s.prepared && t.departures == s.departures
                  else
                    && t.ops[op] == Admitting(Some(ticket), context, Some(r.fingerprint), Some(r.attachment), false)
                    && t.departures == s.departures + [Departure(ticket, ByAttach(s.now, context, binding))])
  {
    hide Run, Inv, Waiting, Departed;
    Reachable(max, ttl, steps);
    WaitingIsPrepared(Run(Start(max, ttl), steps), context.session);
  }

  /** A stop that found no running actor is judged alike. */
  lemma UnprepareVerdict(max: nat, ttl: nat, steps: seq<Step>, op: nat, spawns: bool, ticket: nat)
    requires var s := Run(Start(max, ttl), steps);
             op in s.ops && s.ops[op].Unpreparing?
    ensures var s := Run(Start(max, ttl), steps);
            var t, context, binding := Next(s, Proceed(op, spawns)), s.ops[op].context, s.ops[op].binding;
            && op in t.ops && t.sessions == s.sessions
            && ((forall k :: !Waiting(s, k, context.session)) ==> t.ops[op] == Done(Stopped) && t.departures == s.departures)
            && (Waiting(s, ticket, context.session) ==>
                  var objection := Objection(s.preparations[ticket], s.now, context, binding);
                  if objection.Some? then
                    t.ops[op] == Done(Refused(objection.value)) && t.prepared == s.prepared && t.departures == s.departures
                  else
                    t.ops[op] == Done(Stopped) && t.departures == s.departures + [Departure(ticket, ByStop(s.now, context, binding))])
  {
    hide Run, Inv, Waiting, Departed;
    Reachable(max, ttl, steps);
    WaitingIsPrepared(Run(Start(max, ttl), steps), Run(Start(max, ttl), steps).ops[op].context.session);
  }

  /** A timer removes a waiting preparation exactly when it carries its fingerprint and it is due. */
  lemma ExpiryVerdict(max: nat, ttl: nat, steps: seq<Step>, session: string, fingerprint: nat, ticket: nat)
    requires Waiting(Run(Start(max, ttl), steps), ticket, session)
    ensures var s := Run(Start(max, ttl), steps);
            var r := s.preparations[ticket];
            Next(s, Expire(session, fingerprint)).departures
            == s.departures + (if r.fingerprint == fingerprint && r.expiresAt <= s.now then [Departure(ticket, ByExpiry(s.now, fingerprint))] else [])
  {
    hide Run, Inv, Departed;
    Reachable(max, ttl, steps);
    var s := Run(Start(max, ttl), steps);
    WaitingIsPrepared(s, session);
    assert s.departures + [] == s.departures;
  }

  // ---------- verdicts on a running session ----------

  /** The credentials of a registered actor are those of its lease. */
  lemma ServingCredentials(s: Shard, actor: nat, session: string)
    requires Inv(s) && Serving(s, actor, session)
    ensures s.sessions[session].context == s.actors[actor].context && s.actors[actor].context.session == session
    ensures forall ticket: nat :: LeasedFrom(s, actor, ticket) ==>
              && ticket < |s.preparations|
              && s.sessions[session].fingerprint == Some(s.preparations[ticket].fingerprint)
              && s.sessions[session].attachment == Some(s.preparations[ticket].attachment)
    ensures (forall ticket: nat :: !LeasedFrom(s, actor, ticket)) ==> s.sessions[session].fingerprint.None? && s.sessions[session].attachment.None?
  {
    hide PreparedOk, TicketsOk, HandoffsOk, StopsOk, RecordsOk, OpsCredited;
    var lease := s.leases[actor];
    if lease.ticket.Some? {
      assert LeasedFrom(s, actor, lease.ticket.value);
    }
  }

  lemma ReapedServes(s: Shard, session: string)
    requires Inv(s)
    ensures session in Reaped(s).sessions <==> session in s.sessions && Serving(s, s.sessions[session].actor, session)
    ensures session in Reaped(s).sessions ==> Reaped(s).sessions[session] == s.sessions[session]
  {
    hide PreparedOk, TicketsOk, HandoffsOk, StopsOk, RecordsOk, OpsCredited, LeasesOk;
  }

  /** What a stop of a running session is told: its generation and tenant must be the actor's, and
      its binding that of the preparation the actor was leased from. */
  ghost function StopObjection(s: Shard, actor: nat, context: Context, binding: nat): Option<ShardError>
    requires actor < |s.actors|
  {
    if context.generation != s.actors[actor].context.generation then Some(GenerationMismatch)
    else if context.tenant != s.actors[actor].context.tenant then Some(TenantMismatch)
    else if !exists ticket: nat :: ticket < |s.preparations| && LeasedFrom(s, actor, ticket) && s.preparations[ticket].attachment == binding then
      Some(BindingMismatch)
    else None
  }

  /** A stop finds the running actor of its session, if there is one, and waits for it unless there
      is an objection, which leaves everything as it is. */
  lemma StopVerdict(max: nat, ttl: nat, steps: seq<Step>, op: nat, context: Context, binding: nat, actor: nat)
    requires op !in Run(Start(max, ttl), steps).ops
    ensures var s := Run(Start(max, ttl), steps);
            var t := Next(s, Stop(op, context, binding));
            && op in t.ops && t.prepared == s.prepared && t.actors == s.actors && t.departures == s.departures
            && ((forall a :: !Serving(s, a, context.session)) ==> t.ops[op] == Unpreparing(context, binding))
            && (Serving(s, actor, context.session) ==>
                  var objection := StopObjection(s, actor, context, binding);
                  t.ops[op] == if objection.Some? then Done(Refused(objection.value)) else Stopping(context, actor))
  {
    hide Run, Inv, Reaped, LeasedFrom;
    Reachable(max, ttl, steps);
    var s := Run(Start(max, ttl), steps);
    ReapedParts(s);
    ReapedServes(s, context.session);
    if Serving(s, actor, context.session) {
      ServingCredentials(s, actor, context.session);
    }
  }

  // ---------- verdicts on a reservation ----------

  /** A reservation of a session that is served or waiting is a replay if it is the same one, by
      fingerprint and generation, and a conflict otherwise; a new one is refused exactly when active
      and waiting sessions fill the shard, and is otherwise recorded as asked. */
  lemma ReservationVerdict(max: nat, ttl: nat, steps: seq<Step>, op: nat, spawns: bool, actor: nat, ticket: nat)
    requires var s := Run(Start(max, ttl), steps);
             op in s.ops && s.ops[op].Preparing?
    ensures var s := Run(Start(max, ttl), steps);
            var t, p := Next(s, Proceed(op, spawns)), s.ops[op].preparation;
            var session := p.context.session;
            && op in t.ops
            && (Serving(s, actor, session) ==>
                  t.ops[op] == Done(if s.actors[actor].context.generation == p.context.generation
                                       && (exists k: nat :: k < |s.preparations| && LeasedFrom(s, actor, k) && s.preparations[k].fingerprint == p.fingerprint)
                                    then Existing else Refused(SessionConflict)))
            && ((forall a :: !Serving(s, a, session)) && Waiting(s, ticket, session) ==>
                  var r := s.preparations[ticket];
                  t.ops[op] == Done(if r.fingerprint == p.fingerprint && r.context.generation == p.context.generation
                                    then Existing else Refused(SessionConflict)))
            && ((forall a :: !Serving(s, a, session)) && (forall k :: !Waiting(s, k, session)) ==>
                  if |Reaped(s).sessions| + |s.prepared| >= s.maxSessions then
                    t.ops[op] == Done(Refused(AtCapacity)) && t.preparations == s.preparations
                  else
                    && t.ops[op] == Done(Created(|s.preparations|))
                    && t.preparations == s.preparations + [Reservation(p.context, p.fingerprint, p.attachment, s.now + s.ttl)])
  {
    hide Run, Inv, Reaped, LeasedFrom, Waiting;
    Reachable(max, ttl, steps);
    var s := Run(Start(max, ttl), steps);
    var session := s.ops[op].preparation.context.session;
    ReapedParts(s);
    ReapedServes(s, session);
    WaitingIsPrepared(s, session);
    CreatedCounts(s);
    if Serving(s, actor, session) {
      ServingCredentials(s, actor, session);
    }
  }

  /** An admission is refused when the shard drains, when the session is served, when actors fill the
      shard or when its actor does not spawn; otherwise a new actor serves it under its credentials. */
  lemma AdmissionVerdict(max: nat, ttl: nat, steps: seq<Step>, op: nat, spawns: bool)
    requires var s := Run(Start(max, ttl), steps);
             op in s.ops && s.ops[op].Admitting?
    ensures var s := Run(Start(max, ttl), steps);
            var t, o, n := Next(s, Proceed(op, spawns)), s.ops[op], |s.actors|;
            && op in t.ops
            && (if !o.checked then t.ops[op] == if s.accepting then o.(checked := true) else Done(Refused(Draining))
                else if exists a :: Serving(s, a, o.context.session) then t.ops[op] == Done(Refused(SessionConflict)) && t.actors == s.actors
                else if |Reaped(s).sessions| >= s.maxSessions then t.ops[op] == Done(Refused(AtCapacity)) && t.actors == s.actors
                else if !spawns then t.ops[op] == Done(Refused(SpawnFailed)) && t.actors == s.actors
                else
                  && t.ops[op] == Done(Leased(n)) && t.actors == s.actors + [Actor(o.context, false)]
                  && t.leases == s.leases + [Lease(o.ticket, n)] && Serving(t, n, o.context.session))
  {
    hide Run, Inv, Reaped;
    Reachable(max, ttl, steps);
    var s := Run(Start(max, ttl), steps);
    ReapedParts(s);
    ReapedServes(s, s.ops[op].context.session);
  }

  /** A reservation is refused at once when the shard drains or its snapshot is unsound. */
  lemma PrepareVerdict(s: Shard, op: nat, p: Preparation)
    requires op !in s.ops
    ensures var t := Next(s, Prepare(op, p));
            && op in t.ops && t.prepared == s.prepared && t.sessions == s.sessions
            && t.ops[op] == if !s.accepting then Done(Refused(Draining)) else if !p.sound then Done(Refused(Unsound)) else Preparing(p)
  {
  }

  lemma CreatedCounts(s: Shard)
    requires Inv(s)
    ensures s.created == |s.preparations|
  {
  }
}
