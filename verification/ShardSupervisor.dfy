/** The supervisor in the form of the program: registries changed in place by methods whose
    lock-held sections are interleaved with other operations. Every method is proved to be a run
    of the step machine. */
module ShardSupervisor {
  import opened Common
  import opened Supervisor

  /** Steps that are not part of operation `op`. */
  predicate Elsewhere(steps: seq<Step>, op: nat) {
    forall k :: 0 <= k < |steps| && (Opens(steps[k]) || steps[k].Proceed? || steps[k].GiveUp?) ==> steps[k].op != op
  }

  lemma OtherStepKeeps(s: Shard, step: Step, op: nat)
    requires Elsewhere([step], op) && op in s.ops
    ensures op in Next(s, step).ops && Next(s, step).ops[op] == s.ops[op]
  {
    assert [step][0] == step;
    hide Open, Continue, Enumerates;
    if Opens(step) {
      OpenOps(s, step, op);
    } else if step.Proceed? && step.op in s.ops {
      ContinueOps(s, step.op, step.spawns, op);
    }
  }

  lemma OpenOps(s: Shard, step: Step, op: nat)
    requires Opens(step) && step.op != op && op in s.ops
    ensures op in Open(s, step).ops && Open(s, step).ops[op] == s.ops[op]
  {
    hide Reaped, PreparedProblem, ActiveProblem;
    ReapedParts(s);
  }

  lemma ReserveOps(s: Shard, own: nat, p: Preparation, op: nat)
    requires own != op && op in s.ops
    ensures op in Reserve(s, own, p).ops && Reserve(s, own, p).ops[op] == s.ops[op]
  {
    hide Reaped;
    ReapedParts(s);
  }

  lemma ContinueOps(s: Shard, own: nat, spawns: bool, op: nat)
    requires own in s.ops && own != op && op in s.ops
    ensures op in Continue(s, own, spawns).ops && Continue(s, own, spawns).ops[op] == s.ops[op]
  {
    hide Reaped, PreparedProblem, Reserve;
    ReapedParts(s);
    if s.ops[own].Preparing? {
      ReserveOps(s, own, s.ops[own].preparation, op);
    }
  }

  lemma {:induction false} OthersKeep(s: Shard, steps: seq<Step>, op: nat)
    requires Elsewhere(steps, op) && op in s.ops
    ensures op in Run(s, steps).ops && Run(s, steps).ops[op] == s.ops[op]
    decreases |steps|
  {
    if steps != [] {
      assert Elsewhere([steps[0]], op) && Elsewhere(steps[1..], op);
      hide Elsewhere, Next;
      OtherStepKeeps(s, steps[0], op);
      OthersKeep(Next(s, steps[0]), steps[1..], op);
    }
  }

  class Registry {
    const maxSessions: nat
    const ttl: nat
    var now: nat
    var accepting: bool
    var sessions: map<string, Active>
    var prepared: map<string, Prepared>
    var actors: seq<Actor>
    var ops: map<nat, Op>
    var created: nat
    var preparations: seq<Reservation>
    var departures: seq<Departure>
    var leases: seq<Lease>

    function Abs(): Shard
      reads this
    {
      Shard(maxSessions, ttl, now, accepting, sessions, prepared, actors, ops, created, preparations, departures, leases)
    }

    constructor (maxSessions: nat, ttl: nat)
      ensures Abs() == Start(maxSessions, ttl)
    {
      this.maxSessions, this.ttl := maxSessions, ttl;
      now, accepting, sessions, prepared, actors := 0, true, map[], map[], [];
      ops, created, preparations, departures, leases := map[], 0, [], [], [];
    }

    /** Other operations, actors and timers run while this operation waits. */
    method Await(steps: seq<Step>, ghost op: nat)
      requires Elsewhere(steps, op) && op in ops
      modifies this
      ensures Abs() == Run(old(Abs()), steps) && op in ops && ops[op] == old(ops[op])
    {
      OthersKeep(Abs(), steps, op);
      RunConstants(Abs(), steps);
      var t := Run(Abs(), steps);
      now, accepting, sessions, prepared, actors := t.now, t.accepting, t.sessions, t.prepared, t.actors;
      ops, created, preparations, departures, leases := t.ops, t.created, t.preparations, t.departures, t.leases;
    }

    /** Drop finished actors; the caller holds the sessions lock. */
    method Retain()
      modifies this`sessions
      ensures Abs() == Reaped(old(Abs()))
    {
      sessions := map k | k in sessions && !Finished(actors, sessions[k].actor) :: sessions[k];
    }

    method Answer(op: nat, reply: Reply)
      modifies this`ops
      ensures Abs() == Settle(old(Abs()), op, reply) && op in ops && ops[op] == Done(reply)
    {
      ops := ops[op := Done(reply)];
    }

    // ---------- prepare ----------

    method Prepare(op: nat, preparation: Preparation, meanwhile: seq<Step>) returns (r: Reply, ghost trace: seq<Step>)
      requires op !in ops && Elsewhere(meanwhile, op)
      modifies this
      ensures Abs() == Run(old(Abs()), trace) && op in ops && ops[op] == Done(r)
    {
      hide Elsewhere, Run, Reserve, Settle, Reaped;
      ghost var s := Abs();
      trace := [Step.Prepare(op, preparation)];
      RunFirst(s, trace[0]);
      if !accepting {
        r := Refused(Draining);
        Answer(op, r);
        return;
      }
      if !preparation.sound {
        r := Refused(Unsound);
        Answer(op, r);
        return;
      }
      ops := ops[op := Preparing(preparation)];
      assert Abs() == Next(s, trace[0]);
      Await(meanwhile, op);
      RunMore(s, trace, meanwhile);
      trace := trace + meanwhile;
      RunOne(s, trace, Proceed(op, false));
      r := ReserveLocked(op, preparation);
      trace := trace + [Proceed(op, false)];
    }

    /** Both registries are locked: replay, conflict, capacity, or a new entry with its expiry. */
    method ReserveLocked(op: nat, p: Preparation) returns (r: Reply)
      modifies this
      ensures Abs() == Reserve(old(Abs()), op, p) && op in ops && ops[op] == Done(r)
    {
      hide Reaped;
      Retain();
      var id := p.context.session;
      if id in sessions {
        var active := sessions[id];
        r := if active.fingerprint == Some(p.fingerprint) && active.context.generation == p.context.generation then Existing
             else Refused(SessionConflict);
      } else if id in prepared {
        var existing := prepared[id];
        r := if existing.fingerprint == p.fingerprint && existing.context.generation == p.context.generation then Existing
             else Refused(SessionConflict);
      } else if |sessions| + |prepared| >= maxSessions {
        r := Refused(AtCapacity);
      } else {
        r := Created(created);
        prepared := prepared[id := Prepared(p.context, p.fingerprint, p.attachment, now + ttl, created)];
        created := created + 1;
        preparations := preparations + [Reservation(p.context, p.fingerprint, p.attachment, now + ttl)];
      }
      Answer(op, r);
    }

    /** The expiry timer of a preparation. */
    method ExpirePreparation(session: string, fingerprint: nat)
      modifies this
      ensures Abs() == Next(old(Abs()), Expire(session, fingerprint))
    {
      if session in prepared && prepared[session].fingerprint == fingerprint && prepared[session].expiresAt <= now {
        RemovePrepared(session, ByExpiry(now, fingerprint));
      }
    }

    method RemovePrepared(id: string, reason: Reason)
      requires id in prepared
      modifies this`prepared, this`departures
      ensures Abs() == Depart(old(Abs()), id, reason)
    {
      departures := departures + [Departure(prepared[id].ticket, reason)];
      prepared := prepared - {id};
    }

    // ---------- attach and admit ----------

    /** Two sections: consume the preparation, then admit; others may run in between. */
    method AttachPrepared(op: nat, context: Context, binding: nat, meanwhile: seq<Step>, checking: seq<Step>, spawns: bool)
      returns (r: Reply, ghost trace: seq<Step>)
      requires op !in ops && Elsewhere(meanwhile, op) && Elsewhere(checking, op)
      modifies this
      ensures Abs() == Run(old(Abs()), trace) && op in ops && ops[op] == Done(r)
    {
      hide Elsewhere, Run, Settle, PreparedProblem, Enroll;
      ghost var s := Abs();
      trace := [Attach(op, context, binding)];
      RunFirst(s, trace[0]);
      var id := context.session;
      if id !in prepared {
        r := Refused(NotPrepared);
        Answer(op, r);
        return;
      }
      var p := prepared[id];
      var problem := PreparedProblem(p, now, context, binding);
      if problem.Some? {
        r := Refused(problem.value);
        Answer(op, r);
        return;
      }
      RemovePrepared(id, ByAttach(now, context, binding));
      ops := ops[op := Admitting(Some(p.ticket), context, Some(p.fingerprint), Some(p.attachment), false)];
      assert Abs() == Next(s, trace[0]);
      Await(meanwhile, op);
      RunMore(s, trace, meanwhile);
      ghost var rest: seq<Step>;
      r, rest := AdmitInternal(op, checking, spawns);
      RunMore(s, trace + meanwhile, rest);
      trace := trace + meanwhile + rest;
    }

    /** `admit` and `admit_with`: nothing was prepared. */
    method Admit(op: nat, context: Context, checking: seq<Step>, spawns: bool) returns (r: Reply, ghost trace: seq<Step>)
      requires op !in ops && Elsewhere(checking, op)
      modifies this
      ensures Abs() == Run(old(Abs()), trace) && op in ops && ops[op] == Done(r)
    {
      hide Elsewhere, Run, Settle, Enroll;
      ghost var s := Abs();
      RunFirst(s, AdmitDirect(op, context));
      ops := ops[op := Admitting(None, context, None, None, false)];
      ghost var rest: seq<Step>;
      r, rest := AdmitInternal(op, checking, spawns);
      RunMore(s, [AdmitDirect(op, context)], rest);
      trace := [AdmitDirect(op, context)] + rest;
    }

    method AdmitInternal(op: nat, checking: seq<Step>, spawns: bool) returns (r: Reply, ghost trace: seq<Step>)
      requires op in ops && ops[op].Admitting? && !ops[op].checked && Elsewhere(checking, op)
      modifies this
      ensures Abs() == Run(old(Abs()), trace) && op in ops && ops[op] == Done(r)
    {
      hide Elsewhere, Run, Settle, Enroll;
      ghost var s := Abs();
      trace := [Proceed(op, spawns)];
      RunFirst(s, trace[0]);
      if !accepting {
        r := Refused(Draining);
        Answer(op, r);
        return;
      }
      ops := ops[op := ops[op].(checked := true)];
      assert Abs() == Next(s, trace[0]);
      Await(checking, op);
      RunMore(s, trace, checking);
      trace := trace + checking;
      RunOne(s, trace, Proceed(op, spawns));
      r := EnrollLocked(op, spawns);
      trace := trace + [Proceed(op, spawns)];
    }

    /** The sessions lock is held: conflict, capacity, or a new registered actor and its lease. */
    method EnrollLocked(op: nat, spawns: bool) returns (r: Reply)
      requires op in ops && ops[op].Admitting?
      modifies this
      ensures Abs() == Enroll(old(Abs()), op, spawns) && op in ops && ops[op] == Done(r)
    {
      hide Reaped;
      Retain();
      ReapedParts(old(Abs()));
      var o := ops[op];
      var id := o.context.session;
      if id in sessions {
        r := Refused(SessionConflict);
      } else if |sessions| >= maxSessions {
        r := Refused(AtCapacity);
      } else if !spawns {
        r := Refused(SpawnFailed);
      } else {
        var actor := |actors|;
        actors, leases := actors + [Actor(o.context, false)], leases + [Lease(o.ticket, actor)];
        sessions := sessions[id := Active(actor, o.context, o.fingerprint, o.attachment)];
        r := Leased(actor);
      }
      Answer(op, r);
    }

    // ---------- stop and drain ----------

    /** Find the session; cancel its actor, wait for it to finish and drop its entry; or drop its
        preparation. `meanwhile` is what runs while it waits. */
    method StopSession(op: nat, context: Context, binding: nat, meanwhile: seq<Step>) returns (r: Reply, ghost trace: seq<Step>)
      requires op !in ops && Elsewhere(meanwhile, op)
      modifies this
      ensures Abs() == Run(old(Abs()), trace) && op in ops && ops[op] == Done(r)
    {
      hide Elsewhere, Run, Settle, Reaped, ActiveProblem, Unregister, Unprepare;
      ghost var s := Abs();
      trace := [Stop(op, context, binding)];
      RunFirst(s, trace[0]);
      Retain();
      ReapedParts(s);
      if context.session in sessions {
        var active := sessions[context.session];
        var problem := ActiveProblem(active, context, binding);
        if problem.Some? {
          r := Refused(problem.value);
          Answer(op, r);
          return;
        }
        ops := ops[op := Stopping(context, active.actor)];
      } else {
        ops := ops[op := Unpreparing(context, binding)];
      }
      assert Abs() == Next(s, trace[0]);
      Await(meanwhile, op);
      RunMore(s, trace, meanwhile);
      trace := trace + meanwhile;
      ghost var last: Step;
      r, last := FinishStop(op);
      RunOne(s, trace, last);
      trace := trace + [last];
    }

    method FinishStop(op: nat) returns (r: Reply, ghost last: Step)
      requires op in ops && (ops[op].Stopping? || ops[op].Unpreparing?)
      modifies this
      ensures Abs() == Next(old(Abs()), last) && op in ops && ops[op] == Done(r)
    {
      hide PreparedProblem;
      last := Proceed(op, false);
      r := Stopped;
      var context := ops[op].context;
      var id := context.session;
      if ops[op].Stopping? {
        if !Finished(actors, ops[op].actor) {
          last := GiveUp(op);
          r := Refused(DidNotStop);
        } else if id in sessions && sessions[id].context.generation == context.generation {
          sessions := sessions - {id};
        }
      } else if id in prepared {
        var problem := PreparedProblem(prepared[id], now, context, ops[op].binding);
        if problem.Some? {
          r := Refused(problem.value);
        } else {
          RemovePrepared(id, ByStop(now, context, ops[op].binding));
        }
      }
      Answer(op, r);
    }

    method BeginDraining()
      modifies this`accepting
      ensures Abs() == Next(old(Abs()), Step.BeginDraining)
    {
      accepting := false;
    }

    /** Other operations run while a drain waits. */
    method Elapse(steps: seq<Step>)
      modifies this
      ensures Abs() == Run(old(Abs()), steps)
    {
      RunConstants(Abs(), steps);
      var t := Run(Abs(), steps);
      now, accepting, sessions, prepared, actors := t.now, t.accepting, t.sessions, t.prepared, t.actors;
      ops, created, preparations, departures, leases := t.ops, t.created, t.preparations, t.departures, t.leases;
    }

    /** Empty the prepared registry, in whatever order its entries come. */
    method EmptyPrepared() returns (ghost order: seq<string>)
      modifies this`prepared, this`departures
      ensures Abs() == Next(old(Abs()), DrainPrepared(order)) && prepared == map[]
    {
      var entries := Enumerate(prepared);
      order := entries;
      departures := DrainAll(Abs(), entries).departures;
      prepared := map[];
    }

    /** Refuse newcomers, empty the prepared registry, ask the running actors to stop, wait, force
        those that remain, wait again, and abort what is still registered and running. The states
        in which it asked and in which the grace period ended are `stopping` and `late`. */
    method Drain(closing: seq<Step>, publishing: seq<Step>, grace: seq<Step>, force: seq<Step>)
      returns (report: DrainReport, ghost before: seq<Step>, ghost stopping: Shard, ghost late: Shard)
      modifies this
      ensures stopping == Run(old(Abs()), before) && late == Run(stopping, grace)
      ensures Abs() == Run(late, if report.forced == 0 then [] else force)
      ensures report == ReportOf(stopping, late, Abs())
    {
      hide Run, Next, Handles, Remaining;
      ghost var s := Abs();
      BeginDraining();
      RunFirst(s, Step.BeginDraining);
      Elapse(closing);
      RunMore(s, [Step.BeginDraining], closing);
      ghost var order := EmptyPrepared();
      before := [Step.BeginDraining] + closing;
      RunOne(s, before, DrainPrepared(order));
      before := before + [DrainPrepared(order)];
      Elapse(publishing);
      RunMore(s, before, publishing);
      before := before + publishing;
      stopping := Abs();
      var handles := Handles(Abs());
      Elapse(grace);
      late := Abs();
      RunNone(late);
      var forced := |Remaining(handles, actors)|;
      if Remaining(handles, actors) == {} {
        return DrainReport(|handles|, 0, 0), before, stopping, late;
      }
      Elapse(force);
      var aborted := if Remaining(handles, actors) == {} then 0 else |Handles(Abs())|;
      report := DrainReport(if forced <= |handles| then |handles| - forced else 0, forced, aborted);
    }
  }

  /** The keys of a registry, in some order. */
  method Enumerate(prepared: map<string, Prepared>) returns (order: seq<string>)
    ensures Enumerates(order, prepared)
  {
    order := [];
    var left := prepared.Keys;
    while left != {}
      invariant Distinct(order) && left <= prepared.Keys
      invariant forall id :: id in prepared <==> id in left || id in order
      invariant forall id :: id in left ==> id !in order
      decreases left
    {
      var id :| id in left;
      order, left := order + [id], left - {id};
    }
  }

  lemma {:induction false} RunConstants(s: Shard, steps: seq<Step>)
    ensures Run(s, steps).maxSessions == s.maxSessions && Run(s, steps).ttl == s.ttl
    decreases |steps|
  {
    if steps != [] {
      hide Next;
      NextMax(s, steps[0]);
      NextTtl(s, steps[0]);
      RunConstants(Next(s, steps[0]), steps[1..]);
    }
  }

  lemma NextTtl(s: Shard, step: Step)
    ensures Next(s, step).ttl == s.ttl
  {
    hide Open, Continue, Enumerates;
    if Opens(step) {
      OpenTtl(s, step);
    } else if step.Proceed? && step.op in s.ops {
      ContinueTtl(s, step.op, step.spawns);
    }
  }

  lemma OpenTtl(s: Shard, step: Step)
    requires Opens(step)
    ensures Open(s, step).ttl == s.ttl
  {
    hide Reaped, PreparedProblem, ActiveProblem;
    ReapedParts(s);
  }

  lemma ContinueTtl(s: Shard, op: nat, spawns: bool)
    requires op in s.ops
    ensures Continue(s, op, spawns).ttl == s.ttl
  {
    hide Reaped, PreparedProblem;
    ReapedParts(s);
  }
}
