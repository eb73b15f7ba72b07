/** `execute` in the form of the program: one call working on the shared ledger and permits, with
    other calls running wherever it waits. It is proved to be a run of the step machine. */
module ToolCoordinator {
  import opened Common
  import opened ToolLedger

  /** What happens around one call: steps of other calls while it waits for a permit, while its
      executor runs and before it settles; whether it is cancelled on arrival, while it waits,
      before its executor starts, or while it runs; and the executor's reply, if the call's future
      is not dropped first. */
  datatype Environment = Environment(
    cancelledOnArrival: bool,
    waiting: seq<Step>, cancelledWaiting: bool, droppedWaiting: bool,  // dropped too if no permit came
    cancelledAtStart: bool,
    running: seq<Step>, cancelledRunning: bool, reply: Option<Reply>,
    settling: seq<Step>)

  predicate Elsewhere(steps: seq<Step>, id: nat) {
    forall k :: 0 <= k < |steps| ==> steps[k].id != id
  }

  lemma {:induction false} RunOne(s: Coordinator, trace: seq<Step>, a: Step)
    ensures Run(s, trace + [a]) == Next(Run(s, trace), a)
    decreases |trace|
  {
    hide Next;
    if trace == [] {
      assert trace + [a] == [a] && [a][1..] == [];
      assert Run(Next(s, a), []) == Next(s, a);
    } else {
      assert (trace + [a])[0] == trace[0] && (trace + [a])[1..] == trace[1..] + [a];
      RunOne(Next(s, trace[0]), trace[1..], a);
    }
  }

  lemma {:induction false} RunMore(s: Coordinator, trace: seq<Step>, more: seq<Step>)
    ensures Run(s, trace + more) == Run(Run(s, trace), more)
    decreases |trace|
  {
    hide Next;
    if trace == [] {
      assert trace + more == more;
    } else {
      assert (trace + more)[0] == trace[0] && (trace + more)[1..] == trace[1..] + more;
      RunMore(Next(s, trace[0]), trace[1..], more);
    }
  }

  /** Other calls leave this one where it is. */
  lemma {:induction false} OthersKeep(s: Coordinator, steps: seq<Step>, id: nat)
    requires Elsewhere(steps, id) && id in s.calls
    ensures var t := Run(s, steps);
            id in t.calls && t.calls[id] == s.calls[id] && t.config == s.config
    decreases |steps|
  {
    if steps != [] {
      hide Next;
      NextMoves(s, steps[0]);
      OthersKeep(Next(s, steps[0]), steps[1..], id);
    }
  }

  class Tools {
    const config: Config
    var ledger: map<string, Entry>
    var permits: nat
    var calls: map<nat, Call>      // every call and how far it has come
    var starts: seq<nat>

    function Abs(): Coordinator
      reads this
    {
      Coordinator(config, ledger, permits, calls, starts)
    }

    constructor (config: Config)
      ensures Abs() == Start(config)
    {
      this.config := config;
      ledger, permits, calls, starts := map[], config.maxConcurrent, map[], [];
    }

    /** The other calls' steps while this one waits. */
    method Await(steps: seq<Step>, ghost id: nat)
      requires Elsewhere(steps, id) && id in calls
      modifies this
      ensures Abs() == Run(old(Abs()), steps) && id in calls && calls[id] == old(calls[id])
    {
      OthersKeep(Abs(), steps, id);
      var t := Run(Abs(), steps);
      ledger, permits, calls, starts := t.ledger, t.permits, t.calls, t.starts;
    }

    /** One call from its checks to its answer; `None` when its future was dropped on the way. */
    method Execute(id: nat, invocation: Invocation, env: Environment)
      returns (r: Option<Result<Output, ToolError>>, ghost trace: seq<Step>)
      requires id !in calls
      requires Elsewhere(env.waiting, id) && Elsewhere(env.running, id) && Elsewhere(env.settling, id)
      modifies this
      ensures Abs() == Run(old(Abs()), trace)
      ensures id in calls && calls[id].invocation == invocation
      ensures calls[id].stage == if r.Some? then Returned(r.value) else Dropped
    {
      hide LedgerKey, Found, Settled, Screen, Settlement, Elsewhere;
      ghost var s := Abs();
      var refusal := Screen(config, invocation);
      if refusal.Some? {
        calls := calls[id := Call(invocation, Returned(Err(refusal.value)), false, None)];
        trace := [Enter(id, invocation)];
        RunOne(s, [], Enter(id, invocation));
        return Some(Err(refusal.value)), trace;
      }
      calls := calls[id := Call(invocation, Queued, false, None)];
      RunOne(s, [], Enter(id, invocation));
      assert Abs() == Run(s, [Enter(id, invocation)]);
      ghost var rest: seq<Step>;
      r, rest := Acquire(id, env);
      RunMore(s, [Enter(id, invocation)], rest);
      trace := [Enter(id, invocation)] + rest;
    }

    /** Wait for a permit; a cancellation that is there when the call is polled wins. */
    method Acquire(id: nat, env: Environment) returns (r: Option<Result<Output, ToolError>>, ghost trace: seq<Step>)
      requires id in calls && calls[id].stage.Queued?
      requires Elsewhere(env.waiting, id) && Elsewhere(env.running, id) && Elsewhere(env.settling, id)
      modifies this
      ensures Abs() == Run(old(Abs()), trace) && Ended(old(calls[id]), r, id)
    {
      hide LedgerKey, Found, Settled, Screen, Settlement, Elsewhere;
      ghost var s := Abs();
      var call := calls[id];
      if env.cancelledOnArrival {
        calls := calls[id := call.(stage := Returned(Err(Cancelled)))];
        RunOne(s, [], CancelQueued(id));
        return Some(Err(Cancelled)), [CancelQueued(id)];
      }
      Await(env.waiting, id);
      ghost var waited := Abs();
      if env.cancelledWaiting {
        calls := calls[id := call.(stage := Returned(Err(Cancelled)))];
        RunOne(s, env.waiting, CancelQueued(id));
        return Some(Err(Cancelled)), env.waiting + [CancelQueued(id)];
      }
      if env.droppedWaiting || permits == 0 {
        calls := calls[id := call.(stage := Dropped)];
        RunOne(s, env.waiting, Drop(id));
        return None, env.waiting + [Drop(id)];
      }
      permits := permits - 1;
      calls := calls[id := call.(stage := Holding)];
      RunOne(s, env.waiting, Permit(id));
      assert Abs() == Next(waited, Permit(id));
      ghost var rest: seq<Step>;
      r, rest := Consult(id, env);
      RunMore(s, env.waiting + [Permit(id)], rest);
      trace := env.waiting + [Permit(id)] + rest;
    }

    /** The first lock-held section, then the executor. */
    method Consult(id: nat, env: Environment) returns (r: Option<Result<Output, ToolError>>, ghost trace: seq<Step>)
      requires id in calls && calls[id].stage.Holding?
      requires Elsewhere(env.running, id) && Elsewhere(env.settling, id)
      modifies this
      ensures Abs() == Run(old(Abs()), trace) && Ended(old(calls[id]), r, id)
    {
      hide LedgerKey, Settled, Screen, Settlement, Elsewhere;
      ghost var s := Abs();
      var call := calls[id];
      var key := LedgerKey(call.invocation);
      RunOne(s, [], ToolLedger.Consult(id));
      var answer := None;
      if key in ledger {
        match ledger[key]
        case InFlight => answer := Some(Err(AlreadyInFlight));
        case Completed(value) => answer := Some(Ok(Output(value, true)));
        case CommitOnceUncertain(cause) => answer := Some(Err(Uncertain(cause)));
      } else if |ledger| >= MAX_TOOL_LEDGER_ENTRIES {
        answer := Some(Err(LedgerCapacity));
      }
      assert answer == Found(ledger, key);
      if answer.Some? {
        permits := permits + 1;
        calls := calls[id := call.(stage := Returned(answer.value))];
        return answer, [ToolLedger.Consult(id)];
      }
      ledger := ledger[key := InFlight];
      calls := calls[id := call.(stage := Armed, armed := true)];
      assert Abs() == Next(s, ToolLedger.Consult(id));
      ghost var rest: seq<Step>;
      r, rest := RunExecutor(id, env);
      RunMore(s, [ToolLedger.Consult(id)], rest);
      trace := [ToolLedger.Consult(id)] + rest;
    }

    /** Run the executor, then settle what came of it. */
    method RunExecutor(id: nat, env: Environment) returns (r: Option<Result<Output, ToolError>>, ghost trace: seq<Step>)
      requires id in calls && calls[id].stage.Armed?
      requires Elsewhere(env.running, id) && Elsewhere(env.settling, id)
      modifies this
      ensures Abs() == Run(old(Abs()), trace) && Ended(old(calls[id]), r, id)
    {
      hide Next, Run, Elsewhere;
      ghost var s := Abs();
      r, trace := Race(id, env);
      if !calls[id].stage.Settling? {
        return;
      }
      RunMore(s, trace, env.settling);
      Await(env.settling, id);
      trace := trace + env.settling;
      RunOne(s, trace, ToolLedger.Settle(id));
      r := Settle(id);
      trace := trace + [ToolLedger.Settle(id)];
    }

    /** Race the executor against cancellation and the deadline; cancellation is polled first. */
    method Race(id: nat, env: Environment) returns (r: Option<Result<Output, ToolError>>, ghost trace: seq<Step>)
      requires id in calls && calls[id].stage.Armed? && Elsewhere(env.running, id)
      modifies this
      ensures Abs() == Run(old(Abs()), trace)
      ensures id in calls && calls[id].invocation == old(calls[id]).invocation
      ensures calls[id].stage.Settling? || Ended(old(calls[id]), r, id)
    {
      hide LedgerKey, Settled, Found, Screen, Elsewhere;
      ghost var s := Abs();
      r := None;
      if env.cancelledAtStart {
        Finished(id, Settling(Err(Cancelled)));
        trace := [CancelRun(id)];
        RunOne(s, [], CancelRun(id));
        return;
      }
      calls, starts := calls[id := calls[id].(stage := Executing)], starts + [id];
      RunOne(s, [], Launch(id));
      assert Abs() == Run(s, [Launch(id)]);
      hide Next, Run;
      RunMore(s, [Launch(id)], env.running);
      Await(env.running, id);
      trace := [Launch(id)] + env.running;
      ghost var last: Step;
      r, last := Outcome(id, env);
      RunOne(s, trace, last);
      trace := trace + [last];
    }

    /** What ends the race. */
    method Outcome(id: nat, env: Environment) returns (r: Option<Result<Output, ToolError>>, ghost last: Step)
      requires id in calls && calls[id].stage.Executing?
      modifies this
      ensures Abs() == Next(old(Abs()), last)
      ensures id in calls && calls[id].invocation == old(calls[id]).invocation
      ensures calls[id].stage.Settling? || Ended(old(calls[id]), r, id)
    {
      r := None;
      if env.cancelledRunning {
        last := CancelRun(id);
        Finished(id, Settling(Err(Cancelled)));
      } else if env.reply.None? {
        last := Drop(id);
        Finished(id, Dropped);
      } else {
        last := Finish(id, env.reply.value);
        calls := calls[id := calls[id].(reply := env.reply)];
        var settlement := Settlement(config, env.reply.value);
        if settlement.None? {
          Finished(id, Returned(Err(Unserializable)));
          r := Some(Err(Unserializable));
        } else {
          Finished(id, Settling(settlement.value));
        }
      }
    }

    /** Leave the executor, giving the permit back. */
    method Finished(id: nat, stage: Stage)
      requires id in calls && (calls[id].stage.Armed? || calls[id].stage.Executing?) && !Holds(stage)
      modifies this`permits, this`calls
      ensures Abs() == Move(old(Abs()), id, stage)
      ensures calls == old(calls)[id := old(calls[id]).(stage := stage)]
    {
      permits := permits + 1;
      calls := calls[id := calls[id].(stage := stage)];
    }

    /** The second lock-held section. */
    method Settle(id: nat) returns (r: Option<Result<Output, ToolError>>)
      requires id in calls && calls[id].stage.Settling?
      modifies this
      ensures Abs() == Next(old(Abs()), ToolLedger.Settle(id)) && Ended(old(calls[id]), r, id)
    {
      hide LedgerKey;
      var call := calls[id];
      var key := LedgerKey(call.invocation);
      match call.stage.settled {
        case Ok(value) =>
          ledger := ledger[key := Completed(value)];
          r := Some(Ok(Output(value, false)));
        case Err(error) =>
          if CommitsOnce(config, call.invocation) {
            ledger := ledger[key := CommitOnceUncertain(error)];
          } else {
            ledger := ledger - {key};
          }
          r := Some(Err(error));
      }
      calls := calls[id := call.(stage := Returned(r.value))];
    }

    /** The call is over, with the answer given. */
    ghost predicate Ended(before: Call, r: Option<Result<Output, ToolError>>, id: nat)
      reads this
    {
      && id in calls && calls[id].invocation == before.invocation
      && calls[id].stage == if r.Some? then Returned(r.value) else Dropped
    }
  }
}
