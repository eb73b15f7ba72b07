/** The tool coordinator as a step machine: calls that wait for a permit, consult the idempotency
    ledger under its lock, run the executor, and settle under the lock again, interleaved in any
    order, with cancellations, timeouts, oversize or unserializable outputs and futures dropped at
    any point. */
module ToolLedger {
  import opened Common
  import opened Json
  import opened ToolSchema

  const MAX_TOOL_VALUE_BYTES: nat := 64 * 1024
  const MAX_TOOL_LEDGER_ENTRIES: nat := 1024

  datatype SideEffect = NoEffect | Idempotent | CommitOnce

  datatype Definition = Definition(sideEffect: SideEffect, inputSchema: Schema)

  /** `size` is the encoded size of a value, if it can be encoded. */
  datatype Config = Config(definitions: map<string, Definition>, maxConcurrent: nat, size: Value -> Option<nat>)

  datatype Invocation = Invocation(tool: string, key: string, callId: string, input: Value)

  datatype ToolError =
    | Undeclared | MissingIdempotencyKey | InvalidInput | AlreadyInFlight | Uncertain(cause: ToolError)
    | Timeout | Cancelled | Provider(message: string) | LedgerCapacity | OutputTooLarge | Unserializable

  datatype Entry = InFlight | Completed(value: Value) | CommitOnceUncertain(cause: ToolError)

  datatype Output = Output(value: Value, cached: bool)

  datatype Stage =
    | Queued                                     // waiting for a permit
    | Holding                                    // has a permit, has not consulted the ledger
    | Armed                                      // entered in the ledger, executor not started
    | Executing
    | Settling(settled: Result<Value, ToolError>)  // executor done, permit returned
    | Returned(result: Result<Output, ToolError>)
    | Dropped

  /** `armed` remembers that the call entered itself in the ledger, `reply` what its executor said. */
  datatype Call = Call(invocation: Invocation, stage: Stage, armed: bool, reply: Option<Reply>)

  datatype Coordinator = Coordinator(
    config: Config,
    ledger: map<string, Entry>,
    permits: nat,
    calls: map<nat, Call>,
    starts: seq<nat>)             // the calls whose executor was started, in order

  function Start(config: Config): Coordinator {
    Coordinator(config, map[], config.maxConcurrent, map[], [])
  }

  // ---------- names and keys ----------

  predicate Letter(c: char) {
    'a' <= c <= 'z' || 'A' <= c <= 'Z'
  }

  /** Tool names as the deployment manifest allows them. */
  predicate ValidName(name: string) {
    && 1 <= |name| <= 64 && Letter(name[0])
    && forall i :: 0 < i < |name| ==> Letter(name[i]) || '0' <= name[i] <= '9' || name[i] == '_' || name[i] == '-'
  }

  predicate ValidConfig(c: Config) {
    c.maxConcurrent > 0 && forall name :: name in c.definitions ==> ValidName(name)
  }

  function LedgerKey(i: Invocation): string {
    i.tool + ":" + i.key
  }

  /** The first colon of a ledger key ends the tool's name. */
  lemma ColonFollowsName(i: Invocation)
    requires ValidName(i.tool)
    ensures LedgerKey(i)[|i.tool|] == ':' && forall k :: 0 <= k < |i.tool| ==> LedgerKey(i)[k] != ':'
    ensures LedgerKey(i)[..|i.tool|] == i.tool && LedgerKey(i)[|i.tool| + 1..] == i.key
  {
    assert forall k :: 0 <= k < |i.tool| ==> LedgerKey(i)[k] == i.tool[k];
  }

  /** Joining a valid tool name and a key is injective. */
  lemma LedgerKeyInjective(i: Invocation, j: Invocation)
    requires ValidName(i.tool) && ValidName(j.tool)
    ensures LedgerKey(i) == LedgerKey(j) <==> i.tool == j.tool && i.key == j.key
  {
    ColonFollowsName(i);
    ColonFollowsName(j);
    hide ValidName, LedgerKey;
    if LedgerKey(i) == LedgerKey(j) {
      assert |i.tool| == |j.tool|;
    }
  }

  // ---------- steps ----------

  /** The checks before a call waits for its permit. */
  function Screen(c: Config, i: Invocation): Option<ToolError> {
    if i.tool !in c.definitions then Some(Undeclared)
    else if |i.key| == 0 || |i.key| > 200 then Some(MissingIdempotencyKey)
    else if |i.callId| == 0 || |i.callId| > 160 || |i.tool| > 64 then Some(InvalidInput)
    else if c.size(i.input).None? then Some(Unserializable)
    else if c.size(i.input).value > MAX_TOOL_VALUE_BYTES then Some(InvalidInput)
    else if ValidateInstance(c.definitions[i.tool].inputSchema, i.input, 0).Err? then Some(InvalidInput)
    else None
  }

  datatype Reply = Answer(value: Value) | ProviderCancelled | ProviderFails(message: string) | TimesOut

  /** What the executor's reply becomes; an output that cannot be encoded has no settlement. */
  function Settlement(c: Config, reply: Reply): Option<Result<Value, ToolError>> {
    match reply
    case Answer(value) =>
      if c.size(value).None? then None
      else if c.size(value).value > MAX_TOOL_VALUE_BYTES then Some(Err(OutputTooLarge))
      else Some(Ok(value))
    case ProviderCancelled => Some(Err(Cancelled))
    case ProviderFails(message) => Some(Err(Provider(message)))
    case TimesOut => Some(Err(Timeout))
  }

  predicate CommitsOnce(c: Config, i: Invocation) {
    i.tool in c.definitions && c.definitions[i.tool].sideEffect.CommitOnce?
  }

  /** The first lock-held section: what a call finds, `None` when it entered itself. */
  function Found(ledger: map<string, Entry>, key: string): Option<Result<Output, ToolError>> {
    if key in ledger then
      match ledger[key]
      case InFlight => Some(Err(AlreadyInFlight))
      case Completed(value) => Some(Ok(Output(value, true)))
      case CommitOnceUncertain(cause) => Some(Err(Uncertain(cause)))
    else if |ledger| >= MAX_TOOL_LEDGER_ENTRIES then Some(Err(LedgerCapacity))
    else None
  }

  /** The second lock-held section. */
  function Settled(ledger: map<string, Entry>, key: string, r: Result<Value, ToolError>, once: bool): map<string, Entry> {
    match r
    case Ok(value) => ledger[key := Completed(value)]
    case Err(error) => if once then ledger[key := CommitOnceUncertain(error)] else ledger - {key}
  }

  datatype Step =
    | Enter(id: nat, invocation: Invocation)
    | CancelQueued(id: nat)
    | Permit(id: nat)
    | Consult(id: nat)
    | Launch(id: nat)
    | CancelRun(id: nat)
    | Finish(id: nat, reply: Reply)
    | Settle(id: nat)
    | Drop(id: nat)

  predicate Holds(stage: Stage) {
    stage.Holding? || stage.Armed? || stage.Executing?
  }

  predicate Unfinished(stage: Stage) {
    !stage.Returned? && !stage.Dropped?
  }

  /** Move a call to a new stage; its permit goes back when it no longer holds it. */
  function Move(s: Coordinator, id: nat, stage: Stage): Coordinator
    requires id in s.calls
  {
    s.(calls := s.calls[id := s.calls[id].(stage := stage)],
       permits := if Holds(s.calls[id].stage) && !Holds(stage) then s.permits + 1 else s.permits)
  }

  function ConsultLedger(s: Coordinator, id: nat): Coordinator
    requires id in s.calls
  {
    var c := s.calls[id];
    var key := LedgerKey(c.invocation);
    var found := Found(s.ledger, key);
    if found.Some? then Move(s, id, Returned(found.value))
    else s.(ledger := s.ledger[key := InFlight], calls := s.calls[id := c.(stage := Armed, armed := true)])
  }

  function SettleLedger(s: Coordinator, id: nat): Coordinator
    requires id in s.calls && s.calls[id].stage.Settling?
  {
    var c := s.calls[id];
    var r := c.stage.settled;
    var moved := Move(s, id, Returned(if r.Ok? then Ok(Output(r.value, false)) else Err(r.error)));
    moved.(ledger := Settled(s.ledger, LedgerKey(c.invocation), r, CommitsOnce(s.config, c.invocation)))
  }

  function Replied(s: Coordinator, id: nat, reply: Reply): Coordinator
    requires id in s.calls
  {
    s.(calls := s.calls[id := s.calls[id].(reply := Some(reply))])
  }

  function FinishCall(s: Coordinator, id: nat, reply: Reply): Coordinator
    requires id in s.calls
  {
    var settlement := Settlement(s.config, reply);
    Move(Replied(s, id, reply), id, if settlement.None? then Returned(Err(Unserializable)) else Settling(settlement.value))
  }

  /** A step that is not enabled changes nothing. */
  function Next(s: Coordinator, step: Step): Coordinator {
    if step.Enter? then
      if step.id in s.calls then s
      else
        var refusal := Screen(s.config, step.invocation);
        s.(calls := s.calls[step.id := Call(step.invocation, if refusal.Some? then Returned(Err(refusal.value)) else Queued, false, None)])
    else if step.id !in s.calls then s
    else
      var stage := s.calls[step.id].stage;
      match step
      case CancelQueued(id) => if stage.Queued? then Move(s, id, Returned(Err(Cancelled))) else s
      case Permit(id) =>
        if stage.Queued? && s.permits > 0 then Move(s, id, Holding).(permits := s.permits - 1) else s
      case Consult(id) => if stage.Holding? then ConsultLedger(s, id) else s
      case Launch(id) => if stage.Armed? then Move(s, id, Executing).(starts := s.starts + [id]) else s
      case CancelRun(id) => if stage.Armed? || stage.Executing? then Move(s, id, Settling(Err(Cancelled))) else s
      case Finish(id, reply) => if stage.Executing? then FinishCall(s, id, reply) else s
      case Settle(id) => if stage.Settling? then SettleLedger(s, id) else s
      case Drop(id) => if Unfinished(stage) then Move(s, id, Dropped) else s
      case Enter(_, _) => s
  }

  function Run(s: Coordinator, steps: seq<Step>): Coordinator
    decreases |steps|
  {
    if steps == [] then s else Run(Next(s, steps[0]), steps[1..])
  }

  // ---------- what every step keeps ----------

  /** Entered in the ledger and not yet settled. */
  predicate Active(stage: Stage) {
    stage.Armed? || stage.Executing? || stage.Settling?
  }

  /** Entered in the ledger and gone without settling: dropped, or its output could not be encoded. */
  predicate Abandoned(c: Call) {
    c.armed && (c.stage.Dropped? || c.stage == Returned(Err(Unserializable)))
  }

  /** The call an in-flight entry stands for. */
  predicate Owner(c: Call) {
    Active(c.stage) || Abandoned(c)
  }

  function Holders(calls: map<nat, Call>): set<nat> {
    set id | id in calls && Holds(calls[id].stage)
  }

  ghost predicate PermitsOk(s: Coordinator) {
    s.permits + |Holders(s.calls)| == s.config.maxConcurrent
  }

  /** One call and its ledger entry. */
  ghost predicate CallOk(c: Call, config: Config, ledger: map<string, Entry>) {
    var key := LedgerKey(c.invocation);
    && (Unfinished(c.stage) || c.armed || (c.stage.Returned? && c.stage.result.Ok?) ==> c.invocation.tool in config.definitions)
    && (Owner(c) ==> c.armed && key in ledger && ledger[key].InFlight?)
    && (c.stage.Settling? && c.stage.settled.Err? ==> c.stage.settled.error != Unserializable)
    && (c.stage.Queued? || c.stage.Holding? ==> !c.armed)
    && (c.stage.Returned? && c.stage.result.Ok? ==> key in ledger && ledger[key] == Completed(c.stage.result.value.value))
    && (c.armed && CommitsOnce(config, c.invocation) ==> key in ledger)
    && (Failed(c) && CommitsOnce(config, c.invocation) ==> key in ledger && ledger[key] == CommitOnceUncertain(c.stage.result.error))
  }

  /** Failed after its executor was done, and settled. */
  predicate Failed(c: Call) {
    c.armed && c.stage.Returned? && c.stage.result.Err? && !Abandoned(c)
  }

  /** Two calls with the same ledger key: not both owners, and not both armed if it commits once. */
  ghost predicate PairOk(a: Call, b: Call, config: Config) {
    LedgerKey(a.invocation) == LedgerKey(b.invocation) ==>
      && !(Owner(a) && Owner(b))
      && !(a.armed && b.armed && CommitsOnce(config, a.invocation))
  }

  /** The call an entry stands for. */
  predicate Accounts(c: Call, config: Config, key: string, entry: Entry) {
    && c.armed && LedgerKey(c.invocation) == key
    && match entry
       case InFlight => Owner(c)
       case Completed(value) => c.stage == Returned(Ok(Output(value, false)))
       case CommitOnceUncertain(cause) => CommitsOnce(config, c.invocation) && Failed(c) && c.stage.result.error == cause
  }

  ghost predicate Witnessed(calls: map<nat, Call>, config: Config, key: string, entry: Entry) {
    exists id :: id in calls && Accounts(calls[id], config, key, entry)
  }

  ghost predicate CallsOk(s: Coordinator) {
    && (forall id :: id in s.calls ==> CallOk(s.calls[id], s.config, s.ledger))
    && (forall i, j :: i in s.calls && j in s.calls && i != j ==> PairOk(s.calls[i], s.calls[j], s.config))
  }

  ghost predicate LedgerOk(s: Coordinator) {
    && |s.ledger| <= MAX_TOOL_LEDGER_ENTRIES
    && (forall key :: key in s.ledger ==> Witnessed(s.calls, s.config, key, s.ledger[key]))
  }

  /** Only armed calls start, each at most once. */
  ghost predicate StartsOk(s: Coordinator) {
    && (forall n :: 0 <= n < |s.starts| ==> s.starts[n] in s.calls && s.calls[s.starts[n]].armed && !s.calls[s.starts[n]].stage.Armed?)
    && Distinct(s.starts)
  }

  // ---------- evidence ----------

  /** An encoded value within the tool value limit. */
  predicate Encodes(c: Config, v: Value) {
    c.size(v).Some? && c.size(v).value <= MAX_TOOL_VALUE_BYTES
  }

  /** What an executor must have said, or not said, for a failure to be settled so. */
  predicate Excuses(c: Config, reply: Option<Reply>, error: ToolError) {
    match error
    case Timeout => reply == Some(TimesOut)
    case Provider(message) => reply == Some(ProviderFails(message))
    case OutputTooLarge => reply.Some? && reply.value.Answer? && c.size(reply.value.value).Some? && !Encodes(c, reply.value.value)
    case Unserializable => reply.Some? && reply.value.Answer? && c.size(reply.value.value).None?
    case Cancelled => reply == None || reply == Some(ProviderCancelled)
    case _ => false
  }

  /** A call past its checks passed them, one that failed them was answered at once; what a call
      returns is what its executor said. */
  predicate Evidence(c: Call, config: Config) {
    && (Screen(config, c.invocation).Some? ==>
          c.stage == Returned(Err(Screen(config, c.invocation).value)) && !c.armed && c.reply.None?)
    && (c.stage.Queued? || c.stage.Holding? || c.stage.Armed? || c.stage.Executing? || !c.armed ==> c.reply.None?)
    && (c.stage.Settling? ==> if c.stage.settled.Ok? then c.reply == Some(Answer(c.stage.settled.value)) && Encodes(config, c.stage.settled.value)
                              else Excuses(config, c.reply, c.stage.settled.error))
    && (c.armed && c.stage.Returned? ==>
          if c.stage.result.Ok? then
            !c.stage.result.value.cached && c.reply == Some(Answer(c.stage.result.value.value)) && Encodes(config, c.stage.result.value.value)
          else Excuses(config, c.reply, c.stage.result.error))
  }

  ghost predicate EvidenceOk(s: Coordinator) {
    forall id :: id in s.calls ==> Evidence(s.calls[id], s.config)
  }

  ghost predicate Inv(s: Coordinator) {
    ValidConfig(s.config) && PermitsOk(s) && CallsOk(s) && LedgerOk(s) && StartsOk(s) && EvidenceOk(s)
  }

  // ---------- permits ----------

  lemma HoldersStep(calls: map<nat, Call>, id: nat, c: Call)
    ensures var was := id in calls && Holds(calls[id].stage);
            |Holders(calls[id := c])| == |Holders(calls)| - (if was then 1 else 0) + (if Holds(c.stage) then 1 else 0)
  {
    hide Holds;
    var before, after := Holders(calls), Holders(calls[id := c]);
    forall k | k != id
      ensures k in before <==> k in after
    {
    }
    assert id in after <==> Holds(c.stage);
    assert id in before <==> id in calls && Holds(calls[id].stage);
    hide Holders;
    WithOne(before, before - {id}, id);
    WithOne(after, before - {id}, id);
  }

  lemma PermitsStep(s: Coordinator, step: Step)
    requires PermitsOk(s)
    ensures PermitsOk(Next(s, step))
  {
    var t := Next(s, step);
    if step.id in t.calls {
      HoldersStep(s.calls, step.id, t.calls[step.id]);
      NextMoves(s, step);
    }
    hide Holders, LedgerKey, Found, Settled, Screen, Settlement;
  }

  /** A step touches one call at most. */
  lemma NextMoves(s: Coordinator, step: Step)
    ensures var t := Next(s, step);
            t.config == s.config && (t.calls == s.calls || (step.id in t.calls && t.calls == s.calls[step.id := t.calls[step.id]]))
  {
    hide LedgerKey, Found, Settled, Screen, Settlement, Holds;
  }

  // ---------- calls ----------

  /** How a step may change a call without touching the ledger. */
  ghost predicate Passive(s: Coordinator, id: nat, c: Call) {
    && id in s.calls && c.invocation == s.calls[id].invocation && c.armed == s.calls[id].armed
    && CallOk(c, s.config, s.ledger) && (Owner(c) ==> Owner(s.calls[id]))
  }

  lemma PassiveOk(s: Coordinator, id: nat, c: Call)
    requires CallsOk(s) && Passive(s, id, c)
    ensures CallsOk(s.(calls := s.calls[id := c]))
  {
    hide CallOk, LedgerKey, CommitsOnce;
    var t := s.(calls := s.calls[id := c]);
    forall i, j | i in t.calls && j in t.calls && i != j
      ensures PairOk(t.calls[i], t.calls[j], t.config)
    {
      assert PairOk(s.calls[i], s.calls[j], s.config);
    }
  }

  /** A call whose key is not in the ledger enters itself. */
  lemma ArmedOk(s: Coordinator, id: nat)
    requires ValidConfig(s.config) && CallsOk(s) && id in s.calls && s.calls[id].stage.Holding?
    requires LedgerKey(s.calls[id].invocation) !in s.ledger
    ensures CallsOk(ConsultLedger(s, id)) || |s.ledger| >= MAX_TOOL_LEDGER_ENTRIES
  {
    var t := ConsultLedger(s, id);
    var c := s.calls[id];
    var key := LedgerKey(c.invocation);
    if |s.ledger| < MAX_TOOL_LEDGER_ENTRIES {
      assert t.ledger == s.ledger[key := InFlight];
      hide LedgerKey;
      forall i | i in t.calls
        ensures CallOk(t.calls[i], t.config, t.ledger)
      {
        assert CallOk(s.calls[i], s.config, s.ledger);
      }
      forall i, j | i in t.calls && j in t.calls && i != j
        ensures PairOk(t.calls[i], t.calls[j], t.config)
      {
        assert PairOk(s.calls[i], s.calls[j], s.config);
        assert CallOk(s.calls[i], s.config, s.ledger) && CallOk(s.calls[j], s.config, s.ledger);
        SameOnce(s.config, s.calls[i], s.calls[j]);
      }
    }
  }

  /** Calls with one ledger key are of one tool, so they agree on whether it commits once. */
  lemma SameOnce(config: Config, a: Call, b: Call)
    requires ValidConfig(config)
    ensures LedgerKey(a.invocation) == LedgerKey(b.invocation)
            && a.invocation.tool in config.definitions && b.invocation.tool in config.definitions ==>
              CommitsOnce(config, a.invocation) == CommitsOnce(config, b.invocation)
  {
    if a.invocation.tool in config.definitions && b.invocation.tool in config.definitions {
      LedgerKeyInjective(a.invocation, b.invocation);
    }
  }

  lemma SettledOk(s: Coordinator, id: nat)
    requires ValidConfig(s.config) && CallsOk(s) && id in s.calls && s.calls[id].stage.Settling?
    ensures CallsOk(SettleLedger(s, id))
  {
    var t := SettleLedger(s, id);
    var c := s.calls[id];
    assert CallOk(c, s.config, s.ledger);
    forall i | i in t.calls
      ensures CallOk(t.calls[i], t.config, t.ledger)
    {
      assert CallOk(s.calls[i], s.config, s.ledger);
      if i != id {
        assert PairOk(s.calls[i], c, s.config) && PairOk(c, s.calls[i], s.config);
        SameOnce(s.config, s.calls[i], c);
      }
      hide LedgerKey;
    }
    forall i, j | i in t.calls && j in t.calls && i != j
      ensures PairOk(t.calls[i], t.calls[j], t.config)
    {
      assert PairOk(s.calls[i], s.calls[j], s.config);
    }
  }

  lemma EnterOk(s: Coordinator, id: nat, invocation: Invocation)
    requires CallsOk(s)
    ensures CallsOk(Next(s, Enter(id, invocation)))
  {
    hide LedgerKey;
    var t := Next(s, Enter(id, invocation));
    forall i, j | i in t.calls && j in t.calls && i != j
      ensures PairOk(t.calls[i], t.calls[j], t.config)
    {
      if i in s.calls && j in s.calls {
        assert PairOk(s.calls[i], s.calls[j], s.config);
      }
    }
  }

  lemma CallsStep(s: Coordinator, step: Step)
    requires ValidConfig(s.config) && CallsOk(s)
    ensures CallsOk(Next(s, step))
  {
    hide LedgerKey, CommitsOnce, PairOk, Settlement, Screen, SettleLedger;
    if step.Enter? {
      EnterOk(s, step.id, step.invocation);
    } else if step.id in s.calls {
      var c := s.calls[step.id];
      assert CallOk(c, s.config, s.ledger);
      if step.Consult? && c.stage.Holding? && LedgerKey(c.invocation) !in s.ledger && |s.ledger| < MAX_TOOL_LEDGER_ENTRIES {
        ArmedOk(s, step.id);
      } else if step.Settle? && c.stage.Settling? {
        SettledOk(s, step.id);
      } else {
        QuietStep(s, step);
      }
    }
  }

  ghost predicate Quiet(s: Coordinator, step: Step) {
    && !step.Enter? && step.id in s.calls
    && !(step.Settle? && s.calls[step.id].stage.Settling?)
    && (step.Consult? && s.calls[step.id].stage.Holding? ==> Found(s.ledger, LedgerKey(s.calls[step.id].invocation)).Some?)
  }

  lemma QuietIsPassive(s: Coordinator, step: Step)
    requires Quiet(s, step) && CallOk(s.calls[step.id], s.config, s.ledger)
    ensures var t := Next(s, step);
            Passive(s, step.id, t.calls[step.id]) && t.ledger == s.ledger
  {
    hide LedgerKey, CommitsOnce, Screen, Holds;
  }

  lemma QuietStep(s: Coordinator, step: Step)
    requires CallsOk(s) && Quiet(s, step)
    ensures CallsOk(Next(s, step))
  {
    hide CallOk, PairOk, Quiet, Next;
    assert step.id in s.calls by {
      QuietKnown(s, step);
    }
    assert CallOk(s.calls[step.id], s.config, s.ledger);
    QuietIsPassive(s, step);
    NextMoves(s, step);
    var t := Next(s, step);
    PassiveOk(s, step.id, t.calls[step.id]);
    assert t.calls == s.calls[step.id := t.calls[step.id]];
  }

  lemma QuietKnown(s: Coordinator, step: Step)
    requires Quiet(s, step)
    ensures step.id in s.calls
  {
  }

  // ---------- ledger and starts ----------

  lemma LedgerStep(s: Coordinator, step: Step)
    requires CallsOk(s) && LedgerOk(s)
    ensures LedgerOk(Next(s, step))
  {
    hide LedgerKey, CommitsOnce, PairOk, Settlement, Screen, Holds, CallOk, Accounts, Next;
    var t := Next(s, step);
    NextMoves(s, step);
    LedgerBound(s, step);
    forall key | key in t.ledger
      ensures Witnessed(t.calls, t.config, key, t.ledger[key])
    {
      if step.id in s.calls && step.id in t.calls {
        assert CallOk(s.calls[step.id], s.config, s.ledger);
      }
      if key in s.ledger && s.ledger[key] == t.ledger[key] {
        var id :| id in s.calls && Accounts(s.calls[id], s.config, key, s.ledger[key]);
        if id == step.id {
          AccountsStill(s, step, key);
        }
        assert Accounts(t.calls[id], s.config, key, t.ledger[key]);
      } else {
        AccountsNow(s, step, key);
        assert Accounts(t.calls[step.id], s.config, key, t.ledger[key]);
      }
    }
  }

  lemma AccountsStill(s: Coordinator, step: Step, key: string)
    requires step.id in s.calls && key in s.ledger && Accounts(s.calls[step.id], s.config, key, s.ledger[key])
    requires CallOk(s.calls[step.id], s.config, s.ledger)
    requires key in Next(s, step).ledger && Next(s, step).ledger[key] == s.ledger[key]
    ensures Accounts(Next(s, step).calls[step.id], s.config, key, s.ledger[key])
  {
    hide LedgerKey, Screen, Holds;
  }

  lemma AccountsNow(s: Coordinator, step: Step, key: string)
    requires step.id in s.calls ==> CallOk(s.calls[step.id], s.config, s.ledger)
    requires key in Next(s, step).ledger && !(key in s.ledger && s.ledger[key] == Next(s, step).ledger[key])
    ensures step.id in Next(s, step).calls && Accounts(Next(s, step).calls[step.id], s.config, key, Next(s, step).ledger[key])
  {
    hide LedgerKey, Screen, Holds, Settlement;
  }

  lemma LedgerBound(s: Coordinator, step: Step)
    requires CallsOk(s) && |s.ledger| <= MAX_TOOL_LEDGER_ENTRIES
    ensures |Next(s, step).ledger| <= MAX_TOOL_LEDGER_ENTRIES
  {
    hide LedgerKey, CommitsOnce, PairOk, Settlement, Screen, Holds;
    if step.id in s.calls && step.Settle? && s.calls[step.id].stage.Settling? {
      assert CallOk(s.calls[step.id], s.config, s.ledger);
      var key := LedgerKey(s.calls[step.id].invocation);
      assert Next(s, step).ledger.Keys <= s.ledger.Keys;
      SubsetSize(Next(s, step).ledger.Keys, s.ledger.Keys);
    }
  }

  lemma StartsStep(s: Coordinator, step: Step)
    requires CallsOk(s) && StartsOk(s)
    ensures StartsOk(Next(s, step))
  {
    hide LedgerKey, CommitsOnce, PairOk, Settlement, Screen, Holds, Found, Settled;
    if step.id in s.calls {
      assert CallOk(s.calls[step.id], s.config, s.ledger);
    }
  }

  lemma EvidenceStep(s: Coordinator, step: Step)
    requires CallsOk(s) && EvidenceOk(s)
    ensures EvidenceOk(Next(s, step))
  {
    hide LedgerKey, CommitsOnce, PairOk, Screen, Holds, Found, Settled;
    NextMoves(s, step);
    var t := Next(s, step);
    if step.id in s.calls {
      assert CallOk(s.calls[step.id], s.config, s.ledger);
      assert Evidence(s.calls[step.id], s.config);
      OneEvidence(s, step);
    }
    hide Evidence, Next, CallOk;
  }

  lemma OneEvidence(s: Coordinator, step: Step)
    requires step.id in s.calls && CallOk(s.calls[step.id], s.config, s.ledger) && Evidence(s.calls[step.id], s.config)
    ensures Evidence(Next(s, step).calls[step.id], s.config)
  {
    hide LedgerKey, CommitsOnce, Screen, Holds, Found, Settled;
  }

  lemma StepInv(s: Coordinator, step: Step)
    requires Inv(s)
    ensures Inv(Next(s, step))
  {
    hide PermitsOk, CallsOk, LedgerOk, StartsOk, ValidConfig, Next, EvidenceOk;
    EvidenceStep(s, step);
    PermitsStep(s, step);
    CallsStep(s, step);
    LedgerStep(s, step);
    StartsStep(s, step);
    NextMoves(s, step);
  }

  lemma {:induction false} RunInv(s: Coordinator, steps: seq<Step>)
    requires Inv(s)
    ensures Inv(Run(s, steps)) && Run(s, steps).config == s.config
    decreases |steps|
  {
    if steps != [] {
      hide Inv, Next;
      StepInv(s, steps[0]);
      NextMoves(s, steps[0]);
      RunInv(Next(s, steps[0]), steps[1..]);
    }
  }

  lemma StartInv(config: Config)
    requires ValidConfig(config)
    ensures Inv(Start(config))
  {
    assert Holders(map[]) == {};
  }

  // ---------- the coordinator's promises, for every interleaving ----------

  predicate SamePair(i: Invocation, j: Invocation) {
    i.tool == j.tool && i.key == j.key
  }

  /** Executions for one tool and key never overlap. */
  lemma NeverOverlap(config: Config, steps: seq<Step>, i: nat, j: nat)
    requires ValidConfig(config)
    requires var s := Run(Start(config), steps);
             i in s.calls && j in s.calls && i != j && SamePair(s.calls[i].invocation, s.calls[j].invocation)
    ensures var s := Run(Start(config), steps);
            !(s.calls[i].stage.Executing? && s.calls[j].stage.Executing?)
  {
    StartInv(config);
    RunInv(Start(config), steps);
    var s := Run(Start(config), steps);
    hide Run, PermitsOk, LedgerOk, StartsOk, CallOk;
    assert PairOk(s.calls[i], s.calls[j], s.config);
  }

  /** The executor of a commit-once tool is started at most once for a key, ever. */
  lemma CommitOnceStartsOnce(config: Config, steps: seq<Step>, m: nat, n: nat)
    requires ValidConfig(config)
    requires m < n < |Run(Start(config), steps).starts|
    ensures var s := Run(Start(config), steps);
            && s.starts[m] in s.calls && s.starts[n] in s.calls
            && var a, b := s.calls[s.starts[m]].invocation, s.calls[s.starts[n]].invocation;
            SamePair(a, b) ==> !CommitsOnce(config, a)
  {
    StartInv(config);
    RunInv(Start(config), steps);
    var s := Run(Start(config), steps);
    hide Run, PermitsOk, LedgerOk, CallOk;
    assert s.starts[m] != s.starts[n];
    assert PairOk(s.calls[s.starts[m]], s.calls[s.starts[n]], s.config);
  }

  function Executions(s: Coordinator): set<nat> {
    set id | id in s.calls && s.calls[id].stage.Executing?
  }

  /** Within bounds: the ledger's entries, and the executors running at once. */
  lemma Bounded(config: Config, steps: seq<Step>)
    requires ValidConfig(config)
    ensures var s := Run(Start(config), steps);
            && |s.ledger| <= MAX_TOOL_LEDGER_ENTRIES
            && |Executions(s)| <= config.maxConcurrent
  {
    StartInv(config);
    RunInv(Start(config), steps);
    var s := Run(Start(config), steps);
    hide Run, CallsOk, StartsOk;
    SubsetSize(Executions(s), Holders(s.calls));
  }

  /** A cached answer was produced by an execution for the same tool and the same key. */
  lemma CachedIsOwn(config: Config, steps: seq<Step>, i: nat)
    requires ValidConfig(config)
    requires var s := Run(Start(config), steps);
             i in s.calls && s.calls[i].stage.Returned? && s.calls[i].stage.result.Ok? && s.calls[i].stage.result.value.cached
    ensures var s := Run(Start(config), steps);
            exists j :: && j in s.calls && SamePair(s.calls[i].invocation, s.calls[j].invocation)
                        && s.calls[j].stage == Returned(Ok(Output(s.calls[i].stage.result.value.value, false)))
  {
    StartInv(config);
    RunInv(Start(config), steps);
    var s := Run(Start(config), steps);
    hide Run, PermitsOk, StartsOk, PairOk;
    var c := s.calls[i];
    assert CallOk(c, s.config, s.ledger);
    var key, value := LedgerKey(c.invocation), c.stage.result.value.value;
    assert Witnessed(s.calls, s.config, key, Completed(value));
    var j :| j in s.calls && Accounts(s.calls[j], s.config, key, Completed(value));
    assert CallOk(s.calls[j], s.config, s.ledger);
    LedgerKeyInjective(c.invocation, s.calls[j].invocation);
  }

  // ---------- success is final ----------

  ghost predicate Succeeded(s: Coordinator, i: Invocation, value: Value) {
    i.tool in s.config.definitions && LedgerKey(i) in s.ledger && s.ledger[LedgerKey(i)] == Completed(value)
  }

  /** How often an executor was started for the tool and key of `i`. */
  function StartsFor(s: Coordinator, starts: seq<nat>, i: Invocation): nat {
    if starts == [] then 0
    else
      var last := starts[|starts| - 1];
      StartsFor(s, starts[..|starts| - 1], i) + (if last in s.calls && SamePair(s.calls[last].invocation, i) then 1 else 0)
  }

  lemma {:induction false} StartsForFrame(s: Coordinator, t: Coordinator, starts: seq<nat>, i: Invocation)
    requires forall id :: id in s.calls ==> id in t.calls && t.calls[id].invocation == s.calls[id].invocation
    requires forall n :: 0 <= n < |starts| ==> starts[n] in s.calls
    ensures StartsFor(t, starts, i) == StartsFor(s, starts, i)
  {
    if starts != [] {
      StartsForFrame(s, t, starts[..|starts| - 1], i);
    }
  }

  /** Only the call a step belongs to can start, and then it owns an in-flight entry. */
  lemma StartsGrow(s: Coordinator, step: Step)
    requires Inv(s)
    ensures var t := Next(s, step);
            && (forall id :: id in s.calls ==> id in t.calls && t.calls[id].invocation == s.calls[id].invocation)
            && (t.starts == s.starts
                || (t.starts == s.starts + [step.id] && step.id in s.calls && Owner(s.calls[step.id])))
  {
    hide Inv, Settlement, Screen, Holds, LedgerKey, Found, Settled;
  }

  /** A completed entry is nobody's in-flight entry, so no step changes it. */
  lemma CompletedStays(s: Coordinator, step: Step, i: Invocation, value: Value)
    requires CallsOk(s) && Succeeded(s, i, value)
    ensures Succeeded(Next(s, step), i, value)
  {
    hide PairOk, Settlement, Screen, Holds, LedgerKey;
    if step.id in s.calls {
      assert CallOk(s.calls[step.id], s.config, s.ledger);
    }
  }

  lemma SucceededStep(s: Coordinator, step: Step, i: Invocation, value: Value)
    requires Inv(s) && Succeeded(s, i, value)
    ensures var t := Next(s, step);
            Succeeded(t, i, value) && StartsFor(t, t.starts, i) == StartsFor(s, s.starts, i)
  {
    hide PermitsOk, LedgerOk, PairOk, LedgerKey, Next, CommitsOnce;
    var t := Next(s, step);
    StartsGrow(s, step);
    CompletedStays(s, step, i, value);
    StartsForFrame(s, t, s.starts, i);
    if t.starts != s.starts {
      assert t.starts[..|s.starts|] == s.starts;
      assert CallOk(s.calls[step.id], s.config, s.ledger);
      if SamePair(s.calls[step.id].invocation, i) {
        SameKey(s.calls[step.id].invocation, i);
        assert false;
      }
    }
  }

  lemma SameKey(i: Invocation, j: Invocation)
    requires SamePair(i, j)
    ensures LedgerKey(i) == LedgerKey(j)
  {
  }

  lemma {:induction false} SucceededRun(s: Coordinator, steps: seq<Step>, i: Invocation, value: Value)
    requires Inv(s) && Succeeded(s, i, value)
    ensures var t := Run(s, steps);
            Inv(t) && Succeeded(t, i, value) && StartsFor(t, t.starts, i) == StartsFor(s, s.starts, i)
    decreases |steps|
  {
    if steps != [] {
      hide Inv, Next, Succeeded, StartsFor;
      StepInv(s, steps[0]);
      SucceededStep(s, steps[0], i, value);
      SucceededRun(Next(s, steps[0]), steps[1..], i, value);
    }
  }

  /** Once a call has succeeded, then however the run goes on: the executor is never started again
      for its tool and key, every call for them that succeeds returns that same value, and any
      call that gets as far as the ledger does. */
  lemma SuccessIsFinal(config: Config, steps: seq<Step>, more: seq<Step>, i: nat, j: nat)
    requires ValidConfig(config)
    requires var s := Run(Start(config), steps);
             i in s.calls && s.calls[i].stage.Returned? && s.calls[i].stage.result.Ok?
    requires var s, t := Run(Start(config), steps), Run(Run(Start(config), steps), more);
             j in t.calls && SamePair(t.calls[j].invocation, s.calls[i].invocation)
    ensures var s, t := Run(Start(config), steps), Run(Run(Start(config), steps), more);
            var pair, value := s.calls[i].invocation, s.calls[i].stage.result.value.value;
            && StartsFor(t, t.starts, pair) == StartsFor(s, s.starts, pair)
            && (t.calls[j].stage.Returned? && t.calls[j].stage.result.Ok? ==> t.calls[j].stage.result.value.value == value)
            && (t.calls[j].stage.Holding? ==> Next(t, Consult(j)).calls[j].stage == Returned(Ok(Output(value, true))))
            && !t.calls[j].stage.Executing?
  {
    hide Run, Inv, StartsFor, LedgerKey, Succeeded;
    StartInv(config);
    RunInv(Start(config), steps);
    var s := Run(Start(config), steps);
    var t := Run(s, more);
    var pair, value := s.calls[i].invocation, s.calls[i].stage.result.value.value;
    SuccessRecorded(s, i);
    SucceededRun(s, more, pair, value);
    LaterCalls(t, j, pair, value);
  }

  lemma SuccessRecorded(s: Coordinator, i: nat)
    requires Inv(s) && i in s.calls && s.calls[i].stage.Returned? && s.calls[i].stage.result.Ok?
    ensures Succeeded(s, s.calls[i].invocation, s.calls[i].stage.result.value.value)
  {
    hide PermitsOk, LedgerOk, StartsOk, EvidenceOk, PairOk, LedgerKey;
    assert CallOk(s.calls[i], s.config, s.ledger);
  }

  lemma LaterCalls(t: Coordinator, j: nat, pair: Invocation, value: Value)
    requires Inv(t) && Succeeded(t, pair, value) && j in t.calls && SamePair(t.calls[j].invocation, pair)
    ensures t.calls[j].stage.Returned? && t.calls[j].stage.result.Ok? ==> t.calls[j].stage.result.value.value == value
    ensures t.calls[j].stage.Holding? ==> Next(t, Consult(j)).calls[j].stage == Returned(Ok(Output(value, true)))
    ensures !t.calls[j].stage.Executing?
  {
    hide PermitsOk, LedgerOk, StartsOk, EvidenceOk, PairOk, LedgerKey, CommitsOnce;
    assert CallOk(t.calls[j], t.config, t.ledger);
    SameKey(t.calls[j].invocation, pair);
  }

  // ---------- failure can be retried exactly when it settled ----------

  ghost predicate Blocked(s: Coordinator, i: nat) {
    i in s.calls && Abandoned(s.calls[i])
  }

  /** A call that is over does not move. */
  lemma OverStays(s: Coordinator, step: Step, i: nat)
    requires i in s.calls && !Unfinished(s.calls[i].stage)
    ensures i in Next(s, step).calls && Next(s, step).calls[i] == s.calls[i]
  {
    hide LedgerKey, Found, Settled, Screen, Settlement, Holds;
  }

  /** An abandoned call stays so. */
  lemma {:induction false} BlockedRun(s: Coordinator, steps: seq<Step>, i: nat)
    requires Inv(s) && Blocked(s, i)
    ensures var t := Run(s, steps);
            Inv(t) && Blocked(t, i) && t.calls[i] == s.calls[i]
    decreases |steps|
  {
    if steps != [] {
      hide Inv, Next;
      StepInv(s, steps[0]);
      OverStays(s, steps[0], i);
      BlockedRun(Next(s, steps[0]), steps[1..], i);
    }
  }

  /** The step by which a call fails after entering itself in the ledger. */
  ghost predicate FailsAt(s: Coordinator, step: Step, i: nat) {
    && i in s.calls && s.calls[i].armed && Unfinished(s.calls[i].stage)
    && var c := Next(s, step).calls[i];
    c.stage.Dropped? || (c.stage.Returned? && c.stage.result.Err?)
  }

  /** "A failed invocation may be retried" holds of a tool that does not commit once exactly when
      the failing call settles: it fails by `Settle`, and then its key is free. If it is dropped or
      its output cannot be encoded, its key stays in flight however the run goes on, and every
      later call that reaches the ledger is refused. */
  lemma RetryIffSettled(config: Config, steps: seq<Step>, step: Step, i: nat, more: seq<Step>, j: nat)
    requires ValidConfig(config) && FailsAt(Run(Start(config), steps), step, i)
    requires !CommitsOnce(config, Run(Start(config), steps).calls[i].invocation)
    ensures var t := Next(Run(Start(config), steps), step);
            LedgerKey(t.calls[i].invocation) !in t.ledger <==> step.Settle?
    ensures var t := Run(Next(Run(Start(config), steps), step), more);
            !step.Settle? && j in t.calls && i in t.calls && SamePair(t.calls[j].invocation, t.calls[i].invocation)
            && t.calls[j].stage.Holding? ==>
              Next(t, Consult(j)).calls[j].stage == Returned(Err(AlreadyInFlight))
  {
    StartInv(config);
    RunInv(Start(config), steps);
    var s := Run(Start(config), steps);
    StepInv(s, step);
    NextMoves(s, step);
    hide Run, Inv;
    FailureSettles(s, step, i);
    var u := Next(s, step);
    if !step.Settle? {
      BlockedRun(u, more, i);
      BlockedConsult(Run(u, more), i, j);
    }
  }

  lemma FailureSettles(s: Coordinator, step: Step, i: nat)
    requires Inv(s) && Inv(Next(s, step)) && FailsAt(s, step, i) && !CommitsOnce(s.config, s.calls[i].invocation)
    ensures var t := Next(s, step);
            && (step.Settle? <==> LedgerKey(s.calls[i].invocation) !in t.ledger)
            && (!step.Settle? ==> Blocked(t, i))
  {
    hide PermitsOk, LedgerOk, StartsOk, PairOk, LedgerKey, Holds, Screen;
    assert CallOk(s.calls[i], s.config, s.ledger);
    assert CallOk(Next(s, step).calls[i], s.config, Next(s, step).ledger) by {
      NextMoves(s, step);
    }
  }

  lemma BlockedConsult(t: Coordinator, i: nat, j: nat)
    requires Inv(t) && Blocked(t, i)
    ensures j in t.calls && SamePair(t.calls[j].invocation, t.calls[i].invocation) && t.calls[j].stage.Holding? ==>
              Next(t, Consult(j)).calls[j].stage == Returned(Err(AlreadyInFlight))
  {
    hide PermitsOk, LedgerOk, StartsOk, PairOk, LedgerKey, CommitsOnce;
    assert CallOk(t.calls[i], t.config, t.ledger);
    if j in t.calls && SamePair(t.calls[j].invocation, t.calls[i].invocation) {
      SameKey(t.calls[j].invocation, t.calls[i].invocation);
    }
  }

  /** For instance: a call dropped while its executor runs blocks the next one for its key. */
  lemma DroppedCallBlocksRetry(config: Config, i: Invocation)
    requires ValidConfig(config) && Screen(config, i).None?
    ensures var running := Next(Next(Next(Next(Start(config), Enter(0, i)), Permit(0)), Consult(0)), Launch(0));
            var again := Next(Next(Next(Next(running, Drop(0)), Enter(1, i)), Permit(1)), Consult(1));
            && 0 in running.calls && running.calls[0].stage.Executing?
            && 1 in again.calls && again.calls[1].stage == Returned(Err(AlreadyInFlight))
  {
    hide LedgerKey, Screen, Settlement, Found;
    var s := Start(config);
    EnterPermit(s, 0, i);
    var holding := Next(Next(s, Enter(0, i)), Permit(0));
    ConsultFresh(holding, 0, i);
    var running := Next(Next(holding, Consult(0)), Launch(0));
    var dropped := Next(running, Drop(0));
    EnterPermit(dropped, 1, i);
    ConsultInFlight(Next(Next(dropped, Enter(1, i)), Permit(1)), 1, i);
  }

  lemma EnterPermit(s: Coordinator, id: nat, i: Invocation)
    requires id !in s.calls && s.permits > 0 && Screen(s.config, i).None?
    ensures Next(Next(s, Enter(id, i)), Permit(id)) == s.(calls := s.calls[id := Call(i, Holding, false, None)], permits := s.permits - 1)
  {
    hide LedgerKey, Screen, Settlement, Found;
    var entered := Next(s, Enter(id, i));
    assert entered == s.(calls := s.calls[id := Call(i, Queued, false, None)]);
    assert entered.calls[id := Call(i, Holding, false, None)] == s.calls[id := Call(i, Holding, false, None)];
  }

  lemma ConsultFresh(s: Coordinator, id: nat, i: Invocation)
    requires id in s.calls && s.calls[id] == Call(i, Holding, false, None) && s.ledger == map[]
    ensures Next(Next(s, Consult(id)), Launch(id))
         == s.(ledger := map[LedgerKey(i) := InFlight], calls := s.calls[id := Call(i, Executing, true, None)], starts := s.starts + [id])
  {
    hide LedgerKey, Screen, Settlement;
    var armed := Next(s, Consult(id));
    assert armed == s.(ledger := map[LedgerKey(i) := InFlight], calls := s.calls[id := Call(i, Armed, true, None)]);
    assert armed.calls[id := Call(i, Executing, true, None)] == s.calls[id := Call(i, Executing, true, None)];
  }

  lemma ConsultInFlight(s: Coordinator, id: nat, i: Invocation)
    requires id in s.calls && s.calls[id] == Call(i, Holding, false, None) && s.ledger == map[LedgerKey(i) := InFlight]
    ensures Next(s, Consult(id)).calls[id].stage == Returned(Err(AlreadyInFlight))
  {
    hide LedgerKey, Screen, Settlement;
  }
}
