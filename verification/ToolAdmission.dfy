/** Which calls reach an executor, what the ledger tells the others, and what a returned result
    means: for every run of the tool coordinator. */
module ToolAdmission {
  import opened Common
  import opened Json
  import opened ToolSchema
  import opened ToolLedger

  // ---------- the checks ----------

  /** What keeps a call from being admitted, in the order the caller learns of it. */
  ghost function Objection(c: Config, i: Invocation): Option<ToolError> {
    if i.tool !in c.definitions then Some(Undeclared)
    else if !(1 <= |i.key| <= 200) then Some(MissingIdempotencyKey)
    else if !(1 <= |i.callId| <= 160 && |i.tool| <= 64) then Some(InvalidInput)
    else if c.size(i.input).None? then Some(Unserializable)
    else if c.size(i.input).value > 64 * 1024 then Some(InvalidInput)
    else if !Conforms(c.definitions[i.tool].inputSchema, i.input) then Some(InvalidInput)
    else None
  }

  /** The deployment's schemas passed the contract check. */
  ghost predicate Contracted(c: Config) {
    forall name :: name in c.definitions ==> SchemaNodeOk(c.definitions[name].inputSchema, 0)
  }

  lemma ScreenObjects(c: Config, i: Invocation)
    requires Contracted(c)
    ensures Screen(c, i) == Objection(c, i)
  {
    hide SchemaNodeOk, ValidateInstance, Conforms;
    if i.tool in c.definitions {
      ValidateInstanceMeaning(c.definitions[i.tool].inputSchema, i.input, 0);
    }
  }

  /** Every call whose executor is started names a declared tool, carries a key of 1 to 200 and an
      identifier of 1 to 160 characters, and an input that encodes within 64 KiB and conforms to
      that tool's schema. */
  lemma OnlyAdmissibleStart(config: Config, steps: seq<Step>, n: nat)
    requires ValidConfig(config) && Contracted(config) && n < |Run(Start(config), steps).starts|
    ensures var s := Run(Start(config), steps);
            && s.starts[n] in s.calls
            && var i := s.calls[s.starts[n]].invocation;
            && i.tool in config.definitions && 1 <= |i.key| <= 200 && 1 <= |i.callId| <= 160
            && config.size(i.input).Some? && config.size(i.input).value <= 64 * 1024
            && Conforms(config.definitions[i.tool].inputSchema, i.input)
  {
    hide SchemaNodeOk, Conforms, Screen, PermitsOk, CallsOk, LedgerOk;
    StartInv(config);
    RunInv(Start(config), steps);
    hide Run;
    var s := Run(Start(config), steps);
    var c := s.calls[s.starts[n]];
    assert Evidence(c, s.config);
    ScreenObjects(config, c.invocation);
  }

  /** A call with an objection is answered with it, holds no permit, is in nobody's way and never
      starts; and only such calls are answered before they wait. */
  lemma ObjectionsAreAnswered(config: Config, steps: seq<Step>, id: nat)
    requires ValidConfig(config) && Contracted(config) && id in Run(Start(config), steps).calls
    ensures var s := Run(Start(config), steps);
            var objection := Objection(config, s.calls[id].invocation);
            objection.Some? ==>
              s.calls[id].stage == Returned(Err(objection.value)) && !s.calls[id].armed && id !in s.starts
  {
    hide SchemaNodeOk, Conforms, Screen, PermitsOk, CallsOk, LedgerOk, Objection;
    StartInv(config);
    RunInv(Start(config), steps);
    hide Run;
    var s := Run(Start(config), steps);
    assert Evidence(s.calls[id], s.config);
    ScreenObjects(config, s.calls[id].invocation);
  }

  /** And a call without one waits. */
  lemma AdmittedCallsWait(config: Config, s: Coordinator, id: nat, i: Invocation)
    requires Contracted(config) && s.config == config && id !in s.calls
    ensures id in Next(s, Enter(id, i)).calls
    ensures Next(s, Enter(id, i)).calls[id].stage == if Objection(config, i).Some? then Returned(Err(Objection(config, i).value)) else Queued
  {
    hide SchemaNodeOk, Screen, Objection;
    ScreenObjects(config, i);
  }

  // ---------- what the ledger says ----------

  /** A call for this tool and key is under way, or was abandoned. */
  ghost predicate Busy(s: Coordinator, i: Invocation) {
    exists k :: k in s.calls && SamePair(s.calls[k].invocation, i) && Owner(s.calls[k])
  }

  /** One ran and succeeded. */
  ghost predicate Gave(s: Coordinator, i: Invocation, v: Value) {
    exists k :: k in s.calls && SamePair(s.calls[k].invocation, i) && s.calls[k].armed && s.calls[k].stage == Returned(Ok(Output(v, false)))
  }

  /** One ran and failed, of a tool that commits once. */
  ghost predicate Lost(s: Coordinator, i: Invocation, e: ToolError) {
    CommitsOnce(s.config, i)
    && exists k :: k in s.calls && SamePair(s.calls[k].invocation, i) && Failed(s.calls[k]) && s.calls[k].stage.result.error == e
  }

  ghost predicate Known(s: Coordinator, i: Invocation) {
    Busy(s, i) || (exists v :: Gave(s, i, v)) || (exists e :: Lost(s, i, e))
  }

  /** Consulting the ledger, a call learns of the calls for its tool and key before it: it is refused
      exactly if one is under way or was abandoned, gets the value exactly of one that succeeded, is
      told exactly of the failure of a commit-once one, and otherwise goes ahead unless the ledger
      is full. */
  lemma ConsultMeans(config: Config, steps: seq<Step>, id: nat, v: Value, e: ToolError)
    requires ValidConfig(config)
    requires var s := Run(Start(config), steps);
             id in s.calls && s.calls[id].stage.Holding?
    ensures var s := Run(Start(config), steps);
            var i, stage := s.calls[id].invocation, Next(s, Consult(id)).calls[id].stage;
            && (stage == Returned(Err(AlreadyInFlight)) <==> Busy(s, i))
            && (stage == Returned(Ok(Output(v, true))) <==> Gave(s, i, v))
            && (stage == Returned(Err(Uncertain(e))) <==> Lost(s, i, e))
            && (stage.Armed? <==> !Known(s, i) && |s.ledger| < MAX_TOOL_LEDGER_ENTRIES)
            && (stage == Returned(Err(LedgerCapacity)) <==> !Known(s, i) && |s.ledger| == MAX_TOOL_LEDGER_ENTRIES)
  {
    hide Run, Busy, Gave, Lost, Known;
    StartInv(config);
    RunInv(Start(config), steps);
    ConsultReads(Run(Start(config), steps), id, v, e);
  }

  lemma ConsultReads(s: Coordinator, id: nat, v: Value, e: ToolError)
    requires Inv(s) && id in s.calls && s.calls[id].stage.Holding?
    ensures var i, stage := s.calls[id].invocation, Next(s, Consult(id)).calls[id].stage;
            && (stage == Returned(Err(AlreadyInFlight)) <==> Busy(s, i))
            && (stage == Returned(Ok(Output(v, true))) <==> Gave(s, i, v))
            && (stage == Returned(Err(Uncertain(e))) <==> Lost(s, i, e))
            && (stage.Armed? <==> !Known(s, i) && |s.ledger| < MAX_TOOL_LEDGER_ENTRIES)
            && (stage == Returned(Err(LedgerCapacity)) <==> !Known(s, i) && |s.ledger| == MAX_TOOL_LEDGER_ENTRIES)
  {
    hide Inv, Next, LedgerKey, Busy, Gave, Lost;
    var i := s.calls[id].invocation;
    ConsultStage(s, id);
    EntriesFound(s, i);
    if LedgerKey(i) in s.ledger {
      EntryKnown(s, i);
    }
  }

  lemma ConsultStage(s: Coordinator, id: nat)
    requires Inv(s) && id in s.calls && s.calls[id].stage.Holding?
    ensures var i := s.calls[id].invocation;
            var stage, key := Next(s, Consult(id)).calls[id].stage, LedgerKey(i);
            && i.tool in s.config.definitions && |s.ledger| <= MAX_TOOL_LEDGER_ENTRIES
            && stage == if key !in s.ledger then (if |s.ledger| < MAX_TOOL_LEDGER_ENTRIES then Armed else Returned(Err(LedgerCapacity)))
                        else match s.ledger[key]
                          case InFlight => Returned(Err(AlreadyInFlight))
                          case Completed(v) => Returned(Ok(Output(v, true)))
                          case CommitOnceUncertain(e) => Returned(Err(Uncertain(e)))
  {
    hide LedgerKey, PermitsOk, StartsOk, EvidenceOk, PairOk;
    assert CallOk(s.calls[id], s.config, s.ledger);
  }

  /** What is known of a pair is in its ledger entry. */
  lemma EntriesFound(s: Coordinator, i: Invocation)
    requires Inv(s)
    ensures var key := LedgerKey(i);
            && (Busy(s, i) ==> key in s.ledger && s.ledger[key] == InFlight)
            && (forall v :: Gave(s, i, v) ==> key in s.ledger && s.ledger[key] == Completed(v))
            && (forall e :: Lost(s, i, e) ==> key in s.ledger && s.ledger[key] == CommitOnceUncertain(e))
  {
    hide LedgerKey, PermitsOk, StartsOk, EvidenceOk, PairOk, LedgerOk;
    forall k | k in s.calls && SamePair(s.calls[k].invocation, i)
      ensures CallOk(s.calls[k], s.config, s.ledger) && LedgerKey(s.calls[k].invocation) == LedgerKey(i)
      ensures CommitsOnce(s.config, s.calls[k].invocation) == CommitsOnce(s.config, i)
    {
      SameKey(s.calls[k].invocation, i);
    }
  }

  /** And what its entry says is known. */
  lemma EntryKnown(s: Coordinator, i: Invocation)
    requires Inv(s) && i.tool in s.config.definitions && LedgerKey(i) in s.ledger
    ensures match s.ledger[LedgerKey(i)]
            case InFlight => Busy(s, i)
            case Completed(v) => Gave(s, i, v)
            case CommitOnceUncertain(e) => Lost(s, i, e)
  {
    hide LedgerKey, PermitsOk, StartsOk, EvidenceOk, PairOk;
    var key := LedgerKey(i);
    var entry := s.ledger[key];
    assert Witnessed(s.calls, s.config, key, entry);
    var k :| k in s.calls && Accounts(s.calls[k], s.config, key, entry);
    assert CallOk(s.calls[k], s.config, s.ledger);
    SamePairs(s.config, s.calls[k].invocation, i);
    hide CallOk;
  }

  lemma SamePairs(config: Config, i: Invocation, j: Invocation)
    requires ValidConfig(config) && i.tool in config.definitions && j.tool in config.definitions && LedgerKey(i) == LedgerKey(j)
    ensures SamePair(i, j)
  {
    LedgerKeyInjective(i, j);
  }

  // ---------- what a result means ----------

  /** A value returned by a call that ran is what its executor answered, and encodes within 64 KiB; a
      failure names what its executor did. */
  lemma ResultsAreTheExecutors(config: Config, steps: seq<Step>, id: nat)
    requires ValidConfig(config)
    requires var s := Run(Start(config), steps);
             id in s.calls && s.calls[id].armed && s.calls[id].stage.Returned?
    ensures var s := Run(Start(config), steps);
            var result, reply := s.calls[id].stage.result, s.calls[id].reply;
            && (result.Ok? ==> reply == Some(Answer(result.value.value)) && Encodes(config, result.value.value))
            && (result == Err(Timeout) ==> reply == Some(TimesOut))
            && (result.Err? && result.error.Provider? ==> reply == Some(ProviderFails(result.error.message)))
            && (result == Err(OutputTooLarge) ==>
                  reply.Some? && reply.value.Answer? && config.size(reply.value.value).Some? && config.size(reply.value.value).value > 64 * 1024)
            && (result == Err(Cancelled) ==> reply == None || reply == Some(ProviderCancelled))
  {
    hide PermitsOk, CallsOk, LedgerOk, StartsOk, Screen;
    StartInv(config);
    RunInv(Start(config), steps);
    hide Run;
    var s := Run(Start(config), steps);
    assert Evidence(s.calls[id], s.config);
  }
}
