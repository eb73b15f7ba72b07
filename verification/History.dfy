/** The conversation history kept for a session's reasoner: bounded by message count and by
    encoded bytes, evicting whole groups so that a tool call and its result are never split. */
module History {
  import opened Common
  import opened Json

  datatype Message =
    | User(text: string)
    | Assistant(text: string)
    | ToolCall(callId: string, name: string, input: Value)
    | ToolResult(callId: string, name: string, output: Value)

  type Group = seq<Message>

  /** What the runtime pushes: one spoken turn, or a tool call with its matching result. */
  predicate WellFormed(g: Group) {
    || (|g| == 1 && (g[0].User? || g[0].Assistant?))
    || (|g| == 2 && g[0].ToolCall? && g[1].ToolResult?
        && g[0].callId == g[1].callId && g[0].name == g[1].name)
  }

  predicate AllWellFormed(gs: seq<Group>) {
    forall i :: 0 <= i < |gs| ==> WellFormed(gs[i])
  }

  /** Budgets, and the encoded size of each message, which the codec fixes. */
  datatype Limits = Limits(maxMessages: nat, maxBytes: nat, size: Message -> nat)

  function Bytes(messages: seq<Message>, limits: Limits): nat {
    if messages == [] then 0 else limits.size(messages[0]) + Bytes(messages[1..], limits)
  }

  predicate Fits(messages: seq<Message>, limits: Limits) {
    |messages| <= limits.maxMessages && Bytes(messages, limits) <= limits.maxBytes
  }

  /** The longest group-aligned suffix that fits both budgets. */
  function Retained(gs: seq<Group>, limits: Limits): seq<Group> {
    if gs == [] || Fits(Concat(gs), limits) then gs else Retained(gs[1..], limits)
  }

  lemma {:induction false} BytesAppend(a: seq<Message>, b: seq<Message>, limits: Limits)
    ensures Bytes(a + b, limits) == Bytes(a, limits) + Bytes(b, limits)
  {
    if a == [] {
      assert a + b == b;
    } else {
      assert (a + b)[1..] == a[1..] + b;
      BytesAppend(a[1..], b, limits);
    }
  }

  /** A part of a list that fits, fits. */
  lemma FitsParts(a: seq<Message>, b: seq<Message>, limits: Limits)
    requires Fits(a + b, limits)
    ensures Fits(a, limits) && Fits(b, limits)
  {
    BytesAppend(a, b, limits);
  }

  /** `Retained` is what its name says: a suffix, within budget, and no longer suffix fits. */
  lemma {:induction false} RetainedIsLongest(gs: seq<Group>, limits: Limits)
    ensures IsSuffix(Retained(gs, limits), gs)
    ensures Fits(Concat(Retained(gs, limits)), limits)
    ensures forall k :: 0 <= k <= |gs| && Fits(Concat(gs[k..]), limits) ==> |gs| - k <= |Retained(gs, limits)|
  {
    if gs == [] {
      assert Bytes([], limits) == 0;
    } else if Fits(Concat(gs), limits) {
    } else {
      RetainedIsLongest(gs[1..], limits);
      assert gs[0..] == gs;
      forall k | 0 <= k <= |gs| && Fits(Concat(gs[k..]), limits)
        ensures |gs| - k <= |Retained(gs, limits)|
      {
        assert k != 0;
        assert gs[1..][k - 1..] == gs[k..];
      }
    }
  }

  /** Pushing onto the retained suffix evicts to the same place as starting from the whole log. */
  lemma {:induction false} RetainedAgain(gs: seq<Group>, more: seq<Group>, limits: Limits)
    ensures Retained(Retained(gs, limits) + more, limits) == Retained(gs + more, limits)
  {
    if gs == [] || Fits(Concat(gs), limits) {
    } else {
      RetainedAgain(gs[1..], more, limits);
      ConcatAppend(gs, more);
      if Fits(Concat(gs + more), limits) {
        FitsParts(Concat(gs), Concat(more), limits);
        assert false;
      }
      assert (gs + more)[1..] == gs[1..] + more;
    }
  }

  /** Whatever is pushed later, what survives is a suffix of what survived before plus the pushes. */
  lemma RetainedSuffix(gs: seq<Group>, more: seq<Group>, limits: Limits)
    ensures IsSuffix(Retained(gs + more, limits), Retained(gs, limits) + more)
  {
    RetainedAgain(gs, more, limits);
    RetainedIsLongest(Retained(gs, limits) + more, limits);
  }

  /** A suffix at group granularity is a suffix at message granularity. */
  lemma ConcatSuffix(a: seq<Group>, b: seq<Group>)
    requires IsSuffix(a, b)
    ensures IsSuffix(Concat(a), Concat(b))
  {
    var k := |b| - |a|;
    assert b == b[..k] + a;
    ConcatAppend(b[..k], a);
  }

  lemma {:induction false} WellFormedNonempty(gs: seq<Group>)
    requires AllWellFormed(gs) && gs != []
    ensures Concat(gs) != [] && |gs[0]| <= |Concat(gs)|
    ensures forall i :: 0 <= i < |gs[0]| ==> Concat(gs)[i] == gs[0][i]
    ensures Concat(gs)[|gs[0]|..] == Concat(gs[1..])
  {
  }

  datatype HistoryError = GroupExceedsBound | UnmatchedToolMessage | AccountingInconsistent

  /** How many messages the front of the history gives up together. */
  function OldestGroupSize(history: seq<Message>): (r: Result<nat, HistoryError>)
    ensures r.Ok? ==> 1 <= r.value <= |history|
  {
    if |history| >= 2 && history[0].ToolCall? && history[1].ToolResult?
       && history[0].callId == history[1].callId && history[0].name == history[1].name then
      Ok(2)
    else if |history| >= 1 && (history[0].ToolCall? || history[0].ToolResult?) then
      Err(UnmatchedToolMessage)
    else if |history| >= 1 then
      Ok(1)
    else
      Err(AccountingInconsistent)
  }

  /** Over whole groups, eviction removes exactly the first group: the "unmatched" and
      "inconsistent" errors are unreachable. */
  lemma OldestIsWholeGroup(gs: seq<Group>)
    requires AllWellFormed(gs) && gs != []
    ensures OldestGroupSize(Concat(gs)) == Ok(|gs[0]|)
  {
    WellFormedNonempty(gs);
  }

  function Monus(a: nat, b: nat): nat {
    if a < b then 0 else a - b
  }

  /** The actor's `history` and `history_bytes`. */
  class ConversationHistory {
    const limits: Limits
    var history: seq<Message>
    var historyBytes: nat
    ghost var groups: seq<Group>    // the retained groups
    ghost var accepted: seq<Group>  // every group ever pushed successfully

    ghost predicate Accounted()
      reads this
    {
      && AllWellFormed(groups)
      && history == Concat(groups)
      && historyBytes == Bytes(history, limits)
    }

    /** The retained history is the longest fitting suffix of everything accepted. */
    ghost predicate Valid()
      reads this
    {
      && Accounted()
      && groups == Retained(accepted, limits)
    }

    constructor (limits: Limits)
      ensures Valid() && accepted == [] && this.limits == limits
    {
      this.limits := limits;
      history, historyBytes, groups, accepted := [], 0, [], [];
    }

    /** A group that fits alone is accepted; nothing else ever fails: in particular the two
        "unmatched" and "inconsistent" errors cannot occur. */
    method PushGroup(messages: Group) returns (r: Result<(), HistoryError>)
      requires Valid() && WellFormed(messages)
      modifies this
      ensures Valid()
      ensures r.Ok? <==> Fits(messages, limits)
      ensures r.Err? ==> r.error == GroupExceedsBound && history == old(history)
      ensures accepted == if r.Ok? then old(accepted) + [messages] else old(accepted)
    {
      var groupBytes := Bytes(messages, limits);
      if messages == [] || |messages| > limits.maxMessages || groupBytes > limits.maxBytes {
        return Err(GroupExceedsBound);
      }
      ghost var target := Retained(groups + [messages], limits);
      RetainedAgain(accepted, [messages], limits);
      ConcatOne(groups, messages);
      BytesAppend(history, messages, limits);
      while |history| + |messages| > limits.maxMessages || historyBytes + groupBytes > limits.maxBytes
        invariant Accounted() && accepted == old(accepted)
        invariant Concat(groups + [messages]) == history + messages
        invariant Bytes(history + messages, limits) == historyBytes + groupBytes
        invariant Retained(groups + [messages], limits) == target
        decreases |history|
      {
        if history == [] {
          assert false;
        }
        ghost var before := groups;
        var evicted := EvictGroup();
        if evicted.Err? {
          assert false;
        }
        assert (before + [messages])[1..] == groups + [messages];
        ConcatOne(groups, messages);
        BytesAppend(history, messages, limits);
      }
      history, historyBytes := history + messages, historyBytes + groupBytes;
      groups, accepted := groups + [messages], accepted + [messages];
      r := Ok(());
    }

    /** On a well-accounted history, eviction succeeds and removes exactly the oldest group. */
    method EvictGroup() returns (r: Result<(), HistoryError>)
      requires Accounted() && history != []
      modifies this`history, this`historyBytes, this`groups
      ensures Accounted() && r.Ok? && |history| < |old(history)|
      ensures old(groups) != [] && groups == old(groups)[1..]
    {
      OldestIsWholeGroup(groups);
      WellFormedNonempty(groups);
      DropBytes(history, |groups[0]|, limits);
      r := EvictOldest();
      groups := groups[1..];
    }

    /** Drop the oldest turn, or the oldest tool call together with its result, and give its
        encoded bytes back. */
    method EvictOldest() returns (r: Result<(), HistoryError>)
      modifies this`history, this`historyBytes
      ensures OldestGroupSize(old(history)).Err? ==>
                && r == Err(OldestGroupSize(old(history)).error)
                && history == old(history) && historyBytes == old(historyBytes)
      ensures OldestGroupSize(old(history)).Ok? ==>
                var n := OldestGroupSize(old(history)).value;
                && r.Ok? && history == old(history)[n..]
                && historyBytes == Monus(old(historyBytes), Bytes(old(history)[..n], limits))
    {
      var size := OldestGroupSize(history);
      if size.Err? {
        return Err(size.error);
      }
      for i := 0 to size.value
        invariant history == old(history)[i..]
        invariant historyBytes == Monus(old(historyBytes), Bytes(old(history)[..i], limits))
      {
        var expired := history[0];
        assert old(history)[..i + 1] == old(history)[..i] + [expired];
        BytesAppend(old(history)[..i], [expired], limits);
        historyBytes := Monus(historyBytes, limits.size(expired));
        history := history[1..];
      }
      r := Ok(());
    }
  }

  lemma DropBytes(messages: seq<Message>, n: nat, limits: Limits)
    requires n <= |messages|
    ensures Bytes(messages, limits) == Bytes(messages[..n], limits) + Bytes(messages[n..], limits)
  {
    assert messages == messages[..n] + messages[n..];
    BytesAppend(messages[..n], messages[n..], limits);
  }
}
