/** The two bounded first-in-first-out maps of the realtime actor: the window of recent
    client message identifiers and the playout acknowledgement history. Each keeps a queue
    beside a hash structure; both are proved to agree with a plain, ever-growing log. */
module BoundedMaps {
  import opened Common

  const MESSAGE_WINDOW: nat := 1024

  /** Duplicate suppression for client messages (`recent_message_ids`, `recent_message_set`). */
  class MessageWindow {
    var ids: seq<string>
    var known: set<string>
    ghost var accepted: seq<string>  // every identifier ever reported as new

    ghost predicate Valid()
      reads this
    {
      && ids == LastN(accepted, MESSAGE_WINDOW)
      && Distinct(ids)
      && known == set x | x in ids
    }

    constructor ()
      ensures Valid() && accepted == []
    {
      ids, known, accepted := [], {}, [];
    }

    /** A message is a duplicate exactly when its identifier is among the last 1,024 accepted. */
    method IsDuplicate(id: string) returns (duplicate: bool)
      requires Valid()
      modifies this
      ensures Valid()
      ensures duplicate <==> id in LastN(old(accepted), MESSAGE_WINDOW)
      ensures accepted == if duplicate then old(accepted) else old(accepted) + [id]
    {
      if id in known {
        return true;
      }
      ghost var before := ids;
      while |ids| >= MESSAGE_WINDOW
        invariant Distinct(ids) && known == set x | x in ids
        invariant id !in ids && accepted == old(accepted)
        invariant |before| <= MESSAGE_WINDOW
        invariant ids == before || (|before| == MESSAGE_WINDOW && ids == before[1..])
        decreases |ids|
      {
        var expired := ids[0];
        assert ids == [expired] + ids[1..];
        ids, known := ids[1..], known - {expired};
      }
      LastNPush(accepted, MESSAGE_WINDOW, id);
      ids, known, accepted := ids + [id], known + {id}, accepted + [id];
      duplicate := false;
    }
  }

  /** One acknowledgement that passed the range checks. */
  datatype Ack = Ack(response: string, ms: real)

  predicate ValidAck(response: string, ms: real) {
    0 < |response| <= 160 && ms >= 0.0
  }

  /** A response entered the map when the acknowledgement at log position `from` arrived. */
  datatype Entry = Entry(response: string, from: nat)

  predicate Holds(entries: seq<Entry>, response: string) {
    exists k :: 0 <= k < |entries| && entries[k].response == response
  }

  /** Every time a response entered the map: it was not among the last `capacity` to do so. */
  function Insertions(log: seq<Ack>, capacity: nat): seq<Entry> {
    if log == [] then
      []
    else
      var earlier := Insertions(log[..|log| - 1], capacity);
      var response := log[|log| - 1].response;
      if Holds(LastN(earlier, capacity), response) then earlier else earlier + [Entry(response, |log| - 1)]
  }

  /** The entries a log leaves in the map, oldest first. */
  function Tracked(log: seq<Ack>, capacity: nat): seq<Entry> {
    LastN(Insertions(log, capacity), capacity)
  }

  /** `ms` is the greatest value acknowledged for the entry since it was inserted. */
  ghost predicate IsMaxSince(log: seq<Ack>, e: Entry, ms: real) {
    && (exists j :: e.from <= j < |log| && log[j] == Ack(e.response, ms))
    && (forall j :: e.from <= j < |log| && log[j].response == e.response ==> log[j].ms <= ms)
  }

  ghost predicate Maxima(log: seq<Ack>, entries: seq<Entry>, values: map<string, real>) {
    forall k :: 0 <= k < |entries| ==>
      entries[k].response in values && IsMaxSince(log, entries[k], values[entries[k].response])
  }

  /** What it means for the queue and the value map to agree with the log. */
  ghost predicate Agrees(log: seq<Ack>, capacity: nat, order: seq<string>, values: map<string, real>) {
    var entries := Tracked(log, capacity);
    && |order| == |entries|
    && (forall k :: 0 <= k < |order| ==> order[k] == entries[k].response)
    && Distinct(order)
    && values.Keys == (set x | x in order)
    && Maxima(log, entries, values)
  }

  /** Recent playout acknowledgements used when a response is interrupted. */
  class PlayoutAckHistory {
    const capacity: nat
    var order: seq<string>
    var playedThrough: map<string, real>
    ghost var log: seq<Ack>  // every well-formed acknowledgement

    ghost predicate Valid()
      reads this
    {
      capacity > 0 && Agrees(log, capacity, order, playedThrough)
    }

    constructor (capacity: nat)
      requires capacity > 0
      ensures Valid() && log == [] && this.capacity == capacity
    {
      this.capacity := capacity;
      order, playedThrough, log := [], map[], [];
    }

    /** Malformed acknowledgements change nothing. Otherwise the log grows by one entry, and
        `Valid` says what that means for the queue and every tracked value. The result says
        whether the acknowledgement was progress. */
    method Record(response: string, ms: real) returns (r: Result<bool, ()>)
      requires Valid()
      modifies this
      ensures Valid()
      ensures r.Ok? <==> ValidAck(response, ms)
      ensures log == if r.Ok? then old(log) + [Ack(response, ms)] else old(log)
      ensures r.Ok? ==>
                (r.value <==> (response in old(playedThrough) ==> old(playedThrough)[response] < ms))
      ensures r.Err? ==> order == old(order) && playedThrough == old(playedThrough)
    {
      hide Agrees;
      if |response| == 0 || |response| > 160 || ms < 0.0 {
        return Err(());
      }
      if response in playedThrough {
        AgainAgrees(log, capacity, order, playedThrough, response, ms);
        log := log + [Ack(response, ms)];
        if ms <= playedThrough[response] {
          return Ok(false);
        }
        playedThrough := playedThrough[response := ms];
        return Ok(true);
      }
      Insert(response, ms);
      r := Ok(true);
    }

    method Insert(response: string, ms: real)
      requires Valid() && response !in playedThrough
      modifies this
      ensures Valid() && log == old(log) + [Ack(response, ms)]
    {
      hide Agrees;
      ghost var order0, values0 := order, playedThrough;
      AgreesBounds(log, capacity, order, playedThrough);
      Evict();
      order, playedThrough := order + [response], playedThrough[response := ms];
      InsertAgrees(log, capacity, order0, values0, response, ms, order, playedThrough);
      log := log + [Ack(response, ms)];
    }

    /** Make room for one more entry. */
    method Evict()
      requires capacity > 0 && |order| <= capacity && Distinct(order)
      requires playedThrough.Keys == (set x | x in order)
      modifies this`order, this`playedThrough
      ensures order == if |old(order)| >= capacity then old(order)[1..] else old(order)
      ensures playedThrough.Keys == (set x | x in order)
      ensures forall x :: x in playedThrough ==>
                x in old(playedThrough) && playedThrough[x] == old(playedThrough)[x]
    {
      while |order| >= capacity
        invariant |order| <= capacity && Distinct(order)
        invariant playedThrough.Keys == (set x | x in order)
        invariant order == old(order) || (|old(order)| == capacity && order == old(order)[1..])
        invariant forall x :: x in playedThrough ==>
                    x in old(playedThrough) && playedThrough[x] == old(playedThrough)[x]
        decreases |order|
      {
        var expired := order[0];
        assert order == [expired] + order[1..];
        order, playedThrough := order[1..], playedThrough - {expired};
      }
    }

    /** The tracked value, if the response is still among the last `capacity` insertions. */
    method PlayedThroughMs(response: string) returns (ms: Option<real>)
      requires Valid()
      ensures ms.Some? <==> Holds(Tracked(log, capacity), response)
      ensures ms.Some? ==>
                exists e :: e in Tracked(log, capacity) && e.response == response && IsMaxSince(log, e, ms.value)
    {
      ghost var entries := Tracked(log, capacity);
      if response in playedThrough {
        ghost var k :| 0 <= k < |order| && order[k] == response;
        assert entries[k] in entries && entries[k].response == response;
        return Some(playedThrough[response]);
      }
      return None;
    }
  }

  lemma AgreesBounds(log: seq<Ack>, capacity: nat, order: seq<string>, values: map<string, real>)
    requires Agrees(log, capacity, order, values)
    ensures |order| <= capacity && Distinct(order) && values.Keys == (set x | x in order)
  {
  }

  lemma AgainAgrees(log: seq<Ack>, capacity: nat, order: seq<string>, values: map<string, real>,
                    response: string, ms: real)
    requires Agrees(log, capacity, order, values) && response in values
    ensures var values' := if ms <= values[response] then values else values[response := ms];
            Agrees(log + [Ack(response, ms)], capacity, order, values')
  {
    var entries := Tracked(log, capacity);
    var k :| 0 <= k < |order| && order[k] == response;
    assert entries[k].response == response;
    TrackedAgain(log, capacity, response, ms);
    MaxAgain(log, entries, response, ms, values);
  }

  lemma InsertAgrees(log: seq<Ack>, capacity: nat, order: seq<string>, values: map<string, real>,
                     response: string, ms: real, order': seq<string>, values': map<string, real>)
    requires capacity > 0 && Agrees(log, capacity, order, values) && response !in values
    requires order' == (if |order| >= capacity then order[1..] else order) + [response]
    requires values'.Keys == (set x | x in order')
    requires forall x :: x in values' ==> if x == response then values'[x] == ms else x in values && values'[x] == values[x]
    ensures Agrees(log + [Ack(response, ms)], capacity, order', values')
  {
    var entries := Tracked(log, capacity);
    assert !Holds(entries, response);
    TrackedNew(log, capacity, response, ms);
    MaxNew(log, entries, response, ms, values);
    assert forall x :: x in order' ==> x in values';
    KeptMaxima(log + [Ack(response, ms)], capacity, entries, order, values, order', values', Entry(response, |log|));
    DistinctPush(order, capacity, response);
  }

  lemma DistinctPush(order: seq<string>, capacity: nat, x: string)
    requires Distinct(order) && x !in order && capacity > 0
    ensures Distinct((if |order| >= capacity then order[1..] else order) + [x])
  {
  }

  lemma KeptMaxima(log: seq<Ack>, capacity: nat, entries: seq<Entry>, order: seq<string>, values: map<string, real>,
                   order': seq<string>, values': map<string, real>, fresh': Entry)
    requires capacity > 0 && |order| == |entries| && fresh'.response !in order
    requires forall k :: 0 <= k < |order| ==> order[k] == entries[k].response
    requires Maxima(log, entries, values)
    requires fresh'.response in values' && IsMaxSince(log, fresh', values'[fresh'.response])
    requires order' == (if |order| >= capacity then order[1..] else order) + [fresh'.response]
    requires forall x :: x in order' ==> x in values'
    requires forall x :: x in values' && x != fresh'.response ==> x in values && values'[x] == values[x]
    ensures var entries' := (if |entries| >= capacity then entries[1..] else entries) + [fresh'];
            && (forall k :: 0 <= k < |order'| ==> order'[k] == entries'[k].response)
            && Maxima(log, entries', values')
  {
    var kept := if |entries| >= capacity then entries[1..] else entries;
    var entries' := kept + [fresh'];
    forall k | 0 <= k < |entries'|
      ensures order'[k] == entries'[k].response && entries'[k].response in values'
      ensures IsMaxSince(log, entries'[k], values'[entries'[k].response])
    {
      assert order'[k] in order';
      if k < |kept| {
        var i := if |entries| >= capacity then k + 1 else k;
        assert entries'[k] == entries[i] && order[i] in order;
      }
    }
  }

  /** Acknowledging a tracked response inserts nothing. */
  lemma TrackedAgain(log: seq<Ack>, capacity: nat, response: string, ms: real)
    requires Holds(Tracked(log, capacity), response)
    ensures Tracked(log + [Ack(response, ms)], capacity) == Tracked(log, capacity)
  {
    assert (log + [Ack(response, ms)])[..|log|] == log;
  }

  /** Acknowledging an untracked response appends it and drops the oldest when full. */
  lemma TrackedNew(log: seq<Ack>, capacity: nat, response: string, ms: real)
    requires capacity > 0 && !Holds(Tracked(log, capacity), response)
    ensures var prior := Tracked(log, capacity);
            Tracked(log + [Ack(response, ms)], capacity)
            == (if |prior| >= capacity then prior[1..] else prior) + [Entry(response, |log|)]
  {
    assert (log + [Ack(response, ms)])[..|log|] == log;
    LastNPush(Insertions(log, capacity), capacity, Entry(response, |log|));
  }

  /** An entry's maximum survives an acknowledgement that does not exceed it. */
  lemma MaxStep(log: seq<Ack>, e: Entry, ms: real, next: Ack)
    requires IsMaxSince(log, e, ms)
    requires next.response == e.response ==> next.ms <= ms
    ensures IsMaxSince(log + [next], e, ms)
  {
    var j :| e.from <= j < |log| && log[j] == Ack(e.response, ms);
    assert (log + [next])[j] == Ack(e.response, ms);
  }

  /** Raising (or keeping) one tracked maximum leaves every tracked maximum right. */
  lemma MaxAgain(log: seq<Ack>, entries: seq<Entry>, response: string, ms: real, values: map<string, real>)
    requires response in values && Maxima(log, entries, values)
    ensures var values' := if ms <= values[response] then values else values[response := ms];
            Maxima(log + [Ack(response, ms)], entries, values')
  {
    var values' := if ms <= values[response] then values else values[response := ms];
    var grown := log + [Ack(response, ms)];
    forall k | 0 <= k < |entries|
      ensures IsMaxSince(grown, entries[k], values'[entries[k].response])
    {
      if entries[k].response == response && ms > values[response] {
        assert grown[|log|] == Ack(response, ms);
      } else {
        MaxStep(log, entries[k], values[entries[k].response], Ack(response, ms));
      }
    }
  }

  /** A new entry starts at its own value and leaves the other maxima as they were. */
  lemma MaxNew(log: seq<Ack>, entries: seq<Entry>, response: string, ms: real, values: map<string, real>)
    requires !Holds(entries, response) && Maxima(log, entries, values)
    ensures Maxima(log + [Ack(response, ms)], entries, values)
    ensures IsMaxSince(log + [Ack(response, ms)], Entry(response, |log|), ms)
  {
    forall k | 0 <= k < |entries|
      ensures IsMaxSince(log + [Ack(response, ms)], entries[k], values[entries[k].response])
    {
      MaxStep(log, entries[k], values[entries[k].response], Ack(response, ms));
    }
    assert (log + [Ack(response, ms)])[|log|] == Ack(response, ms);
  }
}
