/** The store and forward queue of src/storage/store.ts. */
module ForwardQueue {
  import opened Basics
  import opened OrderedMaps
  import opened Envelopes
  import FiniteSets

  const MAX_PER_NEIGHBOR: nat := 50
  const MAX_TOTAL: nat := 200

  /** Whom the node's own envelopes are stored for. */
  const ORIGIN: NeighborId := "origin"

  datatype Stored = Stored(envelope: Envelope, receivedFrom: NeighborId, storedAt: int)

  /** In the order envelopes were stored. */
  type Queue = OrderedMap<MessageId, Stored>

  datatype Refusal = InvalidHeader | Duplicate | QueueFull | NeighborQuotaExceeded

  const EMPTY: Queue := OrderedMap([], map[])

  // ----- The queue as a value -----

  function FromNeighbor(q: Queue, n: NeighborId): set<MessageId> {
    set k | k in q.at && q.at[k].receivedFrom == n
  }

  function Unexpired(q: Queue, now: nat): set<MessageId> {
    set k | k in q.at && ValidHeader(q.at[k].envelope.header, now)
  }

  function Within(q: Queue, now: nat, maxAgeSeconds: int): set<MessageId> {
    set k | k in q.at && ValidWithin(q.at[k].envelope.header, now, maxAgeSeconds)
  }

  function Purged(q: Queue, now: nat): Queue {
    Restrict(q, Unexpired(q, now))
  }

  /** Why an envelope is refused, checked in this order, if it is. */
  function RefusalOf(q: Queue, e: Envelope, from: NeighborId, now: nat): Option<Refusal> {
    if !ValidHeader(e.header, now) then Some(InvalidHeader)
    else if e.header.messageId in q.at then Some(Duplicate)
    else if |q.at| >= MAX_TOTAL then Some(QueueFull)
    else if |FromNeighbor(q, from)| >= MAX_PER_NEIGHBOR then Some(NeighborQuotaExceeded)
    else None
  }

  /** store(): the queue afterwards, and the reason when nothing was stored. */
  function Store(q: Queue, e: Envelope, from: NeighborId, now: nat): (Queue, Option<Refusal>) {
    var live := Purged(q, now);
    var refusal := RefusalOf(live, e, from, now);
    if refusal.Some? then (live, refusal)
    else (Put(live, e.header.messageId, Stored(e, from, now / 1000)), None)
  }

  function Acknowledge(q: Queue, id: MessageId): Queue {
    Drop(q, id)
  }

  /** The envelopes for a destination among the first i stored. */
  function ForDestinationAmong(q: Queue, hint: Hint, i: nat): seq<Envelope>
    requires i <= |q.order|
  {
    if i == 0 then []
    else
      var k := q.order[i - 1];
      ForDestinationAmong(q, hint, i - 1) +
      if k in q.at && q.at[k].envelope.header.destinationHint == hint then [q.at[k].envelope] else []
  }

  /** getByDestination() on a purged queue. */
  function ForDestination(q: Queue, hint: Hint): seq<Envelope> {
    ForDestinationAmong(q, hint, |q.order|)
  }

  /** getByIds() on a purged queue: in the queue's order, not the request's. */
  function WithIds(q: Queue, ids: set<MessageId>, i: nat): seq<Envelope>
    requires i <= |q.order|
  {
    if i == 0 then []
    else
      var k := q.order[i - 1];
      WithIds(q, ids, i - 1) + if k in q.at && k in ids then [q.at[k].envelope] else []
  }

  /** Both quotas hold, and every envelope is filed under its own id. */
  ghost predicate QueueInv(q: Queue) {
    && Listed(q)
    && (forall k :: k in q.at ==> q.at[k].envelope.header.messageId == k)
    && |q.at| <= MAX_TOTAL
    && (forall n :: |FromNeighbor(q, n)| <= MAX_PER_NEIGHBOR)
  }

  lemma RestrictKeepsInv(q: Queue, keys: set<MessageId>)
    requires QueueInv(q)
    ensures QueueInv(Restrict(q, keys))
  {
    RestrictListed(q, keys);
    var r := Restrict(q, keys);
    FiniteSets.SmallerSubset(r.at.Keys, q.at.Keys);
    assert |r.at| == |r.at.Keys| && |q.at| == |q.at.Keys|;
    forall n ensures |FromNeighbor(r, n)| <= MAX_PER_NEIGHBOR {
      FiniteSets.SmallerSubset(FromNeighbor(r, n), FromNeighbor(q, n));
    }
  }

  lemma PutAt(q: Queue, k: MessageId, v: Stored)
    ensures Put(q, k, v).at == q.at[k := v]
    ensures k !in q.at ==> |Put(q, k, v).at| == |q.at| + 1
  {
    assert q.at[k := v].Keys == q.at.Keys + {k};
  }

  lemma PutKeepsInv(q: Queue, e: Envelope, from: NeighborId, at: int)
    requires QueueInv(q) && e.header.messageId !in q.at
    requires |q.at| < MAX_TOTAL && |FromNeighbor(q, from)| < MAX_PER_NEIGHBOR
    ensures QueueInv(Put(q, e.header.messageId, Stored(e, from, at)))
  {
    hide FromNeighbor, Put, Listed;
    var id, v := e.header.messageId, Stored(e, from, at);
    PutListed(q, id, v);
    PutAt(q, id, v);
    forall n ensures |FromNeighbor(Put(q, id, v), n)| <= MAX_PER_NEIGHBOR {
      PutCounts(q, id, v, n);
    }
  }

  /** Whatever is offered, the quotas hold afterwards. */
  lemma StoreKeepsInv(q: Queue, e: Envelope, from: NeighborId, now: nat)
    requires QueueInv(q)
    ensures QueueInv(Store(q, e, from, now).0)
  {
    hide QueueInv, FromNeighbor, ValidHeader, Restrict, Put;
    RestrictKeepsInv(q, Unexpired(q, now));
    if Store(q, e, from, now).1.None? {
      PutKeepsInv(Purged(q, now), e, from, now / 1000);
    }
  }

  /** After an offer everything held is within the age limit, and what was held
      before is there unchanged unless it expired. */
  lemma StoreKeepsOthers(q: Queue, e: Envelope, from: NeighborId, now: nat)
    ensures var (next, refusal) := Store(q, e, from, now);
            && Unexpired(next, now) == next.at.Keys
            && next.at.Keys == Unexpired(q, now) + (if refusal.None? then {e.header.messageId} else {})
            && (forall k :: k in Unexpired(q, now) ==> next.at[k] == q.at[k])
            && (refusal.None? ==> e.header.messageId !in Unexpired(q, now) && next.at[e.header.messageId].envelope == e)
  {
    hide Only, FromNeighbor;
  }

  /** What is held keeps its order, and what is stored comes last. */
  lemma StoreKeepsOrder(q: Queue, e: Envelope, from: NeighborId, now: nat)
    ensures var (next, refusal) := Store(q, e, from, now);
            next.order == Only(q.order, Unexpired(q, now)) + (if refusal.None? then [e.header.messageId] else [])
  {
    hide Only, FromNeighbor, ValidHeader;
  }

  /** Purging again at the same instant removes nothing more. */
  lemma PurgedInv(q: Queue, now: nat)
    requires QueueInv(q)
    ensures QueueInv(Purged(q, now)) && Unexpired(Purged(q, now), now) == Purged(q, now).at.Keys
    ensures Purged(Purged(q, now), now) == Purged(q, now)
  {
    hide ValidHeader, Only, Listed;
    RestrictKeepsInv(q, Unexpired(q, now));
    var live := Unexpired(q, now);
    assert Unexpired(Purged(q, now), now) == live;
    RestrictTwice(q, live, live);
    assert live * live == live;
  }

  // ----- The queue the node keeps, with its per neighbor counters -----

  function Count(m: map<NeighborId, nat>, n: NeighborId): nat {
    if n in m then m[n] else 0
  }

  ghost predicate CountsAre(q: Queue, counts: map<NeighborId, nat>) {
    forall n :: Count(counts, n) == |FromNeighbor(q, n)|
  }

  lemma DropCounts(q: Queue, k: MessageId, n: NeighborId)
    requires k in q.at
    ensures |FromNeighbor(Drop(q, k), n)| == |FromNeighbor(q, n)| - (if q.at[k].receivedFrom == n then 1 else 0)
  {
    assert FromNeighbor(Drop(q, k), n) == FromNeighbor(q, n) - {k};
  }

  lemma PutCounts(q: Queue, k: MessageId, v: Stored, n: NeighborId)
    requires k !in q.at
    ensures |FromNeighbor(Put(q, k, v), n)| == |FromNeighbor(q, n)| + (if v.receivedFrom == n then 1 else 0)
  {
    assert FromNeighbor(Put(q, k, v), n) == FromNeighbor(q, n) + (if v.receivedFrom == n then {k} else {});
  }

  /** A counter is dropped when nothing is left to count. */
  function Fewer(counts: map<NeighborId, nat>, n: NeighborId): map<NeighborId, nat> {
    if Count(counts, n) <= 1 then counts - {n} else counts[n := Count(counts, n) - 1]
  }

  lemma RemovalCounted(q: Queue, counts: map<NeighborId, nat>, k: MessageId)
    requires CountsAre(q, counts) && k in q.at
    ensures CountsAre(Drop(q, k), Fewer(counts, q.at[k].receivedFrom))
  {
    hide FromNeighbor, Drop;
    forall n { DropCounts(q, k, n); }
  }

  lemma StoringCounted(q: Queue, counts: map<NeighborId, nat>, k: MessageId, v: Stored)
    requires CountsAre(q, counts) && k !in q.at
    ensures CountsAre(Put(q, k, v), counts[v.receivedFrom := Count(counts, v.receivedFrom) + 1])
  {
    hide FromNeighbor, Put;
    forall n { PutCounts(q, k, v, n); }
  }

  lemma CountIs(q: Queue, counts: map<NeighborId, nat>, n: NeighborId)
    requires CountsAre(q, counts)
    ensures Count(counts, n) == |FromNeighbor(q, n)|
  {
  }

  lemma InvListed(q: Queue)
    requires QueueInv(q)
    ensures Listed(q)
  {
  }

  lemma OrderHeld(q: Queue, i: nat)
    requires Listed(q) && i < |q.order|
    ensures q.order[i] in q.at
  {
  }

  class StoreForwardQueue {
    var entries: Queue
    var perNeighborCount: map<NeighborId, nat>

    ghost predicate Valid()
      reads this
    {
      QueueInv(entries) && CountsAre(entries, perNeighborCount)
    }

    constructor ()
      ensures Valid() && entries == EMPTY
    {
      entries, perNeighborCount := EMPTY, map[];
      new;
      forall n ensures FromNeighbor(EMPTY, n) == {} {
      }
    }

    method RemoveByKey(key: MessageId)
      requires Valid()
      modifies this
      ensures Valid() && entries == (if key in old(entries).at then Drop(old(entries), key) else old(entries))
    {
      hide QueueInv, CountsAre, Restrict, Fewer;
      if key in entries.at {
        var from := entries.at[key].receivedFrom;
        RemovalCounted(entries, perNeighborCount, key);
        RestrictKeepsInv(entries, entries.at.Keys - {key});
        perNeighborCount := Fewer(perNeighborCount, from);
        entries := Drop(entries, key);
      }
    }

    method Confirm(id: MessageId)
      requires Valid()
      modifies this
      ensures Valid() && entries == Acknowledge(old(entries), id)
    {
      hide QueueInv, CountsAre, Restrict;
      if id !in entries.at {
        InvListed(entries);
        assert entries.at.Keys - {id} == entries.at.Keys;
        RestrictAll(entries, entries.at.Keys - {id});
      }
      RemoveByKey(id);
    }

    method PurgeExpired(now: nat, maxAgeSeconds: int := MAX_AGE_SECONDS) returns (purged: nat)
      requires Valid()
      modifies this
      ensures Valid() && entries == Restrict(old(entries), Within(old(entries), now, maxAgeSeconds))
      ensures maxAgeSeconds == MAX_AGE_SECONDS ==> entries == Purged(old(entries), now)
      ensures purged == |old(entries).at| - |entries.at|
    {
      hide QueueInv, CountsAre, ValidWithin, Restrict, Drop, Swept, Listed;
      purged := 0;
      ghost var all := entries;
      ghost var good := Within(all, now, maxAgeSeconds);
      assert maxAgeSeconds == MAX_AGE_SECONDS ==> good == Unexpired(all, now);
      InvListed(all);
      SweepStarts(all, good);
      var keys := entries.order;
      for i := 0 to |keys|
        invariant Valid() && keys == all.order && Listed(all)
        invariant entries == Restrict(all, Swept(all, i, good))
        invariant purged == |all.at| - |entries.at|
      {
        var key := keys[i];
        SweepMoves(all, i, good);
        if !ValidWithin(entries.at[key].envelope.header, now, maxAgeSeconds) {
          RemoveByKey(key);
          purged := purged + 1;
        }
      }
      SweepEnds(all, good);
    }

    method Has(id: MessageId, now: nat) returns (held: bool)
      requires Valid()
      modifies this
      ensures Valid() && entries == Purged(old(entries), now)
      ensures held == (id in entries.at)
    {
      hide QueueInv, CountsAre, Purged;
      var purged := PurgeExpired(now);
      held := id in entries.at;
    }

    method Offer(e: Envelope, from: NeighborId, now: nat) returns (refusal: Option<Refusal>)
      requires Valid()
      modifies this
      ensures Valid()
      ensures (entries, refusal) == Store(old(entries), e, from, now)
    {
      hide QueueInv, CountsAre, Restrict, ValidHeader, Put, Unexpired;
      StoreKeepsInv(entries, e, from, now);
      var purged := PurgeExpired(now);
      if !ValidHeader(e.header, now) { return Some(InvalidHeader); }
      var key := e.header.messageId;
      if key in entries.at { return Some(Duplicate); }
      if |entries.at| >= MAX_TOTAL { return Some(QueueFull); }
      var count := Count(perNeighborCount, from);
      assert count == |FromNeighbor(entries, from)| by { CountIs(entries, perNeighborCount, from); }
      if count >= MAX_PER_NEIGHBOR { return Some(NeighborQuotaExceeded); }
      var stored := Stored(e, from, now / 1000);
      StoringCounted(entries, perNeighborCount, key, stored);
      entries := Put(entries, key, stored);
      perNeighborCount := perNeighborCount[from := count + 1];
      return None;
    }

    method GetByDestination(hint: Hint, now: nat) returns (found: seq<Envelope>)
      requires Valid()
      modifies this
      ensures Valid() && entries == Purged(old(entries), now)
      ensures found == ForDestination(entries, hint)
    {
      hide QueueInv, CountsAre, ValidHeader, Purged, Listed, ForDestination;
      var purged := PurgeExpired(now);
      InvListed(entries);
      found := Select(entries, hint);
    }
  }

  /** The envelopes of a queue for one destination, oldest first. */
  method Select(q: Queue, hint: Hint) returns (found: seq<Envelope>)
    requires Listed(q)
    ensures found == ForDestination(q, hint)
  {
    hide Listed;
    found := [];
    for i := 0 to |q.order|
      invariant found == ForDestinationAmong(q, hint, i)
    {
      OrderHeld(q, i);
      var e := q.at[q.order[i]].envelope;
      if e.header.destinationHint == hint { found := found + [e]; }
    }
  }
}
