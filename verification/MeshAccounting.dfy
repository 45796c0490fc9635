/** Every envelope a relay is given is accounted for. */
module MeshAccounting {
  import opened Basics
  import opened OrderedMaps
  import opened Envelopes
  import opened RouteTable
  import opened Relay
  import Q = ForwardQueue

  /** What is counted of a message id: its copies, the hops they have left, the
      copies equal to an original in all but their hops, or those not equal. */
  datatype Measure =
    | Copies(id: MessageId) | Hops(id: MessageId)
    | Same(original: Envelope) | Altered(original: Envelope)
  {
    function Id(): MessageId {
      if Copies? || Hops? then id else original.header.messageId
    }
  }

  function Weigh(m: Measure, e: Envelope): nat {
    if e.header.messageId != m.Id() then 0
    else
      match m
      case Copies(_) => 1
      case Hops(_) => if e.header.ttl > 0 then e.header.ttl else 0
      case Same(original) => if SameButTtl(e, original) then 1 else 0
      case Altered(original) => if SameButTtl(e, original) then 0 else 1
  }

  /** What one transmission uses up: a hop, but no copy. */
  function Cost(m: Measure, e: Envelope): nat {
    if m.Hops? && e.header.messageId == m.Id() then 1 else 0
  }

  function Sum(m: Measure, s: seq<Envelope>): nat {
    if s == [] then 0 else Weigh(m, s[0]) + Sum(m, s[1..])
  }

  function SumSent(m: Measure, sent: seq<Transmission>): nat {
    if sent == [] then 0 else Weigh(m, sent[0].envelope) + Cost(m, sent[0].envelope) + SumSent(m, sent[1..])
  }

  function OrderSum(m: Measure, order: seq<MessageId>, at: map<MessageId, Q.Stored>): nat {
    if order == [] then 0
    else (if order[0] in at then Weigh(m, at[order[0]].envelope) else 0) + OrderSum(m, order[1..], at)
  }

  function QueueSum(m: Measure, q: Q.Queue): nat {
    OrderSum(m, q.order, q.at)
  }

  /** What a handler sent, spent on sending, handed over and gave up. */
  function Left(m: Measure, effects: Effects): nat {
    SumSent(m, effects.sent) + Sum(m, effects.delivered) + Sum(m, effects.dropped)
  }

  lemma {:induction false} SumAppend(m: Measure, a: seq<Envelope>, b: seq<Envelope>)
    ensures Sum(m, a + b) == Sum(m, a) + Sum(m, b)
  {
    if a == [] {
      assert a + b == b;
    } else {
      SumAppend(m, a[1..], b);
      assert (a + b)[1..] == a[1..] + b;
    }
  }

  lemma {:induction false} SumSentAppend(m: Measure, a: seq<Transmission>, b: seq<Transmission>)
    ensures SumSent(m, a + b) == SumSent(m, a) + SumSent(m, b)
  {
    if a == [] {
      assert a + b == b;
    } else {
      SumSentAppend(m, a[1..], b);
      assert (a + b)[1..] == a[1..] + b;
    }
  }

  lemma LeftPlus(m: Measure, a: Effects, b: Effects)
    ensures Left(m, Plus(a, b)) == Left(m, a) + Left(m, b)
  {
    SumSentAppend(m, a.sent, b.sent);
    SumAppend(m, a.delivered, b.delivered);
    SumAppend(m, a.dropped, b.dropped);
  }

  lemma SumOne(m: Measure, e: Envelope)
    ensures Sum(m, [e]) == Weigh(m, e) && Sum(m, []) == 0
  {
    assert [e][1..] == [];
  }

  lemma SentOne(m: Measure, t: Transmission)
    ensures SumSent(m, [t]) == Weigh(m, t.envelope) + Cost(m, t.envelope) && SumSent(m, []) == 0
  {
    assert [t][1..] == [];
  }

  /** Relaying trades a hop left for a hop made. */
  lemma RelayingCosts(m: Measure, e: Envelope)
    requires e.header.ttl > 0
    ensures Weigh(m, Relayed(e)) + Cost(m, Relayed(e)) == Weigh(m, e)
  {
  }

  // ----- Sums over a queue -----

  lemma {:induction false} SumIgnores(m: Measure, order: seq<MessageId>, a: map<MessageId, Q.Stored>,
          b: map<MessageId, Q.Stored>)
    requires forall k :: k in order ==> (k in a <==> k in b) && (k in a ==> a[k] == b[k])
    ensures OrderSum(m, order, a) == OrderSum(m, order, b)
  {
    if order != [] { SumIgnores(m, order[1..], a, b); }
  }

  lemma {:induction false} OrderSumAppend(m: Measure, order: seq<MessageId>, k: MessageId, at: map<MessageId, Q.Stored>)
    ensures OrderSum(m, order + [k], at) == OrderSum(m, order, at) + (if k in at then Weigh(m, at[k].envelope) else 0)
  {
    if order == [] {
      assert [k][1..] == [] && order + [k] == [k];
    } else {
      OrderSumAppend(m, order[1..], k, at);
      assert (order + [k])[1..] == order[1..] + [k];
    }
  }

  lemma PutSum(m: Measure, q: Q.Queue, k: MessageId, v: Q.Stored)
    requires Listed(q) && k !in q.at
    ensures QueueSum(m, Put(q, k, v)) == QueueSum(m, q) + Weigh(m, v.envelope)
  {
    OrderSumAppend(m, q.order, k, q.at[k := v]);
    SumIgnores(m, q.order, q.at, q.at[k := v]);
  }

  lemma {:induction false} OnlySum(m: Measure, order: seq<MessageId>, at: map<MessageId, Q.Stored>,
          keys: set<MessageId>, now: nat)
    requires forall k :: k in order && k in at ==> (k in keys <==> ValidHeader(at[k].envelope.header, now))
    requires keys <= at.Keys
    ensures OrderSum(m, order, at) == OrderSum(m, Only(order, keys), at) + Sum(m, ExpiredIn(order, at, now))
  {
    hide ValidHeader;
    if order != [] {
      var k := order[0];
      OnlySum(m, order[1..], at, keys, now);
      if k in keys {
        assert Only(order, keys)[1..] == Only(order[1..], keys);
        assert [] + ExpiredIn(order[1..], at, now) == ExpiredIn(order[1..], at, now);
      } else {
        assert Only(order, keys) == Only(order[1..], keys);
        var here := if k in at then [at[k].envelope] else [];
        SumAppend(m, here, ExpiredIn(order[1..], at, now));
        if k in at { SumOne(m, at[k].envelope); }
      }
    }
  }

  lemma PurgeSum(m: Measure, q: Q.Queue, now: nat)
    ensures QueueSum(m, q) == QueueSum(m, Q.Purged(q, now)) + Sum(m, ExpiredIn(q.order, q.at, now))
  {
    hide ValidHeader;
    var keys := Q.Unexpired(q, now);
    OnlySum(m, q.order, q.at, keys, now);
    forall k | k in Only(q.order, keys) ensures k in keys { OnlyIn(q.order, keys, k); }
    SumIgnores(m, Only(q.order, keys), q.at, Q.Purged(q, now).at);
  }

  lemma {:induction false} DroppedSum(m: Measure, order: seq<MessageId>, at: map<MessageId, Q.Stored>,
          keys: set<MessageId>, k: MessageId)
    requires forall i, j :: 0 <= i < j < |order| ==> order[i] != order[j]
    requires forall x :: x in order && x != k ==> x in keys
    requires k !in keys
    ensures OrderSum(m, order, at) ==
            OrderSum(m, Only(order, keys), at) + (if k in order && k in at then Weigh(m, at[k].envelope) else 0)
  {
    if order != [] {
      DroppedSum(m, order[1..], at, keys, k);
      if order[0] == k {
        assert Only(order, keys) == Only(order[1..], keys);
      } else {
        assert Only(order, keys)[1..] == Only(order[1..], keys);
      }
    }
  }

  lemma DropSum(m: Measure, q: Q.Queue, k: MessageId)
    requires Listed(q) && k in q.at
    ensures QueueSum(m, q) == QueueSum(m, Drop(q, k)) + Weigh(m, q.at[k].envelope)
  {
    var keys := q.at.Keys - {k};
    DroppedSum(m, q.order, q.at, keys, k);
    forall x | x in Only(q.order, keys) ensures x in keys { OnlyIn(q.order, keys, x); }
    SumIgnores(m, Only(q.order, keys), q.at, Drop(q, k).at);
  }

  // ----- One handler at a time -----

  /** A step from queue to queue given `weight`: nothing appears from nowhere, and
      of copies nothing disappears either. */
  ghost predicate Balanced(m: Measure, weight: nat, q: Q.Queue, next: Q.Queue, effects: Effects) {
    && QueueSum(m, next) + Left(m, effects) <= QueueSum(m, q) + weight
    && (!m.Hops? ==> QueueSum(m, next) + Left(m, effects) == QueueSum(m, q) + weight)
    && (Q.QueueInv(q) ==> Q.QueueInv(next))
  }

  lemma KeepBalances(m: Measure, node: Node, e: Envelope, from: NeighborId, now: nat)
    requires Q.QueueInv(node.queue)
    ensures var s := KeepForLater(node, e, from, now); Balanced(m, Weigh(m, e), node.queue, s.node.queue, s.effects)
  {
    hide ValidHeader, QueueSum, Put, ExpiredIn, Sum, Q.RefusalOf, Q.QueueInv, SumSent;
    var expired := ExpiredIn(node.queue.order, node.queue.at, now);
    PurgeSum(m, node.queue, now);
    Q.StoreKeepsInv(node.queue, e, from, now);
    SumOne(m, e);
    SumAppend(m, expired, [e]);
    assert SumSent(m, []) == 0 by { SentOne(m, Transmission("", e)); }
    if Q.Store(node.queue, e, from, now).1.None? {
      var live := Q.Purged(node.queue, now);
      NotHeld(node.queue, e, from, now);
      PutSum(m, live, e.header.messageId, Q.Stored(e, from, now / 1000));
    }
  }

  lemma NotHeld(q: Q.Queue, e: Envelope, from: NeighborId, now: nat)
    requires Q.QueueInv(q) && Q.Store(q, e, from, now).1.None?
    ensures e.header.messageId !in Q.Purged(q, now).at && Listed(Q.Purged(q, now))
  {
    Q.RestrictKeepsInv(q, Q.Unexpired(q, now));
  }

  lemma ForwardOrKeepBalances(m: Measure, node: Node, e: Envelope, next: Option<NeighborId>, from: NeighborId,
          now: nat, up: bool)
    requires Q.QueueInv(node.queue) && e.header.ttl > 0
    ensures var s := ForwardOrKeep(node, e, next, from, now, up);
        Balanced(m, Weigh(m, e), node.queue, s.node.queue, s.effects)
  {
    hide Q.QueueInv, QueueSum, KeepForLater, AcksAfter, Weigh, Cost;
    match next
    case None => KeepBalances(m, node, e, from, now);
    case Some(n) =>
      var tried := Forward(node, e, n, now, up);
      if up {
        SentOne(m, Transmission(n, Relayed(e)));
        RelayingCosts(m, e);
      } else {
        KeepBalances(m, tried, e, from, now);
      }
  }

  lemma RouteOnBalances(m: Measure, node: Node, e: Envelope, from: Option<NeighborId>, now: nat, up: bool)
    requires Q.QueueInv(node.queue)
    ensures var s := RouteOn(node, e, from, now, up); Balanced(m, Weigh(m, e), node.queue, s.node.queue, s.effects)
  {
    hide Q.QueueInv, QueueSum, ForwardOrKeep, Lookup, Weigh;
    SumOne(m, e);
    if e.header.ttl > 0 {
      ForwardOrKeepBalances(m, node, e, NextHop(node, e.header.destinationHint), from.GetOr(Q.ORIGIN), now, up);
    }
  }

  lemma CheckAckQueue(node: Node, e: Envelope, from: NeighborId, now: int)
    requires CheckAck(node, e, from, now).Ok?
    ensures CheckAck(node, e, from, now).value.queue == node.queue
  {
  }

  lemma ReceiveBalances(m: Measure, node: Node, e: Envelope, from: Option<NeighborId>, now: nat, up: bool)
    requires Q.QueueInv(node.queue)
    ensures var s := Receive(node, e, from, now, up); Balanced(m, Weigh(m, e), node.queue, s.node.queue, s.effects)
  {
    hide Q.QueueInv, QueueSum, CheckAck, RouteOn, ValidHeader, Purged, DemoteOverdue, Restrict;
    var live := PurgeRoutingState(node, now);
    SumOne(m, e);
    if ValidHeader(e.header, now) && Unicast(e) {
      if e.header.packetType == ACK && from.Some? {
        var checked := CheckAck(live, e, from.value, now);
        if checked.Ok? {
          CheckAckQueue(live, e, from.value, now);
          RouteOnBalances(m, checked.value, e, from, now, up);
        }
      } else {
        RouteOnBalances(m, live, e, from, now, up);
      }
    }
  }

  lemma SendBalances(m: Measure, node: Node, e: Envelope, now: nat, up: bool)
    requires Q.QueueInv(node.queue)
    ensures var s := Send(node, e, now, up); Balanced(m, Weigh(m, e), node.queue, s.node.queue, s.effects)
  {
    hide Q.QueueInv, QueueSum, ForwardOrKeep, Lookup, Purged, DemoteOverdue, Restrict;
    var live := PurgeRoutingState(node, now);
    SumOne(m, e);
    if ValidHeader(e.header, now) {
      var direct := DirectPeer(live.peers, e.header.destinationHint);
      var next := if direct.Some? then direct else NextHop(live, e.header.destinationHint);
      ForwardOrKeepBalances(m, live, e, next, Q.ORIGIN, now, up);
    }
  }

  /** An acknowledgement may make one hop more than its TTL. */
  lemma SendAckBalances(m: Measure, node: Node, id: MessageId, hint: Hint, acknowledged: MessageId, now: nat, up: bool)
    requires Q.QueueInv(node.queue)
    ensures var s := SendAck(node, id, hint, acknowledged, now, up);
            var ack := CreateAck(id, hint, acknowledged, node.identity, now);
            Balanced(m, Weigh(m, ack) + Cost(m, ack), node.queue, s.node.queue, s.effects)
  {
    hide Q.QueueInv, QueueSum, Receive, KeepForLater, Lookup, Purged, DemoteOverdue, Restrict;
    var live := PurgeRoutingState(node, now);
    var ack := CreateAck(id, hint, acknowledged, node.identity, now);
    if hint == HintOf(node.identity) {
      ReceiveBalances(m, live, ack, None, now, up);
    } else {
      var next := NextHop(live, hint);
      if next.Some? && up {
        SentOne(m, Transmission(next.value, ack));
      } else {
        KeepBalances(m, live, ack, Q.ORIGIN, now);
      }
    }
  }

  // ----- Draining the queue -----

  function Ids(envelopes: seq<Envelope>): set<MessageId> {
    set e | e in envelopes :: e.header.messageId
  }

  /** Distinct envelopes the queue holds, each with hops left. */
  ghost predicate Held(q: Q.Queue, envelopes: seq<Envelope>) {
    && (forall e :: e in envelopes ==> HeldOne(q, e))
    && (forall i, j :: 0 <= i < j < |envelopes| ==> envelopes[i].header.messageId != envelopes[j].header.messageId)
  }

  ghost predicate HeldOne(q: Q.Queue, e: Envelope) {
    && e.header.messageId in q.at && q.at[e.header.messageId].envelope == e
    && e.header.ttl > 0
  }

  lemma BalancedThen(m: Measure, a: Q.Queue, b: Q.Queue, c: Q.Queue, s: Effects, t: Effects)
    requires Balanced(m, 0, a, b, s) && Balanced(m, 0, b, c, t)
    ensures Balanced(m, 0, a, c, Plus(s, t))
  {
    hide Q.QueueInv, QueueSum;
    LeftPlus(m, s, t);
  }

  lemma NothingBalances(m: Measure, q: Q.Queue)
    ensures Balanced(m, 0, q, q, NOTHING)
  {
    assert SumSent(m, []) == 0 && Sum(m, []) == 0;
  }

  lemma SentBalances(m: Measure, q: Q.Queue, e: Envelope, next: NeighborId)
    requires Q.QueueInv(q) && HeldOne(q, e)
    ensures Balanced(m, 0, q, Q.Acknowledge(q, e.header.messageId), Effects([Transmission(next, Relayed(e))], [], []))
  {
    hide QueueSum, Restrict, Weigh, Cost;
    DropSum(m, q, e.header.messageId);
    SentOne(m, Transmission(next, Relayed(e)));
    RelayingCosts(m, e);
    Q.RestrictKeepsInv(q, q.at.Keys - {e.header.messageId});
  }

  lemma IdsNext(envelopes: seq<Envelope>)
    requires envelopes != []
    ensures var i := |envelopes| - 1;
            Ids(envelopes) == Ids(envelopes[..i]) + {envelopes[i].header.messageId}
  {
    var i := |envelopes| - 1;
    assert envelopes == envelopes[..i] + [envelopes[i]];
  }

  lemma HeldPrefix(q: Q.Queue, envelopes: seq<Envelope>)
    requires Held(q, envelopes) && envelopes != []
    ensures var i := |envelopes| - 1;
            && Held(q, envelopes[..i]) && HeldOne(q, envelopes[i])
            && envelopes[i].header.messageId !in Ids(envelopes[..i])
  {
    hide HeldOne;
    var i := |envelopes| - 1;
    assert envelopes[i] in envelopes;
    forall e | e in envelopes[..i] ensures HeldOne(q, e) { assert e in envelopes; }
  }

  lemma {:induction false} SendQueuedBalances(m: Measure, node: Node, envelopes: seq<Envelope>, next: NeighborId,
          now: int, ups: seq<bool>)
    requires Q.QueueInv(node.queue) && Held(node.queue, envelopes)
    ensures var (after, effects) := SendQueued(node, envelopes, next, now, ups);
            && Balanced(m, 0, node.queue, after.queue, effects)
            && (forall k :: k !in Ids(envelopes) && k in node.queue.at ==>
                  k in after.queue.at && after.queue.at[k] == node.queue.at[k])
  {
    hide Balanced, Held, AcksAfter, Q.QueueInv, Ids, Only;
    NothingBalances(m, node.queue);
    if envelopes != [] {
      var i := |envelopes| - 1;
      var e := envelopes[i];
      HeldPrefix(node.queue, envelopes);
      IdsNext(envelopes);
      SendQueuedBalances(m, node, envelopes[..i], next, now, ups);
      var (before, effects) := SendQueued(node, envelopes[..i], next, now, ups);
      if Up(ups, i) {
        assert Q.QueueInv(before.queue) by { BalancedInv(m, node.queue, before.queue, effects); }
        SentBalances(m, before.queue, e, next);
        BalancedThen(m, node.queue, before.queue, Q.Acknowledge(before.queue, e.header.messageId), effects,
                     Effects([Transmission(next, Relayed(e))], [], []));
      }
    }
  }

  lemma BalancedInv(m: Measure, q: Q.Queue, next: Q.Queue, effects: Effects)
    requires Balanced(m, 0, q, next, effects) && Q.QueueInv(q)
    ensures Q.QueueInv(next)
  {
  }

  lemma EntryHeld(q: Q.Queue, i: nat, now: nat)
    requires Q.QueueInv(q) && i < |q.order| && Q.Unexpired(q, now) == q.at.Keys
    ensures var k := q.order[i];
            && k in q.at && k !in q.order[..i]
            && q.at[k].envelope.header.messageId == k && HeldOne(q, q.at[k].envelope)
  {
    assert q.order[i] in Q.Unexpired(q, now);
  }

  lemma HeldAnother(q: Q.Queue, found: seq<Envelope>, e: Envelope, ids: seq<MessageId>)
    requires Held(q, found) && HeldOne(q, e)
    requires e.header.messageId !in ids && forall x :: x in found ==> x.header.messageId in ids
    ensures Held(q, found + [e])
  {
    hide HeldOne;
  }

  lemma {:induction false} FoundAreHeld(q: Q.Queue, hint: Hint, i: nat, now: nat)
    requires Q.QueueInv(q) && i <= |q.order| && Q.Unexpired(q, now) == q.at.Keys
    ensures var found := Q.ForDestinationAmong(q, hint, i);
            Held(q, found) && forall e :: e in found ==> e.header.messageId in q.order[..i]
    decreases i
  {
    hide Q.QueueInv, Q.Unexpired, HeldOne;
    if i > 0 {
      FoundAreHeld(q, hint, i - 1, now);
      EntryHeld(q, i - 1, now);
      var k := q.order[i - 1];
      assert q.order[..i] == q.order[..i - 1] + [k];
      HeldAnother(q, Q.ForDestinationAmong(q, hint, i - 1), q.at[k].envelope, q.order[..i - 1]);
    }
  }

  lemma PurgeBalances(m: Measure, q: Q.Queue, now: nat)
    requires Q.QueueInv(q)
    ensures Balanced(m, 0, q, Q.Purged(q, now), Effects([], [], ExpiredIn(q.order, q.at, now)))
    ensures Q.QueueInv(Q.Purged(q, now)) && Q.Unexpired(Q.Purged(q, now), now) == Q.Purged(q, now).at.Keys
  {
    hide QueueSum, ExpiredIn, Only;
    PurgeSum(m, q, now);
    Q.RestrictKeepsInv(q, Q.Unexpired(q, now));
  }

  lemma DeliverQueuedBalances(m: Measure, node: Node, hint: Hint, now: nat, ups: seq<bool>)
    requires Q.QueueInv(node.queue)
    ensures var (after, effects) := DeliverQueued(node, hint, now, ups);
        Balanced(m, 0, node.queue, after.queue, effects)
  {
    hide Q.QueueInv, Balanced, SendQueued, Lookup, Purged, DemoteOverdue, Restrict, Q.ForDestinationAmong, Held,
        Q.Unexpired;
    NothingBalances(m, node.queue);
    var live := PurgeRoutingState(node, now);
    var next := NextHop(live, hint);
    if next.Some? {
      PurgeBalances(m, node.queue, now);
      var purged := live.(queue := Q.Purged(live.queue, now));
      FoundAreHeld(purged.queue, hint, |purged.queue.order|, now);
      SendQueuedBalances(m, purged, Q.ForDestination(purged.queue, hint), next.value, now, ups);
      var (after, effects) := SendQueued(purged, Q.ForDestination(purged.queue, hint), next.value, now, ups);
      BalancedThen(m, node.queue, purged.queue, after.queue,
          Effects([], [], ExpiredIn(live.queue.order, live.queue.at, now)), effects);
    }
  }

  lemma {:induction false} DeliverAllBalances(m: Measure, node: Node, hints: seq<Hint>, now: nat, ups: seq<seq<bool>>)
    requires Q.QueueInv(node.queue)
    ensures var (after, effects) := DeliverAllQueued(node, hints, now, ups);
        Balanced(m, 0, node.queue, after.queue, effects)
  {
    hide Q.QueueInv, Balanced, DeliverQueued;
    NothingBalances(m, node.queue);
    if hints != [] {
      var i := |hints| - 1;
      DeliverAllBalances(m, node, hints[..i], now, ups);
      var (before, effects) := DeliverAllQueued(node, hints[..i], now, ups);
      assert Q.QueueInv(before.queue) by { BalancedInv(m, node.queue, before.queue, effects); }
      DeliverQueuedBalances(m, before, hints[i], now, if i < |ups| then ups[i] else []);
      var (after, more) := DeliverQueued(before, hints[i], now, if i < |ups| then ups[i] else []);
      BalancedThen(m, node.queue, before.queue, after.queue, effects, more);
    }
  }

  lemma AdvertisementBalances(m: Measure, node: Node, from: NeighborId, ad: Advertisement, now: nat,
          ups: seq<seq<bool>>)
    requires Q.QueueInv(node.queue)
    ensures var (after, effects) := ReceiveAdvertisement(node, from, ad, now, ups);
        Balanced(m, 0, node.queue, after.queue, effects)
  {
    hide Q.QueueInv, Balanced, DeliverAllQueued, Purged, DemoteOverdue, Restrict, Learn, VerifyAdvertisement, SeenAfter;
    NothingBalances(m, node.queue);
    var learned := Learned(PurgeRoutingState(node, now), from, ad, now);
    if learned.Some? { DeliverAllBalances(m, learned.value, ad.destinations, now, ups); }
  }

  /** What a call brings into the network: the envelope given, and for a fresh
      acknowledgement the hop its first transmission does not pay for. */
  function Brought(m: Measure, node: Node, event: NodeEvent, now: nat): nat {
    match event
    case Receives(e, _, _) => Weigh(m, e)
    case Sends(e, _) => Weigh(m, e)
    case SendsAck(id, hint, acknowledged, _) =>
      var ack := CreateAck(id, hint, acknowledged, node.identity, now);
      Weigh(m, ack) + Cost(m, ack)
    case _ => 0
  }

  /** Any call of any relay balances, and keeps its queue within the quotas. */
  lemma StepBalances(m: Measure, node: Node, event: NodeEvent, now: nat)
    requires Q.QueueInv(node.queue)
    ensures var (next, effects) := NodeStep(node, event, now);
            && Balanced(m, Brought(m, node, event, now), node.queue, next.queue, effects)
            && Q.QueueInv(next.queue)
  {
    hide Q.QueueInv, QueueSum, Left, Receive, Send, SendAck, ReceiveAdvertisement, Purged, DemoteOverdue, Restrict,
        ExpiredIn, CreateAck, Weigh, Cost;
    match event
    case Receives(e, from, up) => ReceiveBalances(m, node, e, from, now, up);
    case Sends(e, up) => SendBalances(m, node, e, now, up);
    case SendsAck(id, hint, acknowledged, up) => SendAckBalances(m, node, id, hint, acknowledged, now, up);
    case Advertises(from, ad, ups) => AdvertisementBalances(m, node, from, ad, now, ups);
    case ReadsQueue => PurgeBalances(m, node.queue, now);
    case _ => NothingBalances(m, node.queue);
  }
}
