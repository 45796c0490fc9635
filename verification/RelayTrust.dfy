/** Trust in a neighbor is earned: it never exceeds what the neighbor was handed. */
module RelayTrust {
  import opened Basics
  import opened OrderedMaps
  import opened Envelopes
  import opened RouteTable
  import opened Relay
  import FiniteSets

  /** A Data envelope the transport accepted for a neighbor. */
  datatype Handed = Handed(to: NeighborId, id: MessageId, hint: Hint)

  function DataIn(sent: seq<Transmission>): seq<Handed> {
    if sent == [] then []
    else
      var t := sent[|sent| - 1];
      DataIn(sent[..|sent| - 1]) +
      (if t.envelope.header.packetType == DATA
          then [Handed(t.to, t.envelope.header.messageId, t.envelope.header.destinationHint)] else [])
  }

  function HandedTo(handed: seq<Handed>, n: NeighborId): nat {
    if handed == [] then 0
    else HandedTo(handed[..|handed| - 1], n) + (if handed[|handed| - 1].to == n then 1 else 0)
  }

  function PendingTo(acks: PendingAcks, n: NeighborId): set<MessageId> {
    set k | k in acks.at && acks.at[k].neighborId == n
  }

  /** Trust in n and acknowledgements still awaited from n are covered by
      envelopes handed to n. */
  ghost predicate Covered(node: Node, handed: seq<Handed>, n: NeighborId) {
    Score(node.trust, n) + |PendingTo(node.pendingAcks, n)| <= HandedTo(handed, n)
  }

  /** Awaited acknowledgements never exceed their limit. */
  ghost predicate AcksInv(acks: PendingAcks) {
    Listed(acks) && |acks.at| <= MAX_PENDING_ACKS
  }

  lemma {:induction false} HandedAppend(a: seq<Handed>, b: seq<Handed>, n: NeighborId)
    ensures HandedTo(a + b, n) == HandedTo(a, n) + HandedTo(b, n)
  {
    if b == [] {
      assert a + b == a;
    } else {
      HandedAppend(a, b[..|b| - 1], n);
      assert (a + b)[..|a + b| - 1] == a + b[..|b| - 1];
    }
  }

  lemma {:induction false} DataAppend(a: seq<Transmission>, b: seq<Transmission>)
    ensures DataIn(a + b) == DataIn(a) + DataIn(b)
  {
    if b == [] {
      assert a + b == a;
    } else {
      DataAppend(a, b[..|b| - 1]);
      assert (a + b)[..|a + b| - 1] == a + b[..|b| - 1];
    }
  }

  lemma DataInOne(t: Transmission)
    ensures DataIn([t]) ==
            if t.envelope.header.packetType == DATA
            then [Handed(t.to, t.envelope.header.messageId, t.envelope.header.destinationHint)] else []
  {
    assert [t][..0] == [];
    assert DataIn([]) == [];
  }

  lemma HandedToOne(h: Handed, n: NeighborId)
    ensures HandedTo([h], n) == if h.to == n then 1 else 0
  {
    assert [h][..0] == [];
  }

  // ----- The awaited acknowledgements -----

  lemma SmallerAcks(acks: PendingAcks, keys: set<MessageId>, n: NeighborId)
    ensures |PendingTo(Restrict(acks, keys), n)| <= |PendingTo(acks, n)|
    ensures |Restrict(acks, keys).at| <= |acks.at|
    ensures AcksInv(acks) ==> AcksInv(Restrict(acks, keys))
  {
    hide Only, Listed;
    FiniteSets.SmallerSubset(PendingTo(Restrict(acks, keys), n), PendingTo(acks, n));
    FiniteSets.SmallerSubset(Restrict(acks, keys).at.Keys, acks.at.Keys);
    assert |Restrict(acks, keys).at| == |Restrict(acks, keys).at.Keys| && |acks.at| == |acks.at.Keys|;
    if AcksInv(acks) { RestrictListed(acks, keys); }
  }

  lemma PutPending(acks: PendingAcks, id: MessageId, p: PendingAck, n: NeighborId)
    ensures |PendingTo(Put(acks, id, p), n)| <= |PendingTo(acks, n)| + (if p.neighborId == n then 1 else 0)
    ensures |PendingTo(Drop(Put(acks, id, p), id), n)| <= |PendingTo(acks, n)|
  {
    hide Only;
    FiniteSets.SmallerSubset(PendingTo(Put(acks, id, p), n), PendingTo(acks, n) +
        (if p.neighborId == n then {id} else {}));
    FiniteSets.SmallerSubset(PendingTo(Drop(Put(acks, id, p), id), n), PendingTo(acks, n));
  }

  /** Room is made before recording, so the limit holds afterwards. */
  lemma RecordFits(acks: PendingAcks, id: MessageId, m: NeighborId, hint: Hint, now: int)
    requires AcksInv(acks)
    ensures AcksInv(Record(acks, id, m, hint, now))
  {
    hide PutWithin, Listed;
    PutWithinFits(acks, id, PendingAck(m, hint, now), MAX_PENDING_ACKS);
  }

  lemma RecordPending(acks: PendingAcks, id: MessageId, m: NeighborId, hint: Hint, now: int, n: NeighborId)
    ensures |PendingTo(Record(acks, id, m, hint, now), n)| <= |PendingTo(acks, n)| + (if m == n then 1 else 0)
    ensures |PendingTo(Drop(Record(acks, id, m, hint, now), id), n)| <= |PendingTo(acks, n)|
  {
    hide Put, Restrict, PendingTo;
    var room := if |acks.at| >= MAX_PENDING_ACKS && |acks.order| > 0 then Drop(acks, acks.order[0]) else acks;
    if room != acks { SmallerAcks(acks, acks.at.Keys - {acks.order[0]}, n); }
    PutPending(room, id, PendingAck(m, hint, now), n);
  }

  // ----- The node's steps -----

  /** How a step from `node` to `next` that sent `sent` treats neighbor n: trust in
      it does not fall, and what it newly owes or is trusted for was handed over. */
  ghost predicate Fair(node: Node, next: Node, sent: seq<Transmission>, n: NeighborId) {
    && Score(next.trust, n) >= Score(node.trust, n)
    && Score(next.trust, n) + |PendingTo(next.pendingAcks, n)| <=
       Score(node.trust, n) + |PendingTo(node.pendingAcks, n)| + HandedTo(DataIn(sent), n)
    && (AcksInv(node.pendingAcks) ==> AcksInv(next.pendingAcks))
  }

  lemma FairThen(a: Node, b: Node, c: Node, s: seq<Transmission>, t: seq<Transmission>, n: NeighborId)
    requires Fair(a, b, s, n) && Fair(b, c, t, n)
    ensures Fair(a, c, s + t, n)
  {
    DataAppend(s, t);
    HandedAppend(DataIn(s), DataIn(t), n);
  }

  lemma FairAfter(a: Node, b: Node, c: Node, t: seq<Transmission>, n: NeighborId)
    requires Fair(a, b, [], n) && Fair(b, c, t, n)
    ensures Fair(a, c, t, n)
  {
    FairThen(a, b, c, [], t, n);
    assert [] + t == t;
  }

  /** A step that leaves trust and awaited acknowledgements alone. */
  lemma FairUntouched(node: Node, next: Node, sent: seq<Transmission>, n: NeighborId)
    requires next.trust == node.trust && next.pendingAcks == node.pendingAcks
    ensures Fair(node, next, sent, n)
  {
  }

  lemma PurgeIsFair(node: Node, now: int, n: NeighborId)
    ensures Fair(node, PurgeRoutingState(node, now), [], n)
  {
    hide Restrict, PendingTo, AcksInv, Purged, DemoteOverdue;
    SmallerAcks(node.pendingAcks, TimelyAcks(node.pendingAcks, now), n);
  }

  lemma ForwardIsFair(node: Node, e: Envelope, next: NeighborId, now: int, up: bool, n: NeighborId)
    ensures Fair(node, Forward(node, e, next, now, up), if up then [Transmission(next, Relayed(e))] else [], n)
  {
    hide Record, Restrict, PendingTo, AcksInv, DataIn, HandedTo;
    var id, hint := e.header.messageId, e.header.destinationHint;
    if e.header.packetType == DATA {
      RecordPending(node.pendingAcks, id, next, hint, now, n);
      if AcksInv(node.pendingAcks) {
        RecordFits(node.pendingAcks, id, next, hint, now);
        var recorded := Record(node.pendingAcks, id, next, hint, now);
        SmallerAcks(recorded, recorded.at.Keys - {id}, n);
      }
    }
    if up {
      DataInOne(Transmission(next, Relayed(e)));
      HandedToOne(Handed(next, id, hint), n);
    }
  }

  lemma ForwardOrKeepIsFair(node: Node, e: Envelope, next: Option<NeighborId>, from: NeighborId, now: nat, up: bool,
          n: NeighborId)
    ensures var s := ForwardOrKeep(node, e, next, from, now, up); Fair(node, s.node, s.effects.sent, n)
  {
    hide PendingTo, AcksInv, DataIn, HandedTo, AcksAfter, ExpiredIn;
    if next.Some? { ForwardIsFair(node, e, next.value, now, up, n); }
  }

  /** What is settled is awaited from its neighbor no longer. */
  lemma AnsweredIsNotPending(acks: PendingAcks, k: MessageId)
    requires k in acks.at
    ensures var n := acks.at[k].neighborId; |PendingTo(Drop(acks, k), n)| == |PendingTo(acks, n)| - 1
  {
    hide Only;
    var n := acks.at[k].neighborId;
    assert PendingTo(acks, n) == PendingTo(Drop(acks, k), n) + {k};
  }

  lemma SettleIsFair(node: Node, ack: VerifiedAck, now: int, n: NeighborId)
    requires ack.acknowledged in node.pendingAcks.at
    requires node.pendingAcks.at[ack.acknowledged].neighborId in node.peers.at
    ensures Fair(node, Settle(node, node.pendingAcks.at[ack.acknowledged], ack, now), [], n)
  {
    hide Restrict, MarkValidated, AcksInv, PendingTo;
    SmallerAcks(node.pendingAcks, node.pendingAcks.at.Keys - {ack.acknowledged}, n);
    AnsweredIsNotPending(node.pendingAcks, ack.acknowledged);
  }

  lemma RouteOnIsFair(node: Node, e: Envelope, from: Option<NeighborId>, now: nat, up: bool, n: NeighborId)
    ensures var s := RouteOn(node, e, from, now, up); Fair(node, s.node, s.effects.sent, n)
  {
    hide PendingTo, AcksInv, HandedTo, ForwardOrKeep, Lookup;
    ForwardOrKeepIsFair(node, e, NextHop(node, e.header.destinationHint), from.GetOr(Q.ORIGIN), now, up, n);
  }

  lemma CheckAckIsFair(node: Node, e: Envelope, from: NeighborId, now: int, n: NeighborId)
    requires CheckAck(node, e, from, now).Ok?
    ensures Fair(node, CheckAck(node, e, from, now).value, [], n)
  {
    hide PendingTo, AcksInv, DataIn, HandedTo, Settle;
    var ack := VerifyAck(e).value;
    if ack.acknowledged in node.pendingAcks.at { SettleIsFair(node, ack, now, n); }
  }

  lemma ReceiveIsFair(node: Node, e: Envelope, from: Option<NeighborId>, now: nat, up: bool, n: NeighborId)
    ensures var s := Receive(node, e, from, now, up); Fair(node, s.node, s.effects.sent, n)
  {
    hide Fair, CheckAck, RouteOn, PurgeRoutingState, ValidHeader;
    var live := PurgeRoutingState(node, now);
    PurgeIsFair(node, now, n);
    if ValidHeader(e.header, now) && Unicast(e) {
      if e.header.packetType == ACK && from.Some? {
        var checked := CheckAck(live, e, from.value, now);
        if checked.Ok? {
          CheckAckIsFair(live, e, from.value, now, n);
          RouteOnIsFair(checked.value, e, from, now, up, n);
          FairAfter(node, live, checked.value, [], n);
          var s := RouteOn(checked.value, e, from, now, up);
          FairAfter(node, checked.value, s.node, s.effects.sent, n);
        }
      } else {
        RouteOnIsFair(live, e, from, now, up, n);
        var s := RouteOn(live, e, from, now, up);
        FairAfter(node, live, s.node, s.effects.sent, n);
      }
    }
  }

  lemma SendIsFair(node: Node, e: Envelope, now: nat, up: bool, n: NeighborId)
    ensures var s := Send(node, e, now, up); Fair(node, s.node, s.effects.sent, n)
  {
    hide Fair, ForwardOrKeep, PurgeRoutingState, ValidHeader, Lookup;
    var live := PurgeRoutingState(node, now);
    PurgeIsFair(node, now, n);
    if ValidHeader(e.header, now) {
      var direct := DirectPeer(live.peers, e.header.destinationHint);
      var next := if direct.Some? then direct else NextHop(live, e.header.destinationHint);
      ForwardOrKeepIsFair(live, e, next, Q.ORIGIN, now, up, n);
      var s := ForwardOrKeep(live, e, next, Q.ORIGIN, now, up);
      FairAfter(node, live, s.node, s.effects.sent, n);
    }
  }

  lemma SendAckIsFair(node: Node, id: MessageId, hint: Hint, acknowledged: MessageId, now: nat, up: bool, n: NeighborId)
    ensures var s := SendAck(node, id, hint, acknowledged, now, up); Fair(node, s.node, s.effects.sent, n)
  {
    hide Fair, PurgeRoutingState, ValidHeader, Lookup, Receive, ExpiredIn;
    var live := PurgeRoutingState(node, now);
    PurgeIsFair(node, now, n);
    var s := SendAck(node, id, hint, acknowledged, now, up);
    if hint == HintOf(node.identity) {
      ReceiveIsFair(live, CreateAck(id, hint, acknowledged, node.identity, now), None, now, up, n);
    } else {
      FairUntouched(live, s.node, s.effects.sent, n);
    }
    FairAfter(node, live, s.node, s.effects.sent, n);
  }

  lemma {:induction false} SendQueuedIsFair(node: Node, envelopes: seq<Envelope>, next: NeighborId, now: int,
          ups: seq<bool>, n: NeighborId)
    ensures var (after, effects) := SendQueued(node, envelopes, next, now, ups); Fair(node, after, effects.sent, n)
  {
    hide Fair, Forward;
    if envelopes == [] {
      FairUntouched(node, node, [], n);
    } else {
      var i := |envelopes| - 1;
      var e := envelopes[i];
      SendQueuedIsFair(node, envelopes[..i], next, now, ups, n);
      var (before, effects) := SendQueued(node, envelopes[..i], next, now, ups);
      var tried := Forward(before, e, next, now, Up(ups, i));
      ForwardIsFair(before, e, next, now, Up(ups, i), n);
      var sent := if Up(ups, i) then [Transmission(next, Relayed(e))] else [];
      FairThen(node, before, tried, effects.sent, sent, n);
      assert effects.sent + [] == effects.sent;
      if Up(ups, i) {
        var after := tried.(queue := Q.Acknowledge(tried.queue, e.header.messageId));
        FairUntouched(tried, after, [], n);
        FairThen(node, tried, after, effects.sent + sent, [], n);
        assert effects.sent + sent + [] == effects.sent + sent;
      }
    }
  }

  lemma DeliverQueuedIsFair(node: Node, hint: Hint, now: nat, ups: seq<bool>, n: NeighborId)
    ensures var (after, effects) := DeliverQueued(node, hint, now, ups); Fair(node, after, effects.sent, n)
  {
    hide Fair, PurgeRoutingState, Lookup, SendQueued, Q.ForDestination, ExpiredIn;
    var live := PurgeRoutingState(node, now);
    PurgeIsFair(node, now, n);
    var next := NextHop(live, hint);
    if next.Some? {
      var purged := live.(queue := Q.Purged(live.queue, now));
      FairUntouched(live, purged, [], n);
      FairAfter(node, live, purged, [], n);
      var envelopes := Q.ForDestination(purged.queue, hint);
      SendQueuedIsFair(purged, envelopes, next.value, now, ups, n);
      var (after, effects) := SendQueued(purged, envelopes, next.value, now, ups);
      FairAfter(node, purged, after, effects.sent, n);
      assert [] + effects.sent == effects.sent;
    }
  }

  lemma {:induction false} DeliverAllIsFair(node: Node, hints: seq<Hint>, now: nat, ups: seq<seq<bool>>, n: NeighborId)
    ensures var (after, effects) := DeliverAllQueued(node, hints, now, ups); Fair(node, after, effects.sent, n)
  {
    hide Fair, DeliverQueued;
    if hints == [] {
      FairUntouched(node, node, [], n);
    } else {
      var i := |hints| - 1;
      DeliverAllIsFair(node, hints[..i], now, ups, n);
      var (before, effects) := DeliverAllQueued(node, hints[..i], now, ups);
      DeliverQueuedIsFair(before, hints[i], now, if i < |ups| then ups[i] else [], n);
      var (after, more) := DeliverQueued(before, hints[i], now, if i < |ups| then ups[i] else []);
      FairThen(node, before, after, effects.sent, more.sent, n);
    }
  }

  lemma AdvertisementIsFair(node: Node, from: NeighborId, ad: Advertisement, now: nat, ups: seq<seq<bool>>,
          n: NeighborId)
    ensures var (after, effects) := ReceiveAdvertisement(node, from, ad, now, ups); Fair(node, after, effects.sent, n)
  {
    hide Fair, PurgeRoutingState, DeliverAllQueued, Learn, VerifyAdvertisement, SeenAfter;
    var live := PurgeRoutingState(node, now);
    PurgeIsFair(node, now, n);
    var learned := Learned(live, from, ad, now);
    if learned.Some? {
      FairUntouched(live, learned.value, [], n);
      FairAfter(node, live, learned.value, [], n);
      DeliverAllIsFair(learned.value, ad.destinations, now, ups, n);
      var (after, effects) := DeliverAllQueued(learned.value, ad.destinations, now, ups);
      FairAfter(node, learned.value, after, effects.sent, n);
    }
  }

  /** Whatever a node is called with and whatever its environment answers, trust
      in a neighbor does not fall, and trust together with the acknowledgements
      still awaited grows by no more than the Data envelopes handed over. */
  lemma StepIsFair(node: Node, event: NodeEvent, now: nat, n: NeighborId)
    ensures var (next, effects) := NodeStep(node, event, now); Fair(node, next, effects.sent, n)
  {
    hide Fair, Receive, Send, SendAck, ReceiveAdvertisement, PurgeRoutingState, ExpiredIn;
    match event
    case Receives(e, from, up) => ReceiveIsFair(node, e, from, now, up, n);
    case Sends(e, up) => SendIsFair(node, e, now, up, n);
    case SendsAck(id, hint, acknowledged, up) => SendAckIsFair(node, id, hint, acknowledged, now, up, n);
    case Advertises(from, ad, ups) => AdvertisementIsFair(node, from, ad, now, ups, n);
    case PurgesRouting => PurgeIsFair(node, now, n);
    case _ => FairUntouched(node, NodeStep(node, event, now).0, [], n);
  }

  // ----- Runs of a node -----

  datatype Timed = Timed(event: NodeEvent, now: nat)

  /** A node after any calls, and everything it gave to the transport. */
  function RunFrom(start: Node, calls: seq<Timed>): (Node, seq<Transmission>) {
    if calls == [] then (start, [])
    else
      var last := calls[|calls| - 1];
      var (before, sent) := RunFrom(start, calls[..|calls| - 1]);
      var (after, effects) := NodeStep(before, last.event, last.now);
      (after, sent + effects.sent)
  }

  function Run(identity: nat, calls: seq<Timed>): (Node, seq<Transmission>) {
    RunFrom(NewNode(identity), calls)
  }

  /** In every state a node can reach, for every neighbor, trust plus awaited
      acknowledgements is at most the number of Data envelopes handed to it, and
      awaited acknowledgements never exceed their limit. */
  lemma {:induction false} TrustIsEarned(identity: nat, calls: seq<Timed>, n: NeighborId)
    ensures var (node, sent) := Run(identity, calls);
            && Covered(node, DataIn(sent), n)
            && AcksInv(node.pendingAcks)
  {
    hide NodeStep;
    if calls == [] {
      assert PendingTo(NewNode(identity).pendingAcks, n) == {};
    } else {
      var last := calls[|calls| - 1];
      var (before, sent) := Run(identity, calls[..|calls| - 1]);
      TrustIsEarned(identity, calls[..|calls| - 1], n);
      StepIsFair(before, last.event, last.now, n);
      var effects := NodeStep(before, last.event, last.now).1;
      DataAppend(sent, effects.sent);
      HandedAppend(DataIn(sent), DataIn(effects.sent), n);
    }
  }

  /** Trust in a neighbor never decreases along a run. */
  lemma {:induction false} TrustNeverFalls(start: Node, calls: seq<Timed>, n: NeighborId)
    ensures Score(start.trust, n) <= Score(RunFrom(start, calls).0.trust, n)
  {
    hide NodeStep;
    if calls != [] {
      var last := calls[|calls| - 1];
      TrustNeverFalls(start, calls[..|calls| - 1], n);
      StepIsFair(RunFrom(start, calls[..|calls| - 1]).0, last.event, last.now, n);
    }
  }
}
