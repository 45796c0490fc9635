/** What a relay gives to its own listeners. */
module RelayDelivery {
  import opened Basics
  import opened OrderedMaps
  import opened Envelopes
  import opened RouteTable
  import opened Relay
  import opened RelayTrust
  import opened RouteHistory
  import Q = ForwardQueue

  predicate AllOwn(identity: nat, delivered: seq<Envelope>) {
    forall e :: e in delivered && Unicast(e) ==> e.header.destinationHint == HintOf(identity)
  }

  lemma RouteOnDelivers(node: Node, e: Envelope, from: Option<NeighborId>, now: nat, up: bool)
    ensures AllOwn(node.identity, RouteOn(node, e, from, now, up).effects.delivered)
    ensures RouteOn(node, e, from, now, up).effects.delivered != [] ==>
              e.header.destinationHint == HintOf(node.identity) && RouteOn(node, e, from, now, up).outcome == Delivered
  {
    hide Q.Store, AcksAfter, ExpiredIn, Lookup;
  }

  lemma ReceiveDelivers(node: Node, e: Envelope, from: Option<NeighborId>, now: nat, up: bool)
    ensures AllOwn(node.identity, Receive(node, e, from, now, up).effects.delivered)
  {
    hide RouteOn, ValidHeader, AllOwn, Restrict, Purged, DemoteOverdue;
    assert AllOwn(node.identity, []) by { NoneDelivered(node.identity, e); }
    NoneDelivered(node.identity, e);
    var live := PurgeRoutingState(node, now);
    RouteOnDelivers(live, e, from, now, up);
    if from.Some? && CheckAck(live, e, from.value, now).Ok? {
      RouteOnDelivers(CheckAck(live, e, from.value, now).value, e, from, now, up);
    }
  }

  lemma NoneDelivered(identity: nat, e: Envelope)
    ensures AllOwn(identity, [])
    ensures !Unicast(e) ==> AllOwn(identity, [e])
  {
  }

  lemma {:induction false} SendQueuedDelivers(node: Node, envelopes: seq<Envelope>, next: NeighborId, now: int,
          ups: seq<bool>)
    ensures SendQueued(node, envelopes, next, now, ups).1.delivered == []
  {
    hide Forward;
    if envelopes != [] { SendQueuedDelivers(node, envelopes[..|envelopes| - 1], next, now, ups); }
  }

  lemma {:induction false} DeliverAllDelivers(node: Node, hints: seq<Hint>, now: nat, ups: seq<seq<bool>>)
    ensures DeliverAllQueued(node, hints, now, ups).1.delivered == []
  {
    hide PurgeRoutingState, Lookup, SendQueued, ExpiredIn, Q.Purged, Q.ForDestination;
    if hints != [] {
      var i := |hints| - 1;
      DeliverAllDelivers(node, hints[..i], now, ups);
      var before := DeliverAllQueued(node, hints[..i], now, ups).0;
      var live := PurgeRoutingState(before, now);
      var next := NextHop(live, hints[i]);
      if next.Some? {
        var queue := Q.Purged(live.queue, now);
        SendQueuedDelivers(live.(queue := queue), Q.ForDestination(queue, hints[i]), next.value, now, if i < |ups|
            then ups[i] else []);
      }
    }
  }

  /** Whatever happens, a relay delivers no unicast envelope addressed to another. */
  lemma DeliversOnlyItsOwn(node: Node, event: NodeEvent, now: nat)
    ensures AllOwn(node.identity, NodeStep(node, event, now).1.delivered)
  {
    hide AllOwn, Receive, ForwardOrKeep, DeliverAllQueued, Lookup, ExpiredIn, ValidHeader, Restrict, Purged,
        DemoteOverdue, Learned, CreateAck;
    match event
    case Receives(e, from, up) => ReceiveDelivers(node, e, from, now, up);
    case Sends(e, up) =>
      NoneDelivered(node.identity, e);
      SendDelivers(node, e, now, up);
    case SendsAck(id, hint, acknowledged, up) =>
      var live := PurgeRoutingState(node, now);
      var ack := CreateAck(id, hint, acknowledged, node.identity, now);
      NoneDelivered(node.identity, ack);
      KeptDelivers(live, ack, now);
      ReceiveDelivers(live, ack, None, now, up);
    case Advertises(from, ad, ups) =>
      NoneDelivered(node.identity, Envelope(Header(0, DATA, MessageId([]), 0, [], 0), Opaque([])));
      var learned := Learned(PurgeRoutingState(node, now), from, ad, now);
      if learned.Some? { DeliverAllDelivers(learned.value, ad.destinations, now, ups); }
    case _ => NoneDelivered(node.identity, Envelope(Header(0, DATA, MessageId([]), 0, [], 0), Opaque([])));
  }

  lemma KeptDelivers(node: Node, e: Envelope, now: nat)
    ensures KeepForLater(node, e, Q.ORIGIN, now).effects.delivered == []
  {
  }

  lemma SendDelivers(node: Node, e: Envelope, now: nat, up: bool)
    ensures Send(node, e, now, up).effects.delivered == []
  {
    hide Q.Store, AcksAfter, ExpiredIn, Lookup, Restrict, Purged, DemoteOverdue, ValidHeader;
  }

  // ----- Acknowledgements -----

  /** An acknowledgement from a neighbor reaches the listeners only if the message
      it names is awaited from that neighbor, was for the destination that signed,
      and is not overdue; the message is then no longer awaited. */
  lemma AckDeliveredOnlyIfAwaited(node: Node, e: Envelope, from: NeighborId, now: nat, up: bool)
    requires e.header.packetType == ACK && e in Receive(node, e, Some(from), now, up).effects.delivered
    ensures VerifyAck(e).Some?
    ensures var ack := VerifyAck(e).value;
            && ack.acknowledged in node.pendingAcks.at
            && node.pendingAcks.at[ack.acknowledged].neighborId == from
            && node.pendingAcks.at[ack.acknowledged].destinationHint == HintOf(ack.signer)
            && AckTimely(node.pendingAcks.at[ack.acknowledged], now)
            && ack.acknowledged !in Receive(node, e, Some(from), now, up).node.pendingAcks.at
            && e.header.destinationHint == HintOf(node.identity)
  {
    hide Purged, DemoteOverdue, Only, AckTimely, MarkValidated, ValidHeader, Lookup, Q.Store, ExpiredIn;
    var live := PurgeRoutingState(node, now);
    var checked := CheckAck(live, e, from, now);
    assert checked.Ok?;
    RouteOnDelivers(checked.value, e, Some(from), now, up);
  }

  lemma SameNodeIdentity(node: Node, e: Envelope, from: Option<NeighborId>, now: nat, up: bool)
    ensures Receive(node, e, from, now, up).node.identity == node.identity
  {
    hide HintOf, VerifyAck, Purged, DemoteOverdue, Restrict, AckTimely, MarkValidated, ValidHeader, Lookup, Q.Store,
        ExpiredIn, AcksAfter;
  }

  lemma {:induction false} SendQueuedIdentity(node: Node, envelopes: seq<Envelope>, next: NeighborId, now: int,
          ups: seq<bool>)
    ensures SendQueued(node, envelopes, next, now, ups).0.identity == node.identity
  {
    hide AcksAfter, Q.Acknowledge;
    if envelopes != [] { SendQueuedIdentity(node, envelopes[..|envelopes| - 1], next, now, ups); }
  }

  lemma {:induction false} DeliverAllIdentity(node: Node, hints: seq<Hint>, now: nat, ups: seq<seq<bool>>)
    ensures DeliverAllQueued(node, hints, now, ups).0.identity == node.identity
  {
    hide Lookup, SendQueued, ExpiredIn, Q.Purged, Q.ForDestination, Purged, DemoteOverdue, Restrict;
    if hints != [] {
      var i := |hints| - 1;
      DeliverAllIdentity(node, hints[..i], now, ups);
      var before := DeliverAllQueued(node, hints[..i], now, ups).0;
      var live := PurgeRoutingState(before, now);
      var next := NextHop(live, hints[i]);
      if next.Some? {
        var queue := Q.Purged(live.queue, now);
        SendQueuedIdentity(live.(queue := queue), Q.ForDestination(queue, hints[i]), next.value, now,
                           if i < |ups| then ups[i] else []);
      }
    }
  }

  lemma StepKeepsIdentity(node: Node, event: NodeEvent, now: nat)
    ensures NodeStep(node, event, now).0.identity == node.identity
  {
    hide Receive, DeliverAllQueued, Purged, DemoteOverdue, Restrict, ValidHeader, Lookup, Q.Store, ExpiredIn,
        AcksAfter, CreateAck, Put, Learn, VerifyAdvertisement, SeenAfter;
    match event
    case Receives(e, from, up) => SameNodeIdentity(node, e, from, now, up);
    case SendsAck(id, hint, acknowledged, up) =>
      var live := PurgeRoutingState(node, now);
      SameNodeIdentity(live, CreateAck(id, hint, acknowledged, node.identity, now), None, now, up);
    case Advertises(from, ad, ups) =>
      var learned := Learned(PurgeRoutingState(node, now), from, ad, now);
      if learned.Some? { DeliverAllIdentity(learned.value, ad.destinations, now, ups); }
    case _ =>
  }

  lemma {:induction false} IdentityStays(start: Node, calls: seq<Timed>)
    ensures RunFrom(start, calls).0.identity == start.identity
  {
    hide NodeStep;
    if calls != [] {
      var last := calls[|calls| - 1];
      IdentityStays(start, calls[..|calls| - 1]);
      StepKeepsIdentity(RunFrom(start, calls[..|calls| - 1]).0, last.event, last.now);
    }
  }

  /** No envelope with this id is among those handed over. */
  predicate NotHanded(handed: seq<Handed>, id: MessageId) {
    forall i :: 0 <= i < |handed| ==> handed[i].id != id
  }

  /** What is not awaited is not awaited after any calls that do not hand it over. */
  lemma {:induction false} StaysSettled(start: Node, calls: seq<Timed>, id: MessageId)
    requires id !in start.pendingAcks.at && NotHanded(DataIn(RunFrom(start, calls).1), id)
    ensures id !in RunFrom(start, calls).0.pendingAcks.at
  {
    hide NodeStep, DataIn;
    if calls != [] {
      var last := calls[|calls| - 1];
      var (before, sent) := RunFrom(start, calls[..|calls| - 1]);
      var (after, effects) := NodeStep(before, last.event, last.now);
      DataAppend(sent, effects.sent);
      assert NotHanded(DataIn(sent), id) && NotHanded(DataIn(effects.sent), id) by {
        PartsNotHanded(DataIn(sent), DataIn(effects.sent), id);
      }
      StaysSettled(start, calls[..|calls| - 1], id);
      StepAccounts(before, last.event, last.now, [], "");
    }
  }

  lemma PartsNotHanded(a: seq<Handed>, b: seq<Handed>, id: MessageId)
    requires NotHanded(a + b, id)
    ensures NotHanded(a, id) && NotHanded(b, id)
  {
    forall i | 0 <= i < |a| ensures a[i].id != id { assert (a + b)[i] == a[i]; }
    forall i | 0 <= i < |b| ensures b[i].id != id { assert (a + b)[|a| + i] == b[i]; }
  }

  /** An acknowledgement that was delivered is refused ever after, from whichever
      neighbor it comes again and whatever happens in between, unless the message
      it acknowledges is handed over again. */
  lemma AckNotDeliveredTwice(node: Node, e: Envelope, from: NeighborId, now: nat, up: bool, calls: seq<Timed>,
          again: NeighborId, later: nat, up': bool)
    requires e.header.packetType == ACK && e in Receive(node, e, Some(from), now, up).effects.delivered
    requires VerifyAck(e).Some? ==>
               NotHanded(DataIn(RunFrom(Receive(node, e, Some(from), now, up).node, calls).1),
                         VerifyAck(e).value.acknowledged)
    ensures var before := RunFrom(Receive(node, e, Some(from), now, up).node, calls).0;
            var replay := Receive(before, e, Some(again), later, up');
            replay.outcome.Dropped? && replay.effects.delivered == []
  {
    AckDeliveredOnlyIfAwaited(node, e, from, now, up);
    SameNodeIdentity(node, e, Some(from), now, up);
    var after := Receive(node, e, Some(from), now, up).node;
    StaysSettled(after, calls, VerifyAck(e).value.acknowledged);
    IdentityStays(after, calls);
    SettledIsRefused(RunFrom(after, calls).0, e, again, later, up');
  }

  lemma SettledIsRefused(node: Node, e: Envelope, from: NeighborId, now: nat, up: bool)
    requires e.header.packetType == ACK && VerifyAck(e).Some?
    requires VerifyAck(e).value.acknowledged !in node.pendingAcks.at
    requires e.header.destinationHint == HintOf(node.identity)
    ensures var replay := Receive(node, e, Some(from), now, up);
            replay.outcome.Dropped? && replay.effects.delivered == []
  {
    hide Purged, DemoteOverdue, Only, AckTimely, ValidHeader, RouteOn;
    assert VerifyAck(e).value.acknowledged !in PurgeRoutingState(node, now).pendingAcks.at;
  }

  /** In every run: an acknowledgement from a neighbor that reaches the listeners is
      for a message that was handed to that neighbor for the destination that signed. */
  lemma DeliveredAcksAnswerHandedData(identity: nat, calls: seq<Timed>, e: Envelope, from: NeighborId, now: nat,
          up: bool)
    requires e.header.packetType == ACK
    requires e in Receive(Run(identity, calls).0, e, Some(from), now, up).effects.delivered
    ensures VerifyAck(e).Some?
    ensures Handed(from, VerifyAck(e).value.acknowledged,
        HintOf(VerifyAck(e).value.signer)) in DataIn(Run(identity, calls).1)
  {
    hide Run, Receive, DataIn;
    AwaitedThroughout(identity, calls);
    AckDeliveredOnlyIfAwaited(Run(identity, calls).0, e, from, now, up);
  }

  // ----- Direct peers -----

  /** The search for a direct peer finds one exactly when there is one. */
  lemma {:induction false} DirectPeerFound(peers: Peers, hint: Hint, i: nat)
    ensures var direct := DirectPeer(peers, hint, i);
            && (direct.Some? ==> direct.value in peers.at && HintOf(peers.at[direct.value].identity) == hint)
            && (direct.None? ==> forall k :: i <= k < |peers.order| && peers.order[k] in peers.at ==>
                  HintOf(peers.at[peers.order[k]].identity) != hint)
    decreases |peers.order| - i
  {
    hide HintOf;
    if i < |peers.order| { DirectPeerFound(peers, hint, i + 1); }
  }

  /** It is the one registered first. */
  lemma {:induction false} DirectPeerIsFirst(peers: Peers, hint: Hint, i: nat) returns (k: nat)
    requires DirectPeer(peers, hint, i).Some?
    ensures i <= k < |peers.order| && peers.order[k] == DirectPeer(peers, hint, i).value
    ensures forall j :: i <= j < k && peers.order[j] in peers.at ==>
              HintOf(peers.at[peers.order[j]].identity) != hint
    decreases |peers.order| - i
  {
    hide HintOf;
    k := i;
    var n := peers.order[i];
    if !(n in peers.at && HintOf(peers.at[n].identity) == hint) { k := DirectPeerIsFirst(peers, hint, i + 1); }
  }

  /** A valid envelope for a registered peer goes straight to a peer with that
      identity when the transport accepts it, whatever the routing table says. */
  lemma DirectPeersComeFirst(node: Node, e: Envelope, n: NeighborId, now: nat)
    requires Listed(node.peers) && n in node.peers.at && HintOf(node.peers.at[n].identity) == e.header.destinationHint
    requires ValidHeader(e.header, now)
    ensures var s := Send(node, e, now, true);
            && s.outcome.Forwarded? && s.outcome.to in node.peers.at
            && HintOf(node.peers.at[s.outcome.to].identity) == e.header.destinationHint
            && s.effects.sent == [Transmission(s.outcome.to, Relayed(e))]
  {
    hide Purged, DemoteOverdue, Restrict, AckTimely, ValidHeader, Lookup, Q.Store, ExpiredIn, AcksAfter;
    DirectPeerFound(node.peers, e.header.destinationHint, 0);
    assert n in node.peers.order;
  }
}
