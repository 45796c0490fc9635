/**
  The relay as the program keeps it: an object that updates its table, queue and
  maps in place. Each method is proved to do what the handler of the same name
  does on values, so every theorem about runs of handlers is about this object.
 */
module RelayObject {
  import opened Basics
  import opened OrderedMaps
  import opened Envelopes
  import opened RouteTable
  import opened Relay
  import opened RelayTrust
  import opened RouteHistory
  import opened Totals
  import Q = ForwardQueue

  // ----- Looking up twice at one instant -----

  ghost predicate AllLive(routes: Routes, now: int) {
    TableInv(routes) && NoneExpired(routes, now)
  }

  lemma LivePurged(routes: Routes, now: int)
    requires AllLive(routes, now)
    ensures Purged(routes, now) == routes
  {
    NoneExpiredIsPurged(routes, now);
  }

  lemma PurgedIsLive(routes: Routes, now: int)
    requires TableInv(routes)
    ensures AllLive(Purged(routes, now), now)
  {
    PurgedListed(routes, now);
    PurgedHasNoneExpired(routes, now);
  }

  lemma ValidatingKeepsLive(routes: Routes, hint: Hint, destination: nat, n: NeighborId, peer: AuthenticatedPeer,
          now: int)
    requires AllLive(routes, now)
    ensures AllLive(MarkValidated(routes, hint, destination, n, peer, now), now)
  {
    hide Listed, NoneExpired;
    var next := MarkValidated(routes, hint, destination, n, peer, now);
    if next != routes {
      WithRouteListed(routes, hint, n, RouteAt(next, hint, n));
      RouteKeepsNoneExpired(routes, hint, n, RouteAt(next, hint, n), now);
    }
  }

  /** What a relay's maps always satisfy. */
  ghost predicate MapsInv(acks: PendingAcks, peers: Peers, seen: SeenAds) {
    AcksInv(acks) && Listed(peers) && Listed(seen) && |seen.at| <= MAX_SEEN_ROUTING_ADS
  }

  class RelayNode {
    const identity: nat
    const table: RoutingTable
    const queue: Q.StoreForwardQueue
    var trust: Trust
    var pendingAcks: PendingAcks
    var peers: Peers
    var seenAds: SeenAds

    /** What the transport has accepted, and what this node's listeners were given. */
    var sent: seq<Transmission>
    var delivered: seq<Envelope>

    ghost predicate Valid()
      reads this, table, queue
    {
      table.Valid() && queue.Valid() && MapsInv(pendingAcks, peers, seenAds)
    }

    ghost function View(): Node
      reads this, table, queue
    {
      Node(identity, table.routes, queue.entries, trust, pendingAcks, peers, seenAds)
    }

    constructor (identity: nat)
      ensures Valid() && View() == NewNode(identity) && sent == [] && delivered == []
      ensures fresh(table) && fresh(queue)
    {
      this.identity := identity;
      table := new RoutingTable();
      queue := new Q.StoreForwardQueue();
      trust, pendingAcks, peers, seenAds := map[], OrderedMap([], map[]), OrderedMap([], map[]), OrderedMap([], map[]);
      sent, delivered := [], [];
    }

    method ExpirePendingAcks(now: int)
      requires Valid()
      modifies this`pendingAcks, table
      ensures Valid()
      ensures table.routes == DemoteOverdue(old(table.routes), old(pendingAcks), |old(pendingAcks).order|, now)
      ensures pendingAcks == Restrict(old(pendingAcks), TimelyAcks(old(pendingAcks), now))
    {
      hide Restrict, Drop, Swept, Listed, Demote, TableInv, Q.QueueInv;
      ghost var all, good := pendingAcks, TimelyAcks(pendingAcks, now);
      SmallerAcks(all, good, "");
      var keys := pendingAcks.order;
      SweepStarts(all, good);
      for i := 0 to |keys|
        invariant keys == all.order && table.Valid()
        invariant pendingAcks == Restrict(all, Swept(all, i, good))
        invariant table.routes == DemoteOverdue(old(table.routes), all, i, now)
      {
        SweepMoves(all, i, good);
        var p := pendingAcks.at[keys[i]];
        if now - p.sentAt >= ROUTE_ACK_TIMEOUT_MS {
          pendingAcks := Drop(pendingAcks, keys[i]);
          table.DemoteRoute(p.destinationHint, p.neighborId);
        }
      }
      SweepEnds(all, good);
    }

    method PurgeStaleRoutingState(now: int)
      requires Valid()
      modifies this`pendingAcks, table
      ensures Valid() && View() == PurgeRoutingState(old(View()), now)
      ensures AllLive(table.routes, now)
    {
      hide DemoteOverdue, Purged, TimelyAcks, Q.QueueInv, MapsInv, TableInv, AllLive;
      ExpirePendingAcks(now);
      PurgedIsLive(table.routes, now);
      var purged := table.PurgeExpired(now);
    }

    method RecordPendingAck(id: MessageId, n: NeighborId, hint: Hint, now: int)
      requires Valid()
      modifies this`pendingAcks
      ensures Valid() && pendingAcks == Record(old(pendingAcks), id, n, hint, now)
    {
      hide Drop, Put, Listed, TableInv, Q.QueueInv;
      RecordFits(pendingAcks, id, n, hint, now);
      if |pendingAcks.at| >= MAX_PENDING_ACKS && |pendingAcks.order| > 0 {
        pendingAcks := Drop(pendingAcks, pendingAcks.order[0]);
      }
      pendingAcks := Put(pendingAcks, id, PendingAck(n, hint, now));
    }

    /** `up` is what the transport answers. */
    method ForwardOverTransport(e: Envelope, next: NeighborId, now: int, up: bool)
      requires Valid()
      modifies this`pendingAcks, this`sent
      ensures Valid() && View() == Forward(old(View()), e, next, now, up)
      ensures sent == old(sent) + if up then [Transmission(next, Relayed(e))] else []
    {
      hide Record, Restrict, Listed, TableInv, Q.QueueInv;
      var expectsAck := e.header.packetType == DATA;
      if expectsAck { RecordPendingAck(e.header.messageId, next, e.header.destinationHint, now); }
      if up {
        sent := sent + [Transmission(next, Relayed(e))];
      } else if expectsAck {
        SmallerAcks(pendingAcks, pendingAcks.at.Keys - {e.header.messageId}, next);
        pendingAcks := Drop(pendingAcks, e.header.messageId);
      }
    }

    method LookUp(hint: Hint, now: int) returns (next: Option<NeighborId>)
      requires Valid() && AllLive(table.routes, now)
      modifies table
      ensures Valid() && View() == old(View()) && AllLive(table.routes, now)
      ensures next == NextHop(View(), hint)
    {
      hide Lookup, Purged, MapsInv, Q.QueueInv, AllLive, TableInv;
      LivePurged(table.routes, now);
      next := table.LookupRoute(hint, trust, peers, now);
    }

    method Keep(e: Envelope, from: NeighborId, now: nat) returns (outcome: Outcome)
      requires Valid()
      modifies queue
      ensures Valid()
      ensures View() == KeepForLater(old(View()), e, from, now).node
      ensures outcome == KeepForLater(old(View()), e, from, now).outcome
    {
      hide Q.Store, Q.QueueInv, MapsInv, TableInv, ExpiredIn;
      var refusal := queue.Offer(e, from, now);
      return if refusal.None? then Queued else Dropped(NotStored(refusal.value));
    }

    method TryNextHop(e: Envelope, next: Option<NeighborId>, from: NeighborId, now: nat,
            up: bool) returns (outcome: Outcome)
      requires Valid()
      modifies this`pendingAcks, this`sent, queue
      ensures Valid()
      ensures var s := ForwardOrKeep(old(View()), e, next, from, now, up);
              View() == s.node && outcome == s.outcome && sent == old(sent) + s.effects.sent
    {
      hide Forward, KeepForLater, MapsInv, TableInv, Q.QueueInv;
      KeepingSendsNothing(View(), e, from, now);
      if next.Some? {
        ForwardOverTransport(e, next.value, now, up);
        if up { return Forwarded(next.value); }
        KeepingSendsNothing(View(), e, from, now);
      }
      outcome := Keep(e, from, now);
    }

    method SendEnvelope(e: Envelope, now: nat, up: bool) returns (outcome: Outcome)
      requires Valid()
      modifies this`pendingAcks, this`sent, table, queue
      ensures Valid()
      ensures var s := Send(old(View()), e, now, up);
              View() == s.node && outcome == s.outcome && sent == old(sent) + s.effects.sent
    {
      hide PurgeRoutingState, ForwardOrKeep, MapsInv, TableInv, Q.QueueInv, NextHop, ValidHeader, AllLive;
      PurgeStaleRoutingState(now);
      if !ValidHeader(e.header, now) { return Dropped(InvalidHeader); }
      var next := FindDirect(e.header.destinationHint);
      if next.None? { next := LookUp(e.header.destinationHint, now); }
      outcome := TryNextHop(e, next, Q.ORIGIN, now, up);
    }

    /** The first registered peer whose identity the hint names. */
    method FindDirect(hint: Hint) returns (next: Option<NeighborId>)
      requires Valid()
      ensures next == DirectPeer(peers, hint)
    {
      for i := 0 to |peers.order|
        invariant DirectPeer(peers, hint) == DirectPeer(peers, hint, i)
      {
        var n := peers.order[i];
        if HintOf(peers.at[n].identity) == hint { return Some(n); }
      }
      return None;
    }

    method ProcessPendingAck(e: Envelope, from: NeighborId, now: int) returns (settled: bool)
      requires Valid() && AllLive(table.routes, now)
      requires VerifyAck(e).Some? && VerifyAck(e).value.acknowledged in pendingAcks.at
      modifies this`pendingAcks, this`trust, table
      ensures Valid() && AllLive(table.routes, now)
      ensures var ack := VerifyAck(e).value;
              var p := old(pendingAcks).at[ack.acknowledged];
              && settled == Settles(old(View()), p, ack, from)
              && View() == if settled then Settle(old(View()), p, ack, now) else old(View())
    {
      hide MarkValidated, Restrict, Listed, TableInv, Q.QueueInv, AllLive, VerifyAck;
      var ack := VerifyAck(e).value;
      var pending := pendingAcks.at[ack.acknowledged];
      if pending.neighborId != from { return false; }
      if pending.destinationHint != ack.signerHint { return false; }
      if from !in peers.at { return false; }
      var peer := peers.at[from];
      ValidatingKeepsLive(table.routes, pending.destinationHint, ack.signer, pending.neighborId, peer, now);
      table.Validate(pending.destinationHint, ack.signer, pending.neighborId, peer, now);
      trust := trust[pending.neighborId := Score(trust, pending.neighborId) + 1];
      SmallerAcks(pendingAcks, pendingAcks.at.Keys - {ack.acknowledged}, from);
      pendingAcks := Drop(pendingAcks, ack.acknowledged);
      return true;
    }

    /** The checks an acknowledgement from a neighbor passes before it is routed. */
    method AdmitAck(e: Envelope, from: NeighborId, now: int) returns (refused: Option<DropReason>)
      requires Valid() && AllLive(table.routes, now)
      modifies this`pendingAcks, this`trust, table
      ensures Valid() && AllLive(table.routes, now)
      ensures var checked := CheckAck(old(View()), e, from, now);
              && (refused.Some? <==> checked.Err?)
              && (checked.Err? ==> View() == old(View()) && refused == Some(checked.error))
              && (checked.Ok? ==> View() == checked.value)
    {
      hide Settle, Settles, TableInv, MapsInv, Q.QueueInv, AllLive, VerifyAck;
      var ack := VerifyAck(e);
      if ack.None? { return Some(InvalidAckSignature); }
      if ack.value.acknowledged in pendingAcks.at {
        var settled := ProcessPendingAck(e, from, now);
        return if settled then None else Some(AckRouteProvenanceMismatch);
      }
      return if e.header.destinationHint == HintOf(identity) then Some(AckForUnknownMessage) else None;
    }

    method PassOn(e: Envelope, from: Option<NeighborId>, now: nat, up: bool) returns (outcome: Outcome)
      requires Valid() && AllLive(table.routes, now)
      modifies this`pendingAcks, this`sent, this`delivered, table, queue
      ensures Valid()
      ensures var s := RouteOn(old(View()), e, from, now, up);
              && View() == s.node && outcome == s.outcome
              && sent == old(sent) + s.effects.sent && delivered == old(delivered) + s.effects.delivered
    {
      hide ForwardOrKeep, MapsInv, TableInv, Q.QueueInv, NextHop, AllLive;
      if e.header.destinationHint == HintOf(identity) {
        if e.header.packetType == ACK && VerifyAck(e).None? { return Dropped(InvalidAckSignature); }
        delivered := delivered + [e];
        return Delivered;
      }
      if e.header.ttl <= 0 { return Dropped(TtlExpired); }
      var next := LookUp(e.header.destinationHint, now);
      OnlySent(View(), e, next, from.GetOr(Q.ORIGIN), now, up);
      outcome := TryNextHop(e, next, from.GetOr(Q.ORIGIN), now, up);
    }

    method ReceiveEnvelope(e: Envelope, from: Option<NeighborId>, now: nat, up: bool) returns (outcome: Outcome)
      requires Valid()
      modifies this, table, queue
      ensures Valid()
      ensures var s := Receive(old(View()), e, from, now, up);
              && View() == s.node && outcome == s.outcome
              && sent == old(sent) + s.effects.sent && delivered == old(delivered) + s.effects.delivered
    {
      hide PurgeRoutingState, CheckAck, RouteOn, MapsInv, TableInv, Q.QueueInv, ValidHeader, AllLive;
      PurgeStaleRoutingState(now);
      if !ValidHeader(e.header, now) { return Dropped(InvalidHeader); }
      if !Unicast(e) {
        delivered := delivered + [e];
        return Dispatched;
      }
      if e.header.packetType == ACK && from.Some? {
        var refused := AdmitAck(e, from.value, now);
        if refused.Some? { return Dropped(refused.value); }
      }
      outcome := PassOn(e, from, now, up);
    }

    method AcknowledgeMessage(id: MessageId, hint: Hint, acknowledged: MessageId, now: nat, up: bool)
      requires Valid()
      modifies this, table, queue
      ensures Valid()
      ensures var s := SendAck(old(View()), id, hint, acknowledged, now, up);
              && View() == s.node
              && sent == old(sent) + s.effects.sent && delivered == old(delivered) + s.effects.delivered
    {
      hide PurgeRoutingState, Receive, KeepForLater, MapsInv, TableInv, Q.QueueInv, NextHop, AllLive, CreateAck;
      PurgeStaleRoutingState(now);
      var ack := CreateAck(id, hint, acknowledged, identity, now);
      if hint == HintOf(identity) {
        var outcome := ReceiveEnvelope(ack, None, now, up);
        return;
      }
      var next := LookUp(hint, now);
      KeepingSendsNothing(View(), ack, Q.ORIGIN, now);
      if next.Some? && up {
        sent := sent + [Transmission(next.value, ack)];
      } else {
        var outcome := Keep(ack, Q.ORIGIN, now);
      }
    }

    method AttemptQueuedDelivery(hint: Hint, now: nat, ups: seq<bool>)
      requires Valid()
      modifies this`pendingAcks, this`sent, table, queue
      ensures Valid()
      ensures var (after, effects) := DeliverQueued(old(View()), hint, now, ups);
              View() == after && sent == old(sent) + effects.sent
    {
      hide PurgeRoutingState, MapsInv, TableInv, Q.QueueInv, NextHop, AllLive, Q.Purged, Q.ForDestination, ExpiredIn,
          Forward;
      PurgeStaleRoutingState(now);
      var next := LookUp(hint, now);
      if next.None? { return; }
      var envelopes := queue.GetByDestination(hint, now);
      ghost var start, before := View(), sent;
      for i := 0 to |envelopes|
        invariant Valid()
        invariant View() == SendQueued(start, envelopes[..i], next.value, now, ups).0
        invariant sent == before + SendQueued(start, envelopes[..i], next.value, now, ups).1.sent
      {
        assert envelopes[..i + 1][..i] == envelopes[..i];
        ForwardOverTransport(envelopes[i], next.value, now, Up(ups, i));
        if Up(ups, i) { queue.Confirm(envelopes[i].header.messageId); }
      }
      assert envelopes[..|envelopes|] == envelopes;
    }

    method HearAdvertisement(from: NeighborId, ad: Advertisement, now: nat, ups: seq<seq<bool>>)
      requires Valid()
      modifies this`pendingAcks, this`sent, this`seenAds, table, queue
      ensures Valid()
      ensures var (after, effects) := ReceiveAdvertisement(old(View()), from, ad, now, ups);
              View() == after && sent == old(sent) + effects.sent
    {
      hide PurgeRoutingState, TableInv, Q.QueueInv, AllLive, DeliverAllQueued, VerifyAdvertisement, SeenAfter, Learn,
          AcksInv, Listed;
      PurgeStaleRoutingState(now);
      if !VerifyAdvertisement(ad, now) { return; }
      if from !in peers.at { return; }
      if (from, ad) in seenAds.at { return; }
      SeenFits(seenAds, (from, ad), now);
      seenAds := SeenAfter(seenAds, (from, ad), now);
      table.LearnFromAdvertisement(from, ad, peers.at[from], now);
      AttemptAll(ad.destinations, now, ups);
    }

    method AttemptAll(hints: seq<Hint>, now: nat, ups: seq<seq<bool>>)
      requires Valid()
      modifies this`pendingAcks, this`sent, table, queue
      ensures Valid()
      ensures var (after, effects) := DeliverAllQueued(old(View()), hints, now, ups);
              View() == after && sent == old(sent) + effects.sent
    {
      hide MapsInv, TableInv, Q.QueueInv, DeliverQueued;
      for i := 0 to |hints|
        invariant Valid()
        invariant View() == DeliverAllQueued(old(View()), hints[..i], now, ups).0
        invariant sent == old(sent) + DeliverAllQueued(old(View()), hints[..i], now, ups).1.sent
      {
        assert hints[..i + 1][..i] == hints[..i];
        AttemptQueuedDelivery(hints[i], now, if i < |ups| then ups[i] else []);
      }
      assert hints[..|hints|] == hints;
    }

    /** hasRoute: looking up deletes what has expired; trust does not matter. */
    method HasRouteTo(hint: Hint, now: int) returns (found: bool)
      requires Valid()
      modifies table
      ensures Valid() && View() == PurgeRoutes(old(View()), now)
      ensures found == Lookup(table.routes, hint, map[], peers).Some?
    {
      hide Lookup, Purged, MapsInv, Q.QueueInv, TableInv;
      var next := table.LookupRoute(hint, map[], peers, now);
      return next.Some?;
    }

    method PurgeStaleRoutes(now: int) returns (purged: nat)
      requires Valid()
      modifies table
      ensures Valid() && View() == PurgeRoutes(old(View()), now)
      ensures purged == Total(RouteCounts(old(table.routes))) - Total(RouteCounts(table.routes))
    {
      hide Purged, MapsInv, Q.QueueInv, TableInv, Total, RouteCounts;
      purged := table.PurgeExpired(now);
    }

    method PurgeStaleRoutingAdvertisements(maxAgeMs: int, now: int) returns (purged: nat)
      requires Valid()
      modifies this`seenAds
      ensures Valid() && View() == PurgeAds(old(View()), maxAgeMs, now)
      ensures purged == |old(seenAds).at| - |seenAds.at|
    {
      hide Restrict, Drop, Swept, Listed, TableInv, Q.QueueInv, AcksInv;
      ghost var all := seenAds;
      ghost var good := set k | k in all.at && now - all.at[k] <= maxAgeMs;
      SweepStarts(all, good);
      RestrictShrinks(all, good);
      var keys := seenAds.order;
      purged := 0;
      for i := 0 to |keys|
        invariant keys == all.order && Listed(all) && View() == old(View()).(seenAds := seenAds)
        invariant seenAds == Restrict(all, Swept(all, i, good)) && purged == |all.at| - |seenAds.at|
        invariant table.Valid() && queue.Valid() && AcksInv(pendingAcks) && Listed(peers)
      {
        SweepMoves(all, i, good);
        if now - seenAds.at[keys[i]] > maxAgeMs {
          DropShrinks(seenAds, keys[i]);
          seenAds := Drop(seenAds, keys[i]);
          purged := purged + 1;
        }
      }
      SweepEnds(all, good);
    }

    /** The result is false where the program throws. */
    method RegisterAuthenticatedPeer(n: NeighborId, identity: nat, session: Option<Session>, now: int)
      returns (ok: bool)
      requires Valid()
      modifies this`peers
      ensures Valid() && View() == Register(old(View()), n, identity, session, now)
      ensures ok == Named(session)
    {
      hide Put, Listed, AcksInv, Q.QueueInv, TableInv;
      if session.Some? && session.value.sessionId == "" { return false; }
      PutListed(peers, n, AuthenticatedPeer(identity, now, session));
      peers := Put(peers, n, AuthenticatedPeer(identity, now, session));
      return true;
    }

    method UnregisterAuthenticatedPeer(n: NeighborId)
      requires Valid()
      modifies this`peers
      ensures Valid() && View() == Unregister(old(View()), n)
    {
      hide Restrict, Listed, AcksInv, Q.QueueInv, TableInv;
      RestrictListed(peers, peers.at.Keys - {n});
      peers := Drop(peers, n);
    }
  }

  lemma OnlySent(node: Node, e: Envelope, next: Option<NeighborId>, from: NeighborId, now: nat, up: bool)
    ensures ForwardOrKeep(node, e, next, from, now, up).effects.delivered == []
  {
  }

  /** Room is made before an advertisement is remembered. */
  lemma SeenFits(seen: SeenAds, key: (NeighborId, Advertisement), now: int)
    requires Listed(seen) && |seen.at| <= MAX_SEEN_ROUTING_ADS
    ensures Listed(SeenAfter(seen, key, now)) && |SeenAfter(seen, key, now).at| <= MAX_SEEN_ROUTING_ADS
  {
    hide PutWithin, Listed;
    PutWithinFits(seen, key, now, MAX_SEEN_ROUTING_ADS);
  }

  lemma KeepingSendsNothing(node: Node, e: Envelope, from: NeighborId, now: nat)
    ensures KeepForLater(node, e, from, now).effects.sent == []
        && KeepForLater(node, e, from, now).effects.delivered == []
  {
  }
}
