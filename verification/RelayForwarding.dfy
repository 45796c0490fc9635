/** What a relay does with what it is given: where an envelope goes, and when it waits. */
module RelayForwarding {
  import opened Basics
  import opened OrderedMaps
  import opened Envelopes
  import opened RouteTable
  import opened Relay
  import opened RouteHistory
  import opened RelayDelivery
  import Q = ForwardQueue

  // ----- One envelope -----

  /** The envelope went to n, one hop less to live, and nothing else happened to it;
      if it holds data, its acknowledgement is awaited from n. */
  predicate SentTo(node: Node, e: Envelope, n: NeighborId, now: int, s: Step) {
    && s.outcome == Forwarded(n)
    && s.effects == Effects([Transmission(n, Relayed(e))], [], [])
    && s.node.queue == node.queue
    && (e.header.packetType == DATA ==>
          && e.header.messageId in s.node.pendingAcks.at
          && s.node.pendingAcks.at[e.header.messageId] == PendingAck(n, e.header.destinationHint, now))
  }

  /** The envelope is kept for later with where it came from and when, or dropped because
      the queue refuses it. */
  predicate KeptBack(e: Envelope, from: NeighborId, now: nat, s: Step) {
    && s.effects.sent == [] && s.effects.delivered == []
    && match s.outcome
       case Queued =>
         e.header.messageId in s.node.queue.at
         && s.node.queue.at[e.header.messageId] == Q.Stored(e, from, now / 1000)
       case Dropped(reason) => reason.NotStored? && e in s.effects.dropped
       case _ => false
  }

  /** It goes to the next hop exactly when there is one and the transport accepts it. */
  lemma ForwardedOrKept(node: Node, e: Envelope, next: Option<NeighborId>, from: NeighborId, now: nat, up: bool)
    ensures var s := ForwardOrKeep(node, e, next, from, now, up);
            if next.Some? && up then SentTo(node, e, next.value, now, s) else KeptBack(e, from, now, s)
  {
    hide Only, ExpiredIn, ValidHeader;
  }

  /** The relay whose stale routing state is purged, as every handler purges it first. */
  function Live(node: Node, now: int): Node { PurgeRoutingState(node, now) }

  /** The acknowledgement may pass: it is signed, and if its message is awaited here
      then from this neighbor, for the destination that signed. */
  predicate Welcome(node: Node, e: Envelope, n: NeighborId) {
    && VerifyAck(e).Some?
    && var ack := VerifyAck(e).value;
    if ack.acknowledged in node.pendingAcks.at then
      var p := node.pendingAcks.at[ack.acknowledged];
      p.neighborId == n && p.destinationHint == HintOf(ack.signer) && n in node.peers.at
    else e.header.destinationHint != HintOf(node.identity)
  }

  /** A valid unicast packet, and if it is an acknowledgement from a neighbor then one
      that may pass. */
  predicate Admitted(node: Node, e: Envelope, from: Option<NeighborId>, now: nat) {
    && ValidHeader(e.header, now) && Unicast(e)
    && (e.header.packetType == ACK && from.Some? ==> Welcome(Live(node, now), e, from.value))
    && (e.header.packetType == ACK && from.None? && e.header.destinationHint == HintOf(node.identity) ==>
          VerifyAck(e).Some?)
  }

  lemma CheckIsWelcome(node: Node, e: Envelope, n: NeighborId, now: int)
    ensures CheckAck(node, e, n, now).Ok? <==> Welcome(node, e, n)
    ensures Welcome(node, e, n) ==> VerifyAck(e).Some?
    ensures CheckAck(node, e, n, now).Ok? ==> CheckAck(node, e, n, now).value.identity == node.identity
    ensures CheckAck(node, e, n, now).Ok? ==> CheckAck(node, e, n, now).value.queue == node.queue
  {
    hide MarkValidated, Drop;
  }

  /** What is for this relay and admitted, and nothing else, is delivered here. */
  lemma DeliveredExactly(node: Node, e: Envelope, from: Option<NeighborId>, now: nat, up: bool)
    requires Unicast(e)
    ensures var s := Receive(node, e, from, now, up);
            && (e in s.effects.delivered <==>
                (Admitted(node, e, from, now) && e.header.destinationHint == HintOf(node.identity)))
            && (e in s.effects.delivered ==> s.effects == Effects([], [e], []) && s.outcome == Delivered)
            && (e !in s.effects.delivered ==> s.effects.delivered == [])
            && (!Admitted(node, e, from, now) ==> s.effects == Effects([], [], [e]) && s.outcome.Dropped?)
  {
    hide Purged, DemoteOverdue, Restrict, ValidHeader, Lookup, CheckAck, Welcome, ForwardOrKeep;
    var live := Live(node, now);
    if e.header.packetType == ACK && from.Some? { CheckIsWelcome(live, e, from.value, now); }
    ForwardedOrKept(live, e, NextHop(live, e.header.destinationHint), from.GetOr(Q.ORIGIN), now, up);
    if e.header.packetType == ACK && from.Some? && CheckAck(live, e, from.value, now).Ok? {
      var checked := CheckAck(live, e, from.value, now).value;
      ForwardedOrKept(checked, e, NextHop(checked, e.header.destinationHint), from.GetOr(Q.ORIGIN), now, up);
    }
  }

  /** A valid envelope for another relay goes to the next hop when there is one and
      the transport accepts it, and waits in the queue otherwise. */
  lemma PassesOnExactly(node: Node, e: Envelope, from: Option<NeighborId>, now: nat, up: bool)
    requires ValidHeader(e.header, now) && Unicast(e) && e.header.packetType != ACK
    requires e.header.destinationHint != HintOf(node.identity)
    ensures var live, s := Live(node, now), Receive(node, e, from, now, up);
            var next := NextHop(live, e.header.destinationHint);
            if next.Some? && up then SentTo(live, e, next.value, now, s)
            else KeptBack(e, from.GetOr(Q.ORIGIN), now, s)
  {
    hide Purged, DemoteOverdue, Restrict, Lookup, CheckAck, ForwardOrKeep, SentTo, KeptBack;
    var live := Live(node, now);
    ForwardedOrKept(live, e, NextHop(live, e.header.destinationHint), from.GetOr(Q.ORIGIN), now, up);
  }

  /** The same of an acknowledgement that may pass, with the routes as they are once
      it is settled. */
  lemma AckPassesOnExactly(node: Node, e: Envelope, n: NeighborId, now: nat, up: bool)
    requires ValidHeader(e.header, now) && e.header.packetType == ACK && Welcome(Live(node, now), e, n)
    requires e.header.destinationHint != HintOf(node.identity)
    ensures var live, s := Live(node, now), Receive(node, e, Some(n), now, up);
            && CheckAck(live, e, n, now).Ok?
            && var checked := CheckAck(live, e, n, now).value;
            var next := NextHop(checked, e.header.destinationHint);
            if next.Some? && up then SentTo(checked, e, next.value, now, s) else KeptBack(e, n, now, s)
  {
    hide Purged, DemoteOverdue, Restrict, Lookup, CheckAck, ForwardOrKeep, SentTo, KeptBack, Welcome;
    var live := Live(node, now);
    CheckIsWelcome(live, e, n, now);
    var checked := CheckAck(live, e, n, now).value;
    ForwardedOrKept(checked, e, NextHop(checked, e.header.destinationHint), n, now, up);
  }

  /** The route lookup chooses carries the envelope: the first best validated one or,
      none of those being left, the first best on probation. */
  lemma BestRouteCarries(node: Node, e: Envelope, from: Option<NeighborId>, now: nat, n: NeighborId)
    requires ValidHeader(e.header, now) && Unicast(e) && e.header.packetType != ACK
    requires e.header.destinationHint != HintOf(node.identity)
    requires var live, h := Live(node, now), e.header.destinationHint;
             var c := CandidatesFor(live.routes, h);
             || IsFirstBest(c, n, h, Validated, live.trust, live.peers)
             || (NoneUsable(c, |c.order|, h, Validated, live.peers) &&
                 IsFirstBest(c, n, h, Probation, live.trust, live.peers))
    ensures Receive(node, e, from, now, true).effects.sent == [Transmission(n, Relayed(e))]
  {
    hide Receive, PurgeRoutingState, Lookup, KeptBack;
    var live := Live(node, now);
    LookupExact(live.routes, e.header.destinationHint, live.trust, live.peers, n);
    PassesOnExactly(node, e, from, now, true);
  }

  // ----- What the relay sends itself -----

  /** A valid envelope goes to a direct peer if there is one, else along the route, and
      waits in the queue when there is neither or the transport refuses it. */
  lemma SendsExactly(node: Node, e: Envelope, now: nat, up: bool)
    ensures var live, s := Live(node, now), Send(node, e, now, up);
            var direct := DirectPeer(live.peers, e.header.destinationHint);
            var next := if direct.Some? then direct else NextHop(live, e.header.destinationHint);
            if !ValidHeader(e.header, now) then s.effects == Effects([], [], [e]) && s.outcome.Dropped?
            else if next.Some? && up then SentTo(live, e, next.value, now, s) else KeptBack(e, Q.ORIGIN, now, s)
  {
    hide Purged, DemoteOverdue, Restrict, Lookup, ForwardOrKeep, SentTo, KeptBack, ValidHeader;
    var live := Live(node, now);
    var direct := DirectPeer(live.peers, e.header.destinationHint);
    var next := if direct.Some? then direct else NextHop(live, e.header.destinationHint);
    ForwardedOrKept(live, e, next, Q.ORIGIN, now, up);
  }

  lemma AckIsValid(id: MessageId, hint: Hint, acknowledged: MessageId, signer: nat, now: nat)
    ensures var ack := CreateAck(id, hint, acknowledged, signer, now);
            ValidHeader(ack.header, now) && VerifyAck(ack) == Some(VerifiedAck(acknowledged, signer, HintOf(signer)))
  {
  }

  /** An acknowledgement for the relay itself is delivered; any other is sent along the
      route without losing a hop and is not awaited, or waits in the queue. */
  lemma AcknowledgesExactly(node: Node, id: MessageId, hint: Hint, acknowledged: MessageId, now: nat, up: bool)
    ensures var live, s := Live(node, now), SendAck(node, id, hint, acknowledged, now, up);
            var ack, next := CreateAck(id, hint, acknowledged, node.identity, now), NextHop(live, hint);
            if hint == HintOf(node.identity) then s.effects == Effects([], [ack], []) && s.outcome == Delivered
            else if next.Some? && up then
              s.effects == Effects([Transmission(next.value, ack)], [], []) && s.node == live
              && s.outcome == Forwarded(next.value)
            else KeptBack(ack, Q.ORIGIN, now, s)
  {
    var live, ack := Live(node, now), CreateAck(id, hint, acknowledged, node.identity, now);
    AckIsValid(id, hint, acknowledged, node.identity, now);
    if hint == HintOf(node.identity) { DeliveredExactly(live, ack, None, now, up); }
    hide Purged, DemoteOverdue, Restrict, Lookup, Receive, CreateAck, KeptBack, ValidHeader, VerifyAck;
    KeptForLater(live, ack, Q.ORIGIN, now);
  }

  lemma KeptForLater(node: Node, e: Envelope, from: NeighborId, now: nat)
    ensures KeptBack(e, from, now, KeepForLater(node, e, from, now))
  {
    hide Only, ExpiredIn, ValidHeader;
  }

  // ----- Who is a next hop -----

  /** Lookup chooses only registered peers, and a validated route only in the session and
      for the identity its binding was made with. */
  lemma HopIsRegistered(node: Node, h: Hint, n: NeighborId)
    requires NextHop(node, h) == Some(n)
    ensures n in node.peers.at && HasRoute(node.routes, h, n)
    ensures var r, peer := RouteAt(node.routes, h, n), node.peers.at[n];
            r.status == Validated ==>
              && r.binding.Some? && r.binding.value.neighborId == n && r.binding.value.destinationHint == h
              && r.binding.value.sessionEpoch == peer.establishedAt && r.binding.value.advertiser == peer.identity
  {
    hide Best, NoneUsable;
    LookupExact(node.routes, h, node.trust, node.peers, n);
  }

  predicate ToRegistered(node: Node, sent: seq<Transmission>) {
    forall t :: t in sent ==> t.to in node.peers.at
  }

  lemma PurgingKeepsPeers(node: Node, now: int)
    ensures Live(node, now).peers == node.peers
  {
    hide Purged, DemoteOverdue, Restrict;
  }

  /** What is received, sent or acknowledged goes to registered peers only. */
  lemma SentToRegistered(node: Node, event: NodeEvent, now: nat)
    requires event.Receives? || event.Sends? || event.SendsAck?
    ensures ToRegistered(node, NodeStep(node, event, now).1.sent)
  {
    hide Purged, DemoteOverdue, Restrict, Lookup, ForwardOrKeep, Receive, Send, SendAck, ValidHeader, DirectPeer;
    PurgingKeepsPeers(node, now);
    match event
    case Receives(e, from, up) => ReceivedToRegistered(node, e, from, now, up);
    case Sends(e, up) =>
      SendsExactly(node, e, now, up);
      DirectPeerFound(Live(node, now).peers, e.header.destinationHint, 0);
      var next := NextHop(Live(node, now), e.header.destinationHint);
      if next.Some? { HopIsRegistered(Live(node, now), e.header.destinationHint, next.value); }
    case SendsAck(id, hint, acknowledged, up) =>
      AcknowledgesExactly(node, id, hint, acknowledged, now, up);
      var next := NextHop(Live(node, now), hint);
      if next.Some? { HopIsRegistered(Live(node, now), hint, next.value); }
  }

  lemma ReceivedToRegistered(node: Node, e: Envelope, from: Option<NeighborId>, now: nat, up: bool)
    ensures ToRegistered(node, Receive(node, e, from, now, up).effects.sent)
  {
    hide Purged, DemoteOverdue, Restrict, Lookup, ForwardOrKeep, ValidHeader, MarkValidated;
    var live, h := Live(node, now), e.header.destinationHint;
    var checked := if from.Some? then CheckAck(live, e, from.value, now) else Ok(live);
    if checked.Ok? {
      ForwardedOrKept(checked.value, e, NextHop(checked.value, h), from.GetOr(Q.ORIGIN), now, up);
      if NextHop(checked.value, h).Some? { HopIsRegistered(checked.value, h, NextHop(checked.value, h).value); }
    }
    ForwardedOrKept(live, e, NextHop(live, h), from.GetOr(Q.ORIGIN), now, up);
    if NextHop(live, h).Some? { HopIsRegistered(live, h, NextHop(live, h).value); }
  }

  /** A peer that was unregistered is nobody's next hop. */
  lemma UnregisteredIsNoHop(node: Node, n: NeighborId, h: Hint)
    ensures NextHop(Unregister(node, n), h) != Some(n) && DirectPeer(Unregister(node, n).peers, h) != Some(n)
  {
    hide Only, Lookup;
    var next := Unregister(node, n);
    DirectPeerFound(next.peers, h, 0);
    if NextHop(next, h) == Some(n) { HopIsRegistered(next, h, n); }
  }

  /** A new session with a peer ends what was validated in an earlier one: whichever
      validated route through the peer lookup still chooses is bound to the instant of
      the registration. */
  lemma NewSessionUnbinds(node: Node, n: NeighborId, identity: nat, session: Option<Session>, now: int, h: Hint)
    requires Named(session) && NextHop(Register(node, n, identity, session, now), h) == Some(n)
    ensures HasRoute(node.routes, h, n)
    ensures RouteAt(node.routes, h, n).status == Validated ==>
              RouteAt(node.routes, h, n).binding.Some? && RouteAt(node.routes, h, n).binding.value.sessionEpoch == now
  {
    hide Lookup;
    HopIsRegistered(Register(node, n, identity, session, now), h, n);
  }

  /** A packet of another version, without hops left, from more than a minute ahead or
      more than an hour old is dropped, whether received or sent; any other is not
      dropped for its header. */
  lemma StaleGoesNowhere(node: Node, e: Envelope, from: Option<NeighborId>, now: nat, up: bool)
    ensures var stale := e.header.version != 1 || e.header.ttl <= 0
                         || e.header.timestamp > now / 1000 + 60 || now / 1000 - e.header.timestamp > 3600;
            && (stale <==> Receive(node, e, from, now, up).outcome == Dropped(DropReason.InvalidHeader))
            && (stale <==> Send(node, e, now, up).outcome == Dropped(DropReason.InvalidHeader))
            && (stale ==> Receive(node, e, from, now, up).effects == Send(node, e, now, up).effects
                          == Effects([], [], [e]))
  {
    hide Purged, DemoteOverdue, Restrict, Lookup, Q.Store, ExpiredIn, AcksAfter, MarkValidated, DirectPeer;
  }
}
