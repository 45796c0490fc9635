/** One relay: the handlers of RelayNode in src/routing/routing.ts. */
module Relay {
  import opened Basics
  import opened OrderedMaps
  import opened Envelopes
  import opened RouteTable
  import Q = ForwardQueue

  const MAX_PENDING_ACKS: nat := 500
  const MAX_SEEN_ROUTING_ADS: nat := 2048
  const ROUTE_ACK_TIMEOUT_MS: int := ROUTE_PROBATION_MS

  datatype PendingAck = PendingAck(neighborId: NeighborId, destinationHint: Hint, sentAt: int)

  type PendingAcks = OrderedMap<MessageId, PendingAck>

  type SeenAds = OrderedMap<(NeighborId, Advertisement), int>

  datatype Node = Node(
    identity: nat, routes: Routes, queue: Q.Queue, trust: Trust, pendingAcks: PendingAcks, peers: Peers,
        seenAds: SeenAds)

  /** An envelope given to the transport for a neighbor, as it goes on the wire. */
  datatype Transmission = Transmission(to: NeighborId, envelope: Envelope)

  /** What a handler did with envelopes besides keeping them: sent them on, gave
      them to the node's own listeners and handlers, or lost them. */
  datatype Effects = Effects(sent: seq<Transmission>, delivered: seq<Envelope>, dropped: seq<Envelope>)

  datatype DropReason =
    | InvalidHeader | InvalidAckSignature | AckRouteProvenanceMismatch | AckForUnknownMessage
    | TtlExpired | NotStored(refusal: Q.Refusal)

  /** Sync and broadcast packets are dispatched to handlers of their own. */
  datatype Outcome = Delivered | Forwarded(to: NeighborId) | Queued | Dropped(reason: DropReason) | Dispatched

  datatype Step = Step(node: Node, effects: Effects, outcome: Outcome)

  const NOTHING: Effects := Effects([], [], [])

  function NewNode(identity: nat): Node {
    Node(identity, map[], Q.EMPTY, map[], OrderedMap([], map[]), OrderedMap([], map[]), OrderedMap([], map[]))
  }

  // ----- Pending acknowledgements -----

  predicate AckTimely(p: PendingAck, now: int) {
    now - p.sentAt < ROUTE_ACK_TIMEOUT_MS
  }

  function TimelyAcks(acks: PendingAcks, now: int): set<MessageId> {
    set k | k in acks.at && AckTimely(acks.at[k], now)
  }

  /** The routes once the first i pending acknowledgements were checked. */
  function DemoteOverdue(routes: Routes, acks: PendingAcks, i: nat, now: int): Routes
    requires i <= |acks.order|
  {
    if i == 0 then routes
    else
      var before := DemoteOverdue(routes, acks, i - 1, now);
      var k := acks.order[i - 1];
      if k in acks.at && !AckTimely(acks.at[k], now)
          then Demote(before, acks.at[k].destinationHint, acks.at[k].neighborId)
      else before
  }

  /** purgeStaleRoutingState */
  function PurgeRoutingState(node: Node, now: int): Node {
    node.(routes := Purged(DemoteOverdue(node.routes, node.pendingAcks, |node.pendingAcks.order|, now), now),
          pendingAcks := Restrict(node.pendingAcks, TimelyAcks(node.pendingAcks, now)))
  }

  /** recordPendingAck: at the limit the oldest makes room. */
  function Record(acks: PendingAcks, id: MessageId, n: NeighborId, hint: Hint, now: int): PendingAcks {
    PutWithin(acks, id, PendingAck(n, hint, now), MAX_PENDING_ACKS)
  }

  // ----- Sending -----

  function NextHop(node: Node, hint: Hint): Option<NeighborId> {
    Lookup(node.routes, hint, node.trust, node.peers)
  }

  /** forwardOverTransport; `up` is what the transport answers. */
  function AcksAfter(acks: PendingAcks, e: Envelope, next: NeighborId, now: int, up: bool): PendingAcks {
    if e.header.packetType != DATA then acks
    else
      var recorded := Record(acks, e.header.messageId, next, e.header.destinationHint, now);
      if up then recorded else Drop(recorded, e.header.messageId)
  }

  function Forward(node: Node, e: Envelope, next: NeighborId, now: int, up: bool): Node {
    node.(pendingAcks := AcksAfter(node.pendingAcks, e, next, now, up))
  }

  /** Storing for later, with what a full or expired queue loses. */
  function KeepForLater(node: Node, e: Envelope, from: NeighborId, now: nat): Step {
    var expired := ExpiredIn(node.queue.order, node.queue.at, now);
    var (queue, refusal) := Q.Store(node.queue, e, from, now);
    match refusal
    case None => Step(node.(queue := queue), Effects([], [], expired), Queued)
    case Some(r) => Step(node.(queue := queue), Effects([], [], expired + [e]), Dropped(NotStored(r)))
  }

  /** The envelopes a purge removes. */
  function ExpiredIn(order: seq<MessageId>, at: map<MessageId, Q.Stored>, now: nat): seq<Envelope> {
    if order == [] then []
    else
      var k := order[0];
      (if k in at && !ValidHeader(at[k].envelope.header, now) then [at[k].envelope] else []) +
          ExpiredIn(order[1..], at, now)
  }

  /** Forwarding to the next hop when there is one and it answers, else storing. */
  function ForwardOrKeep(node: Node, e: Envelope, next: Option<NeighborId>, from: NeighborId, now: nat,
          up: bool): Step {
    match next
    case None => KeepForLater(node, e, from, now)
    case Some(n) =>
      var tried := Forward(node, e, n, now, up);
      if up then Step(tried, Effects([Transmission(n, Relayed(e))], [], []), Forwarded(n))
      else KeepForLater(tried, e, from, now)
  }

  /** The first registered peer whose identity the hint names. */
  function DirectPeer(peers: Peers, hint: Hint, i: nat := 0): Option<NeighborId>
    decreases |peers.order| - i
  {
    if i >= |peers.order| then None
    else
      var n := peers.order[i];
      if n in peers.at && HintOf(peers.at[n].identity) == hint then Some(n) else DirectPeer(peers, hint, i + 1)
  }

  /** sendEnvelope */
  function Send(node: Node, e: Envelope, now: nat, up: bool): Step {
    var live := PurgeRoutingState(node, now);
    if !ValidHeader(e.header, now) then Step(live, Effects([], [], [e]), Dropped(InvalidHeader))
    else
      var direct := DirectPeer(live.peers, e.header.destinationHint);
      ForwardOrKeep(live, e, if direct.Some? then direct else NextHop(live, e.header.destinationHint), Q.ORIGIN, now,
          up)
  }

  /** sendAck: the first hop does not cost the acknowledgement a hop. */
  function SendAck(node: Node, id: MessageId, hint: Hint, acknowledged: MessageId, now: nat, up: bool): Step {
    var live := PurgeRoutingState(node, now);
    var ack := CreateAck(id, hint, acknowledged, node.identity, now);
    if hint == HintOf(node.identity) then Receive(live, ack, None, now, up)
    else
      var next := NextHop(live, hint);
      if next.Some? && up then Step(live, Effects([Transmission(next.value, ack)], [], []), Forwarded(next.value))
      else KeepForLater(live, ack, Q.ORIGIN, now)
  }

  // ----- Receiving -----

  /** May this verified acknowledgement from n settle the pending one? */
  predicate Settles(node: Node, p: PendingAck, ack: VerifiedAck, n: NeighborId) {
    p.neighborId == n && p.destinationHint == ack.signerHint && n in node.peers.at
  }

  function Settle(node: Node, p: PendingAck, ack: VerifiedAck, now: int): Node
    requires p.neighborId in node.peers.at
  {
    node.(routes := MarkValidated(node.routes, p.destinationHint, ack.signer, p.neighborId,
        node.peers.at[p.neighborId], now),
          trust := node.trust[p.neighborId := Score(node.trust, p.neighborId) + 1],
          pendingAcks := Drop(node.pendingAcks, ack.acknowledged))
  }

  /** What an acknowledgement from a neighbor does to the node, or why it is dropped. */
  function CheckAck(node: Node, e: Envelope, from: NeighborId, now: int): Result<Node, DropReason> {
    match VerifyAck(e)
    case None => Err(InvalidAckSignature)
    case Some(ack) =>
      match Find(node.pendingAcks, ack.acknowledged)
      case Some(p) =>
        if Settles(node, p, ack, from) then Ok(Settle(node, p, ack, now)) else Err(AckRouteProvenanceMismatch)
      case None =>
        if e.header.destinationHint == HintOf(node.identity) then Err(AckForUnknownMessage) else Ok(node)
  }

  /** An envelope past the checks: for this node, or to be passed on. */
  function RouteOn(node: Node, e: Envelope, from: Option<NeighborId>, now: nat, up: bool): Step {
    if e.header.destinationHint == HintOf(node.identity) then
      if e.header.packetType == ACK && VerifyAck(e).None?
          then Step(node, Effects([], [], [e]), Dropped(InvalidAckSignature))
      else Step(node, Effects([], [e], []), Delivered)
    else if e.header.ttl <= 0 then Step(node, Effects([], [], [e]), Dropped(TtlExpired))
    else ForwardOrKeep(node, e, NextHop(node, e.header.destinationHint), from.GetOr(Q.ORIGIN), now, up)
  }

  predicate Unicast(e: Envelope) {
    e.header.packetType != STORE_FORWARD_SYNC && e.header.packetType != EMERGENCY_BROADCAST
  }

  /** receiveEnvelope */
  function Receive(node: Node, e: Envelope, from: Option<NeighborId>, now: nat, up: bool): Step {
    var live := PurgeRoutingState(node, now);
    if !ValidHeader(e.header, now) then Step(live, Effects([], [], [e]), Dropped(InvalidHeader))
    else if !Unicast(e) then Step(live, Effects([], [e], []), Dispatched)
    else if e.header.packetType == ACK && from.Some? then
      match CheckAck(live, e, from.value, now)
      case Err(reason) => Step(live, Effects([], [], [e]), Dropped(reason))
      case Ok(checked) => RouteOn(checked, e, from, now, up)
    else RouteOn(live, e, from, now, up)
  }

  // ----- Advertisements and peers -----

  function Plus(a: Effects, b: Effects): Effects {
    Effects(a.sent + b.sent, a.delivered + b.delivered, a.dropped + b.dropped)
  }

  /** Whether the transport accepts the i-th send of a series. */
  predicate Up(ups: seq<bool>, i: nat) {
    i < |ups| && ups[i]
  }

  /** Trying to send queued envelopes to a next hop; those sent leave the queue. */
  function SendQueued(node: Node, envelopes: seq<Envelope>, next: NeighborId, now: int, ups: seq<bool>): (Node,
          Effects) {
    if envelopes == [] then (node, NOTHING)
    else
      var i := |envelopes| - 1;
      var (before, effects) := SendQueued(node, envelopes[..i], next, now, ups);
      var e := envelopes[i];
      var tried := Forward(before, e, next, now, Up(ups, i));
      if Up(ups, i) then
        (tried.(queue := Q.Acknowledge(tried.queue, e.header.messageId)),
            Plus(effects, Effects([Transmission(next, Relayed(e))], [], [])))
      else (tried, effects)
  }

  /** attemptQueuedDelivery */
  function DeliverQueued(node: Node, hint: Hint, now: nat, ups: seq<bool>): (Node, Effects) {
    var live := PurgeRoutingState(node, now);
    match NextHop(live, hint)
    case None => (live, NOTHING)
    case Some(next) =>
      var queue := Q.Purged(live.queue, now);
      var (after, effects) := SendQueued(live.(queue := queue), Q.ForDestination(queue, hint), next, now, ups);
      (after, Plus(Effects([], [], ExpiredIn(live.queue.order, live.queue.at, now)), effects))
  }

  function SeenAfter(seen: SeenAds, key: (NeighborId, Advertisement), now: int): SeenAds {
    PutWithin(seen, key, now, MAX_SEEN_ROUTING_ADS)
  }

  /** receiveAdvertisement up to the queue: the node that has learned the routes,
      or nothing when the advertisement is ignored. */
  function Learned(node: Node, from: NeighborId, ad: Advertisement, now: nat): Option<Node> {
    if !VerifyAdvertisement(ad, now) || from !in node.peers.at || (from, ad) in node.seenAds.at then None
    else Some(node.(seenAds := SeenAfter(node.seenAds, (from, ad), now),
                    routes := Learn(node.routes, ad.destinations, from, node.peers.at[from], now)))
  }

  function DeliverAllQueued(node: Node, hints: seq<Hint>, now: nat, ups: seq<seq<bool>>): (Node, Effects) {
    if hints == [] then (node, NOTHING)
    else
      var i := |hints| - 1;
      var (before, effects) := DeliverAllQueued(node, hints[..i], now, ups);
      var (after, more) := DeliverQueued(before, hints[i], now, if i < |ups| then ups[i] else []);
      (after, Plus(effects, more))
  }

  /** receiveAdvertisement */
  function ReceiveAdvertisement(node: Node, from: NeighborId, ad: Advertisement, now: nat,
          ups: seq<seq<bool>>): (Node, Effects) {
    var live := PurgeRoutingState(node, now);
    match Learned(live, from, ad, now)
    case None => (live, NOTHING)
    case Some(learned) => DeliverAllQueued(learned, ad.destinations, now, ups)
  }

  /** A session without a name is refused. */
  predicate Named(session: Option<Session>) {
    session.Some? ==> session.value.sessionId != ""
  }

  function Register(node: Node, n: NeighborId, identity: nat, session: Option<Session>, now: int): Node {
    if Named(session) then node.(peers := Put(node.peers, n, AuthenticatedPeer(identity, now, session))) else node
  }

  function Unregister(node: Node, n: NeighborId): Node {
    node.(peers := Drop(node.peers, n))
  }

  /** Reading the queue deletes what has expired. */
  function PurgeQueue(node: Node, now: nat): (Node, Effects) {
    (node.(queue := Q.Purged(node.queue, now)), Effects([], [], ExpiredIn(node.queue.order, node.queue.at, now)))
  }

  /** hasRoute and purgeStaleRoutes only delete expired routes. */
  function PurgeRoutes(node: Node, now: int): Node {
    node.(routes := Purged(node.routes, now))
  }

  /** purgeStaleRoutingAdvertisements */
  function PurgeAds(node: Node, maxAgeMs: int, now: int): Node {
    node.(seenAds := Restrict(node.seenAds, set k | k in node.seenAds.at && now - node.seenAds.at[k] <= maxAgeMs))
  }

  // ----- A node's steps -----

  /** A call of one of the node's public methods, with what its environment
      (transport, random generator) answers. */
  datatype NodeEvent =
    | Receives(envelope: Envelope, from: Option<NeighborId>, up: bool)
    | Sends(envelope: Envelope, up: bool)
    | SendsAck(id: MessageId, hint: Hint, acknowledged: MessageId, up: bool)
    | Advertises(neighbor: NeighborId, ad: Advertisement, ups: seq<seq<bool>>)
    | Registers(neighbor: NeighborId, identity: nat, session: Option<Session>)
    | Unregisters(neighbor: NeighborId)
    | PurgesRouting
    | PurgesRoutes
    | PurgesAds(maxAgeMs: int)
    | ReadsQueue

  function NodeStep(node: Node, event: NodeEvent, now: nat): (Node, Effects) {
    match event
    case Receives(e, from, up) => var s := Receive(node, e, from, now, up); (s.node, s.effects)
    case Sends(e, up) => var s := Send(node, e, now, up); (s.node, s.effects)
    case SendsAck(id, hint, acknowledged, up) => var s := SendAck(node, id, hint, acknowledged, now, up);
        (s.node, s.effects)
    case Advertises(from, ad, ups) => ReceiveAdvertisement(node, from, ad, now, ups)
    case Registers(n, identity, session) => (Register(node, n, identity, session, now), NOTHING)
    case Unregisters(n) => (Unregister(node, n), NOTHING)
    case PurgesRouting => (PurgeRoutingState(node, now), NOTHING)
    case PurgesRoutes => (PurgeRoutes(node, now), NOTHING)
    case PurgesAds(maxAge) => (PurgeAds(node, maxAge, now), NOTHING)
    case ReadsQueue => PurgeQueue(node, now)
  }
}
