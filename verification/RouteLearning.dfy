/** What an advertisement does: the routes it gives, and the envelopes that were
    waiting for them. */
module RouteLearning {
  import opened Basics
  import opened OrderedMaps
  import opened Envelopes
  import opened RouteTable
  import opened Relay
  import opened RelayTrust
  import opened RouteHistory
  import opened RelayForwarding
  import FiniteSets
  import Q = ForwardQueue

  // ----- The routes an advertisement gives -----

  /** The route was validated and has not expired. */
  predicate StaysValid(routes: Routes, h: Hint, n: NeighborId, now: int) {
    HasRoute(routes, h, n) && RouteAt(routes, h, n).status == Validated && RouteAt(routes, h, n).expiresAt > now
  }

  /** Its binding was made in the neighbor's current session. */
  predicate StaysBound(routes: Routes, h: Hint, n: NeighborId, peer: AuthenticatedPeer) {
    && HasRoute(routes, h, n) && RouteAt(routes, h, n).binding.Some?
    && RouteAt(routes, h, n).binding.value.sessionEpoch == peer.establishedAt
    && RouteAt(routes, h, n).binding.value.advertiser == peer.identity
  }

  /** And names this route. */
  predicate BoundTo(routes: Routes, h: Hint, n: NeighborId, peer: AuthenticatedPeer) {
    && StaysBound(routes, h, n, peer)
    && RouteAt(routes, h, n).binding.value.neighborId == n && RouteAt(routes, h, n).binding.value.destinationHint == h
  }

  /** The route to h through n once n has advertised it. */
  ghost predicate Given(routes: Routes, next: Routes, h: Hint, n: NeighborId, peer: AuthenticatedPeer, now: int) {
    && HasRoute(next, h, n)
    && var r := RouteAt(next, h, n);
    && r.lastAdvertisedAt == now
    && r.status == (if StaysValid(routes, h, n, now) then Validated else Probation)
    && r.expiresAt == now + (if StaysValid(routes, h, n, now) then 300000 else 30000)
    && (if StaysBound(routes, h, n, peer) then r.binding == RouteAt(routes, h, n).binding else r.binding == None)
  }

  /** Every listed hint gets a route through the advertiser, on probation for thirty
      seconds, or for five more minutes if it was validated; a binding stays exactly
      if it was made in the current session. */
  lemma {:induction false} LearnGives(routes: Routes, hints: seq<Hint>, n: NeighborId, peer: AuthenticatedPeer,
          now: int, h: Hint)
    requires h in hints
    ensures Given(routes, Learn(routes, hints, n, peer, now), h, n, peer, now)
  {
    hide WithRoute, Advertised, HasRoute, RouteAt;
    var i := |hints| - 1;
    var before := Learn(routes, hints[..i], n, peer, now);
    if h in hints[..i] {
      LearnGives(routes, hints[..i], n, peer, now, h);
      LearnedAgain(routes, before, hints[i], n, peer, now, h);
    } else {
      LearnElsewhere(routes, hints[..i], n, peer, now, h, n);
      LearnedFirst(routes, before, n, peer, now, h);
    }
  }

  lemma LearnedFirst(routes: Routes, before: Routes, n: NeighborId, peer: AuthenticatedPeer, now: int, h: Hint)
    requires HasRoute(before, h, n) == HasRoute(routes, h, n)
    requires HasRoute(routes, h, n) ==> RouteAt(before, h, n) == RouteAt(routes, h, n)
    ensures Given(routes, LearnHint(before, h, n, peer, now), h, n, peer, now)
  {
  }

  lemma LearnedAgain(routes: Routes, before: Routes, other: Hint, n: NeighborId, peer: AuthenticatedPeer, now: int,
          h: Hint)
    requires Given(routes, before, h, n, peer, now)
    ensures Given(routes, LearnHint(before, other, n, peer, now), h, n, peer, now)
  {
  }

  lemma {:induction false} LearnKeepsLive(routes: Routes, hints: seq<Hint>, n: NeighborId, peer: AuthenticatedPeer,
          now: int)
    requires NoneExpired(routes, now)
    ensures NoneExpired(Learn(routes, hints, n, peer, now), now)
  {
    if hints != [] {
      var i := |hints| - 1;
      LearnKeepsLive(routes, hints[..i], n, peer, now);
      var before := Learn(routes, hints[..i], n, peer, now);
      RouteKeepsNoneExpired(before, hints[i], n, Advertised(Find(CandidatesFor(before, hints[i]), n), peer, now), now);
    }
  }

  // ----- Which advertised routes can be used -----

  /** The route through n carries traffic for h, in whichever status it is. */
  predicate Carries(routes: Routes, h: Hint, n: NeighborId, peers: Peers) {
    Usable(CandidatesFor(routes, h), h, n, Probation, peers) || Usable(CandidatesFor(routes, h), h, n, Validated, peers)
  }

  /** An advertised route can be used at once, unless it was validated and its binding
      is not of the neighbor's current session: it then stays validated and loses the
      binding without which it cannot be used. */
  lemma GivenCarries(routes: Routes, next: Routes, h: Hint, n: NeighborId, peers: Peers, now: int)
    requires n in peers.at && Given(routes, next, h, n, peers.at[n], now)
    ensures Carries(next, h, n, peers) <==>
            (StaysValid(routes, h, n, now) ==> BoundTo(routes, h, n, peers.at[n]))
  {
  }

  lemma OnlyCarriersChosen(routes: Routes, h: Hint, n: NeighborId, trust: Trust, peers: Peers)
    requires !Carries(routes, h, n, peers)
    ensures Lookup(routes, h, trust, peers) != Some(n)
  {
    hide Best, NoneUsable;
    LookupExact(routes, h, trust, peers, n);
  }

  /** Where some route carries, lookup finds one. */
  lemma CarriedIsFound(routes: Routes, h: Hint, n: NeighborId, trust: Trust, peers: Peers)
    requires TableInv(routes) && Carries(routes, h, n, peers)
    ensures Lookup(routes, h, trust, peers).Some?
  {
    var c := CandidatesFor(routes, h);
    BestExact(c, n, h, Validated, trust, peers);
    BestExact(c, n, h, Probation, trust, peers);
    assert Listed(c) && n in c.order;
  }

  // ----- Nothing more expires within one call -----

  /** Purging the routing state at this instant changes no route. */
  ghost predicate Settled(node: Node, now: int) {
    NoneExpired(node.routes, now) && forall k :: k in node.pendingAcks.at ==> AckTimely(node.pendingAcks.at[k], now)
  }

  lemma PurgedIsSettled(node: Node, now: int)
    ensures Settled(PurgeRoutingState(node, now), now)
  {
    hide Only, Purged, AckTimely;
    PurgedHasNoneExpired(DemoteOverdue(node.routes, node.pendingAcks, |node.pendingAcks.order|, now), now);
  }

  lemma SettledStays(node: Node, now: int)
    requires Settled(node, now)
    ensures var live := PurgeRoutingState(node, now);
            live.routes == node.routes && Settled(live, now)
  {
    hide Only, Purged, AckTimely;
    PurgedIsSettled(node, now);
    NothingOverdue(node.routes, node.pendingAcks, |node.pendingAcks.order|, now);
    NoneExpiredIsPurged(node.routes, now);
  }

  lemma ForwardKeepsSettled(node: Node, e: Envelope, next: NeighborId, now: int, up: bool)
    requires Settled(node, now)
    ensures Settled(Forward(node, e, next, now, up), now)
  {
    hide Only;
  }

  // ----- Queued envelopes -----

  /** Nothing of the routing state changed but what is awaited, nothing of that is
      overdue, and the queue is sound. */
  ghost predicate Framed(node: Node, now: int, after: Node) {
    && after.routes == node.routes && after.peers == node.peers && after.trust == node.trust
    && after.seenAds == node.seenAds && (Settled(node, now) ==> Settled(after, now))
    && (Q.QueueInv(node.queue) ==> Q.QueueInv(after.queue))
  }

  lemma FramedThen(a: Node, b: Node, c: Node, now: int)
    requires Framed(a, now, b) && Framed(b, now, c)
    ensures Framed(a, now, c)
  {
    hide Settled, Q.QueueInv;
  }

  /** What the transport accepts of a series goes to the next hop, and nothing else. */
  ghost predicate SendsTaken(es: seq<Envelope>, next: NeighborId, ups: seq<bool>, effects: Effects) {
    && effects.delivered == [] && effects.dropped == []
    && (forall i :: 0 <= i < |es| && Up(ups, i) ==> Transmission(next, Relayed(es[i])) in effects.sent)
    && (forall t :: t in effects.sent ==> t.to == next && Taken(es, ups, t.envelope.header.messageId))
  }

  /** It leaves the queue, and nothing else does. */
  ghost predicate LeavesQueue(q: Q.Queue, es: seq<Envelope>, ups: seq<bool>, after: Q.Queue) {
    && (forall k :: k in after.at <==> k in q.at && !Taken(es, ups, k))
    && (forall k :: k in after.at ==> after.at[k] == q.at[k])
  }

  ghost predicate SentQueued(node: Node, es: seq<Envelope>, next: NeighborId, now: int, ups: seq<bool>, after: Node,
          effects: Effects) {
    && Framed(node, now, after) && SendsTaken(es, next, ups, effects)
    && LeavesQueue(node.queue, es, ups, after.queue)
  }

  /** One of the envelopes the transport accepts has this id. */
  predicate Taken(es: seq<Envelope>, ups: seq<bool>, id: MessageId) {
    exists i :: 0 <= i < |es| && Up(ups, i) && es[i].header.messageId == id
  }

  lemma TakenNext(es: seq<Envelope>, ups: seq<bool>, id: MessageId)
    requires es != []
    ensures var i := |es| - 1;
            Taken(es, ups, id) <==> Taken(es[..i], ups, id) || (Up(ups, i) && es[i].header.messageId == id)
  {
    var i := |es| - 1;
    if Taken(es[..i], ups, id) {
      var j :| 0 <= j < i && Up(ups, j) && es[..i][j].header.messageId == id;
      assert es[j] == es[..i][j];
    }
    if Taken(es, ups, id) {
      var j :| 0 <= j < |es| && Up(ups, j) && es[j].header.messageId == id;
      if j < i { assert es[..i][j] == es[j]; }
    }
  }

  lemma {:induction false} SendQueuedExactly(node: Node, es: seq<Envelope>, next: NeighborId, now: int,
          ups: seq<bool>)
    ensures var (after, effects) := SendQueued(node, es, next, now, ups);
            SentQueued(node, es, next, now, ups, after, effects)
  {
    hide Only, Settled, Taken, Q.QueueInv;
    if es == [] {
      NoneTaken(ups);
    } else {
      var i := |es| - 1;
      SendQueuedExactly(node, es[..i], next, now, ups);
      LastQueued(node, es, next, now, ups);
      var (before, effects) := SendQueued(node, es[..i], next, now, ups);
      var (after, all) := SendQueued(node, es, next, now, ups);
      hide SendQueued, Framed, SendsTaken, LeavesQueue, LastSent, LastLeaves;
      FramedThen(node, before, after, now);
      OneMoreSent(es, next, ups, effects, all);
      OneMoreLeaves(node.queue, es, ups, before.queue, after.queue);
    }
  }

  lemma NoneTaken(ups: seq<bool>)
    ensures forall k :: !Taken([], ups, k)
  {
  }

  ghost predicate LastLeaves(e: Envelope, up: bool, q: Q.Queue, after: Q.Queue) {
    && (forall k :: k in after.at <==> k in q.at && !(up && k == e.header.messageId))
    && (forall k :: k in after.at ==> after.at[k] == q.at[k])
  }

  predicate LastSent(e: Envelope, next: NeighborId, up: bool, effects: Effects, all: Effects) {
    && all.delivered == effects.delivered && all.dropped == effects.dropped
    && all.sent == effects.sent + (if up then [Transmission(next, Relayed(e))] else [])
  }

  /** What the last of a series adds. */
  lemma LastQueued(node: Node, es: seq<Envelope>, next: NeighborId, now: int, ups: seq<bool>)
    requires es != []
    ensures var (before, effects) := SendQueued(node, es[..|es| - 1], next, now, ups);
            var (after, all) := SendQueued(node, es, next, now, ups);
            var e, up := es[|es| - 1], Up(ups, |es| - 1);
            && Framed(before, now, after) && LastSent(e, next, up, effects, all)
            && LastLeaves(e, up, before.queue, after.queue)
  {
    hide Only, AcksAfter, Settled, Q.QueueInv, Framed;
    var i := |es| - 1;
    var before := SendQueued(node, es[..i], next, now, ups).0;
    var tried := Forward(before, es[i], next, now, Up(ups, i));
    ForwardFramed(before, es[i], next, now, Up(ups, i));
    QueueAside(tried, es[i].header.messageId, now);
    FramedThen(before, tried, tried.(queue := Q.Acknowledge(tried.queue, es[i].header.messageId)), now);
  }

  lemma ForwardFramed(node: Node, e: Envelope, next: NeighborId, now: int, up: bool)
    ensures Framed(node, now, Forward(node, e, next, now, up))
  {
    if Settled(node, now) { ForwardKeepsSettled(node, e, next, now, up); }
    hide AcksAfter, Settled, Q.QueueInv;
  }

  lemma QueueAside(node: Node, id: MessageId, now: int)
    ensures Framed(node, now, node.(queue := Q.Acknowledge(node.queue, id)))
  {
    hide Q.QueueInv;
    if Q.QueueInv(node.queue) { Q.RestrictKeepsInv(node.queue, node.queue.at.Keys - {id}); }
  }

  lemma OneMoreSent(es: seq<Envelope>, next: NeighborId, ups: seq<bool>, effects: Effects, all: Effects)
    requires es != [] && SendsTaken(es[..|es| - 1], next, ups, effects)
    requires LastSent(es[|es| - 1], next, Up(ups, |es| - 1), effects, all)
    ensures SendsTaken(es, next, ups, all)
  {
    var i := |es| - 1;
    forall k { TakenNext(es, ups, k); }
    hide Taken;
    forall j | 0 <= j < |es| && Up(ups, j) ensures Transmission(next, Relayed(es[j])) in all.sent {
      if j < i { assert es[..i][j] == es[j]; }
    }
  }

  lemma OneMoreLeaves(q: Q.Queue, es: seq<Envelope>, ups: seq<bool>, before: Q.Queue, after: Q.Queue)
    requires es != [] && LeavesQueue(q, es[..|es| - 1], ups, before)
    requires LastLeaves(es[|es| - 1], Up(ups, |es| - 1), before, after)
    ensures LeavesQueue(q, es, ups, after)
  {
    forall k { TakenNext(es, ups, k); }
    hide Taken;
  }

  /** The queue lists for a destination exactly what it holds for it. */
  lemma {:induction false} ListedForDestination(q: Q.Queue, hint: Hint, i: nat, e: Envelope)
    requires i <= |q.order|
    ensures e in Q.ForDestinationAmong(q, hint, i) <==>
            exists j :: 0 <= j < i && q.order[j] in q.at && q.at[q.order[j]].envelope == e
                        && e.header.destinationHint == hint
    ensures |Q.ForDestinationAmong(q, hint, i)| <= i
  {
    if i > 0 { ListedForDestination(q, hint, i - 1, e); }
  }

  lemma HeldIsListed(q: Q.Queue, hint: Hint, k: MessageId)
    requires Q.QueueInv(q) && k in q.at && q.at[k].envelope.header.destinationHint == hint
    ensures q.at[k].envelope in Q.ForDestination(q, hint) && |Q.ForDestination(q, hint)| <= Q.MAX_TOTAL
  {
    ListedForDestination(q, hint, |q.order|, q.at[k].envelope);
    var j :| 0 <= j < |q.order| && q.order[j] == k;
    ListedSize(q);
  }

  lemma ListedSize(q: Q.Queue)
    requires Listed(q)
    ensures |q.order| <= |q.at|
  {
    OrderSize(q.order, q.at.Keys);
    assert |q.at| == |q.at.Keys|;
  }

  lemma {:induction false} OrderSize(order: seq<MessageId>, keys: set<MessageId>)
    requires forall i, j :: 0 <= i < j < |order| ==> order[i] != order[j]
    requires forall k :: k in order ==> k in keys
    ensures |order| <= |keys|
    decreases |order|
  {
    if order != [] {
      var last := order[|order| - 1];
      OrderSize(order[..|order| - 1], keys - {last});
    }
  }

  lemma ListedIsHeld(q: Q.Queue, hint: Hint, i: nat)
    requires Q.QueueInv(q) && i < |Q.ForDestination(q, hint)|
    ensures var e := Q.ForDestination(q, hint)[i];
            && e.header.messageId in q.at && q.at[e.header.messageId].envelope == e && e.header.destinationHint == hint
  {
    var e := Q.ForDestination(q, hint)[i];
    ListedForDestination(q, hint, |q.order|, e);
  }

  // ----- What waits for one destination -----

  /** The transport accepts everything. */
  predicate AcceptsAll(ups: seq<bool>) {
    |ups| >= Q.MAX_TOTAL && forall i :: 0 <= i < |ups| ==> ups[i]
  }

  /** The envelope went to `next` and left the queue if it is for h, and else stayed. */
  predicate GoneIfFor(e: Envelope, h: Hint, next: Option<NeighborId>, after: Q.Queue, sent: seq<Transmission>,
          k: MessageId) {
    if e.header.destinationHint == h && next.Some?
    then k !in after.at && Transmission(next.value, Relayed(e)) in sent
    else k in after.at
  }

  ghost predicate OnlyFrom(q: Q.Queue, after: Q.Queue) {
    forall k :: k in after.at ==> k in q.at && after.at[k] == q.at[k]
  }

  /** The envelopes waiting for h went to `next`, and nothing else left the queue. */
  ghost predicate EmptiedFor(q: Q.Queue, h: Hint, next: Option<NeighborId>, now: nat, after: Q.Queue,
          sent: seq<Transmission>) {
    && OnlyFrom(q, after)
    && (forall k :: k in Q.Unexpired(q, now) ==> GoneIfFor(q.at[k].envelope, h, next, after, sent, k))
  }

  lemma DeliveryFramed(node: Node, h: Hint, now: nat, ups: seq<bool>)
    requires Settled(node, now)
    ensures Framed(node, now, DeliverQueued(node, h, now, ups).0)
  {
    hide Only, Settled, Lookup, Q.QueueInv, ValidHeader, Q.Purged, ExpiredIn, PurgeRoutingState, Q.ForDestination;
    var live := PurgeRoutingState(node, now);
    PurgedFrame(node, now);
    if NextHop(live, h).Some? {
      var q := Q.Purged(live.queue, now);
      var purged := live.(queue := q);
      SendQueuedExactly(purged, Q.ForDestination(q, h), NextHop(live, h).value, now, ups);
      if Q.QueueInv(live.queue) { Q.PurgedInv(live.queue, now); }
      QueueReplaced(live, q, now);
      var after := SendQueued(purged, Q.ForDestination(q, h), NextHop(live, h).value, now, ups).0;
      FramedThen(live, purged, after, now);
      FramedThen(node, live, after, now);
    }
  }

  /** All unexpired envelopes for a destination with a next hop are sent and leave the
      queue when the transport accepts them; all others stay. */
  lemma DeliversWaiting(node: Node, h: Hint, now: nat, ups: seq<bool>)
    requires Settled(node, now) && Q.QueueInv(node.queue) && AcceptsAll(ups)
    ensures var (after, effects) := DeliverQueued(node, h, now, ups);
            && Framed(node, now, after)
            && EmptiedFor(node.queue, h, NextHop(node, h), now, after.queue, effects.sent)
  {
    hide Only, Settled, Lookup, Q.QueueInv, ValidHeader, Q.Purged, ExpiredIn, PurgeRoutingState, Q.ForDestination,
        EmptiedFor;
    var live := PurgeRoutingState(node, now);
    PurgedFrame(node, now);
    if NextHop(live, h).Some? {
      var next, q := NextHop(live, h).value, Q.Purged(live.queue, now);
      Q.PurgedInv(live.queue, now);
      var es, purged := Q.ForDestination(q, h), live.(queue := q);
      SendQueuedExactly(purged, es, next, now, ups);
      var (after, effects) := SendQueued(purged, es, next, now, ups);
      QueueReplaced(live, q, now);
      FramedThen(live, purged, after, now);
      FramedThen(node, live, after, now);
      WaitingEmptied(live.queue, h, now, ups, next, after.queue, effects);
      assert [] + effects.sent == effects.sent;
    } else {
      NothingEmptied(node.queue, h, now);
    }
  }

  lemma PurgedFrame(node: Node, now: int)
    requires Settled(node, now)
    ensures var live := PurgeRoutingState(node, now); Framed(node, now, live) && live.queue == node.queue
  {
    SettledStays(node, now);
    hide Settled, Q.QueueInv, Purged, DemoteOverdue, Restrict;
  }

  lemma QueueReplaced(node: Node, q: Q.Queue, now: int)
    requires Q.QueueInv(node.queue) ==> Q.QueueInv(q)
    ensures Framed(node, now, node.(queue := q))
  {
    hide Q.QueueInv;
  }

  lemma NothingEmptied(q: Q.Queue, h: Hint, now: nat)
    ensures EmptiedFor(q, h, None, now, q, [])
  {
  }

  lemma WaitingEmptied(all: Q.Queue, h: Hint, now: nat, ups: seq<bool>, next: NeighborId, after: Q.Queue,
          effects: Effects)
    requires Q.QueueInv(all) && AcceptsAll(ups)
    requires var q := Q.Purged(all, now);
             && SendsTaken(Q.ForDestination(q, h), next, ups, effects)
             && LeavesQueue(q, Q.ForDestination(q, h), ups, after)
    ensures EmptiedFor(all, h, Some(next), now, after, effects.sent)
  {
    var q := Q.Purged(all, now);
    Q.PurgedInv(all, now);
    PurgedAt(all, now);
    KeptAt(q, Q.ForDestination(q, h), ups, after);
    hide *;
    forall k | k in q.at ensures GoneIfFor(q.at[k].envelope, h, Some(next), after, effects.sent, k) {
      OneEmptied(q, h, ups, next, after, effects, k);
    }
    FromPurged(all, q, h, now, Some(next), after, effects.sent);
  }

  lemma FromPurged(all: Q.Queue, q: Q.Queue, h: Hint, now: nat, next: Option<NeighborId>, after: Q.Queue,
          sent: seq<Transmission>)
    requires q.at.Keys == Q.Unexpired(all, now) <= all.at.Keys && OnlyFrom(q, after)
    requires forall k :: k in q.at ==> q.at[k] == all.at[k]
    requires forall k :: k in q.at ==> GoneIfFor(q.at[k].envelope, h, next, after, sent, k)
    ensures EmptiedFor(all, h, next, now, after, sent)
  {
    hide Q.Unexpired, GoneIfFor;
  }

  lemma PurgedAt(q: Q.Queue, now: nat)
    ensures Q.Purged(q, now).at.Keys == Q.Unexpired(q, now) <= q.at.Keys
    ensures forall k :: k in Q.Purged(q, now).at ==> Q.Purged(q, now).at[k] == q.at[k]
  {
    hide Only;
  }

  lemma KeptAt(q: Q.Queue, es: seq<Envelope>, ups: seq<bool>, after: Q.Queue)
    requires LeavesQueue(q, es, ups, after)
    ensures OnlyFrom(q, after)
  {
    hide Taken;
  }

  lemma OneEmptied(q: Q.Queue, h: Hint, ups: seq<bool>, next: NeighborId, after: Q.Queue, effects: Effects,
          k: MessageId)
    requires Q.QueueInv(q) && AcceptsAll(ups) && k in q.at
    requires SendsTaken(Q.ForDestination(q, h), next, ups, effects)
    requires LeavesQueue(q, Q.ForDestination(q, h), ups, after)
    ensures GoneIfFor(q.at[k].envelope, h, Some(next), after, effects.sent, k)
  {
    TakenIsListed(q, h, ups, k);
    if q.at[k].envelope.header.destinationHint == h {
      HeldIsListed(q, h, k);
      hide Q.QueueInv, Q.ForDestination, Taken;
      var es := Q.ForDestination(q, h);
      var i :| 0 <= i < |es| && es[i] == q.at[k].envelope;
      assert Up(ups, i);
    }
  }

  lemma TakenIsListed(q: Q.Queue, h: Hint, ups: seq<bool>, k: MessageId)
    requires Q.QueueInv(q) && AcceptsAll(ups) && k in q.at
    ensures Taken(Q.ForDestination(q, h), ups, k) <==> q.at[k].envelope.header.destinationHint == h
  {
    hide Q.ForDestination;
    var es := Q.ForDestination(q, h);
    if Taken(es, ups, k) {
      var i :| 0 <= i < |es| && Up(ups, i) && es[i].header.messageId == k;
      ListedIsHeld(q, h, i);
    }
    if q.at[k].envelope.header.destinationHint == h {
      HeldIsListed(q, h, k);
      var i :| 0 <= i < |es| && es[i] == q.at[k].envelope;
      assert Up(ups, i) && es[i].header.messageId == k;
    }
  }

  // ----- Advertisements -----

  lemma {:induction false} AllFramed(node: Node, hints: seq<Hint>, now: nat, ups: seq<seq<bool>>)
    requires Settled(node, now)
    ensures Framed(node, now, DeliverAllQueued(node, hints, now, ups).0)
  {
    hide Settled, DeliverQueued, Framed, Q.QueueInv;
    if hints == [] {
      FramedSelf(node, now);
    } else {
      var i := |hints| - 1;
      AllFramed(node, hints[..i], now, ups);
      var before := DeliverAllQueued(node, hints[..i], now, ups).0;
      FrameSettles(node, before, now);
      DeliveryFramed(before, hints[i], now, if i < |ups| then ups[i] else []);
      FramedThen(node, before, DeliverAllQueued(node, hints, now, ups).0, now);
    }
  }

  lemma FramedSelf(node: Node, now: int)
    ensures Framed(node, now, node)
  {
  }

  lemma FrameSettles(node: Node, after: Node, now: int)
    requires Framed(node, now, after) && Settled(node, now)
    ensures Settled(after, now) && (Q.QueueInv(node.queue) ==> Q.QueueInv(after.queue))
    ensures forall h :: NextHop(after, h) == NextHop(node, h)
  {
    hide Settled, Q.QueueInv, Lookup;
  }

  /** The transport accepts everything for each of the hints. */
  predicate AcceptsEach(hints: seq<Hint>, ups: seq<seq<bool>>) {
    |ups| >= |hints| && forall i :: 0 <= i < |ups| ==> AcceptsAll(ups[i])
  }

  /** Envelope k went to the next hop of its destination and left the queue if that is
      among the hints and has one; else it stayed. */
  predicate GoneIfAmong(node: Node, e: Envelope, hints: seq<Hint>, after: Q.Queue, sent: seq<Transmission>,
          k: MessageId) {
    var next := NextHop(node, e.header.destinationHint);
    if e.header.destinationHint in hints && next.Some?
    then k !in after.at && Transmission(next.value, Relayed(e)) in sent
    else k in after.at && k in node.queue.at && after.at[k] == node.queue.at[k]
  }

  lemma {:induction false} AllWaitingGo(node: Node, hints: seq<Hint>, now: nat, ups: seq<seq<bool>>, k: MessageId)
    requires Settled(node, now) && Q.QueueInv(node.queue) && AcceptsEach(hints, ups)
    requires k in Q.Unexpired(node.queue, now)
    ensures var (after, effects) := DeliverAllQueued(node, hints, now, ups);
            GoneIfAmong(node, node.queue.at[k].envelope, hints, after.queue, effects.sent, k)
  {
    hide Settled, DeliverQueued, Framed, Q.QueueInv, ValidHeader, AcceptsAll, Lookup, EmptiedFor;
    if hints != [] {
      var i := |hints| - 1;
      AllWaitingGo(node, hints[..i], now, ups, k);
      AllFramed(node, hints[..i], now, ups);
      var (before, effects) := DeliverAllQueued(node, hints[..i], now, ups);
      FrameSettles(node, before, now);
      DeliversWaiting(before, hints[i], now, ups[i]);
      var (after, more) := DeliverQueued(before, hints[i], now, ups[i]);
      OneHintMore(node, hints, before, effects.sent, after.queue, more.sent, now, k);
    }
  }

  lemma OneHintMore(node: Node, hints: seq<Hint>, before: Node, sent: seq<Transmission>, after: Q.Queue,
          more: seq<Transmission>, now: nat, k: MessageId)
    requires hints != [] && k in Q.Unexpired(node.queue, now)
    requires forall h :: NextHop(before, h) == NextHop(node, h)
    requires GoneIfAmong(node, node.queue.at[k].envelope, hints[..|hints| - 1], before.queue, sent, k)
    requires var h := hints[|hints| - 1]; EmptiedFor(before.queue, h, NextHop(before, h), now, after, more)
    ensures GoneIfAmong(node, node.queue.at[k].envelope, hints, after, sent + more, k)
  {
    hide ValidHeader, Lookup;
    var e, h := node.queue.at[k].envelope, hints[|hints| - 1];
    assert e.header.destinationHint in hints <==>
           e.header.destinationHint in hints[..|hints| - 1] || e.header.destinationHint == h;
    if k in before.queue.at { assert GoneIfFor(e, h, NextHop(before, h), after, more, k); }
  }

  /** An advertisement that counts: signed and timely, from a registered peer, and not
      heard before. */
  predicate Counts(node: Node, from: NeighborId, ad: Advertisement, now: nat) {
    VerifyAdvertisement(ad, now) && from in node.peers.at && (from, ad) !in node.seenAds.at
  }

  lemma LearnedSettled(node: Node, from: NeighborId, ad: Advertisement, now: nat)
    requires Settled(node, now) && Counts(node, from, ad, now)
    ensures var learned := Learned(node, from, ad, now);
            && learned.Some? && Settled(learned.value, now) && learned.value.queue == node.queue
            && (from, ad) in learned.value.seenAds.at && learned.value.seenAds.at[(from, ad)] == now
            && learned.value.peers == node.peers && learned.value.trust == node.trust
            && learned.value.routes == Learn(node.routes, ad.destinations, from, node.peers.at[from], now)
  {
    LearnKeepsLive(node.routes, ad.destinations, from, node.peers.at[from], now);
    hide Learn, VerifyAdvertisement, Only, NoneExpired;
  }

  /** The routes an advertisement leaves, and that it is remembered. */
  lemma AdvertisementHeard(node: Node, from: NeighborId, ad: Advertisement, now: nat, ups: seq<seq<bool>>)
    requires Counts(node, from, ad, now)
    ensures var after := ReceiveAdvertisement(node, from, ad, now, ups).0;
            && after.routes ==
               Learn(PurgeRoutingState(node, now).routes, ad.destinations, from, node.peers.at[from], now)
            && after.peers == node.peers && after.trust == node.trust
            && (from, ad) in after.seenAds.at && after.seenAds.at[(from, ad)] == now
  {
    hide Settled, Learn, VerifyAdvertisement, DeliverAllQueued, Purged, DemoteOverdue, Restrict, Learned,
        Q.QueueInv;
    var live := PurgeRoutingState(node, now);
    PurgedIsSettled(node, now);
    LearnedSettled(live, from, ad, now);
    AllFramed(Learned(live, from, ad, now).value, ad.destinations, now, ups);
  }

  /** It gives a route through its sender to every hint it lists. If that route was
      not validated before, or is bound to the sender's current session, it can be used
      at once, and lookup finds a hop; otherwise lookup does not choose it. */
  lemma AdvertisementGives(node: Node, from: NeighborId, ad: Advertisement, now: nat, ups: seq<seq<bool>>, h: Hint)
    requires Counts(node, from, ad, now) && h in ad.destinations && TableInv(node.routes)
    ensures var live, after := PurgeRoutingState(node, now), ReceiveAdvertisement(node, from, ad, now, ups).0;
            && Given(live.routes, after.routes, h, from, node.peers.at[from], now)
            && if StaysValid(live.routes, h, from, now) && !BoundTo(live.routes, h, from, node.peers.at[from])
               then NextHop(after, h) != Some(from) else NextHop(after, h).Some?
  {
    var live, after := PurgeRoutingState(node, now), ReceiveAdvertisement(node, from, ad, now, ups).0;
    AdvertisementHeard(node, from, ad, now, ups);
    LearnGives(live.routes, ad.destinations, from, node.peers.at[from], now, h);
    GivenCarries(live.routes, after.routes, h, from, node.peers, now);
    PurgedTable(node, now);
    LearnListed(live.routes, ad.destinations, from, node.peers.at[from], now);
    hide Learn, VerifyAdvertisement, ReceiveAdvertisement, Purged, DemoteOverdue, Restrict, Given, Lookup, TableInv,
        Carries, StaysValid, BoundTo;
    if Carries(after.routes, h, from, node.peers) {
      CarriedIsFound(after.routes, h, from, node.trust, node.peers);
    } else {
      OnlyCarriersChosen(after.routes, h, from, node.trust, node.peers);
    }
  }

  /** Every unexpired envelope waiting for an advertised hint goes to the next hop there
      is for it now and leaves the queue, when the transport accepts everything; what
      waits for other destinations stays. */
  lemma AdvertisementEmptiesQueue(node: Node, from: NeighborId, ad: Advertisement, now: nat, ups: seq<seq<bool>>,
          k: MessageId)
    requires Counts(node, from, ad, now) && Q.QueueInv(node.queue) && AcceptsEach(ad.destinations, ups)
    requires k in Q.Unexpired(node.queue, now)
    ensures var (after, effects) := ReceiveAdvertisement(node, from, ad, now, ups);
            var e := node.queue.at[k].envelope;
            var next := NextHop(after, e.header.destinationHint);
            if e.header.destinationHint in ad.destinations && next.Some?
            then k !in after.queue.at && Transmission(next.value, Relayed(e)) in effects.sent
            else k in after.queue.at && after.queue.at[k] == node.queue.at[k]
  {
    hide Settled, Learn, VerifyAdvertisement, DeliverAllQueued, Purged, DemoteOverdue, Restrict, Learned, Lookup,
        Q.QueueInv, AcceptsAll, ValidHeader;
    var live := PurgeRoutingState(node, now);
    PurgedIsSettled(node, now);
    LearnedSettled(live, from, ad, now);
    var learned := Learned(live, from, ad, now).value;
    AllFramed(learned, ad.destinations, now, ups);
    FrameSettles(learned, DeliverAllQueued(learned, ad.destinations, now, ups).0, now);
    AllWaitingGo(learned, ad.destinations, now, ups, k);
  }

  /** An advertisement changes more than a purge does only if it is signed by the
      advertiser it names, timely and well formed, and comes from a registered peer. */
  lemma OnlySignedCounts(node: Node, from: NeighborId, ad: Advertisement, now: nat, ups: seq<seq<bool>>)
    requires ReceiveAdvertisement(node, from, ad, now, ups) != (PurgeRoutingState(node, now), NOTHING)
    ensures ad.signature == AdSigned(ad.advertiser, ad.destinations, ad.timestamp) && from in node.peers.at
    ensures now - 300000 <= ad.timestamp * 1000 <= now + 30000
    ensures |ad.destinations| <= 256 && forall h :: h in ad.destinations ==> |h| == 8
  {
    hide Purged, DemoteOverdue, Restrict, SeenAfter, Learn, DeliverAllQueued;
  }

  // ----- The same advertisement again -----

  /** What was heard before changes nothing. */
  lemma HeardIsIgnored(node: Node, from: NeighborId, ad: Advertisement, now: nat, ups: seq<seq<bool>>)
    requires (from, ad) in node.seenAds.at
    ensures ReceiveAdvertisement(node, from, ad, now, ups) == (PurgeRoutingState(node, now), NOTHING)
  {
    hide Purged, DemoteOverdue, Restrict, VerifyAdvertisement;
  }

  lemma ReceiveKeepsSeen(node: Node, e: Envelope, from: Option<NeighborId>, now: nat, up: bool)
    ensures Receive(node, e, from, now, up).node.seenAds == node.seenAds
  {
    hide Purged, DemoteOverdue, Restrict, AckTimely, MarkValidated, ValidHeader, Lookup, Q.Store, ExpiredIn, AcksAfter;
  }

  /** Only advertisements and their purge change what was heard. */
  lemma OthersKeepSeen(node: Node, event: NodeEvent, now: nat)
    requires !event.Advertises? && !event.PurgesAds?
    ensures NodeStep(node, event, now).0.seenAds == node.seenAds
  {
    hide Purged, DemoteOverdue, Restrict, ValidHeader, Lookup, Q.Store, ExpiredIn, AcksAfter, Receive, CreateAck, Put;
    match event
    case Receives(e, from, up) => ReceiveKeepsSeen(node, e, from, now, up);
    case SendsAck(id, hint, acknowledged, up) =>
      var live := PurgeRoutingState(node, now);
      ReceiveKeepsSeen(live, CreateAck(id, hint, acknowledged, node.identity, now), None, now, up);
    case _ =>
  }

  lemma PutSeen(seen: SeenAds, key: (NeighborId, Advertisement), other: (NeighborId, Advertisement), now: int)
    requires key in seen.at && key != other && |seen.at| < MAX_SEEN_ROUTING_ADS
    ensures key in SeenAfter(seen, other, now).at && SeenAfter(seen, other, now).at[key] == seen.at[key]
    ensures |SeenAfter(seen, other, now).at| <= |seen.at| + 1
  {
    PutGrows(seen, other, now);
  }

  lemma AdvertisementKeepsSeen(node: Node, from: NeighborId, ad: Advertisement, now: nat, ups: seq<seq<bool>>,
          key: (NeighborId, Advertisement))
    requires key in node.seenAds.at && |node.seenAds.at| < MAX_SEEN_ROUTING_ADS
    ensures var after := ReceiveAdvertisement(node, from, ad, now, ups).0.seenAds;
            key in after.at && after.at[key] == node.seenAds.at[key] && |after.at| <= |node.seenAds.at| + 1
  {
    hide Settled, Learn, VerifyAdvertisement, DeliverAllQueued, Purged, DemoteOverdue, Restrict, SeenAfter,
        Q.QueueInv;
    var live := PurgeRoutingState(node, now);
    if Counts(live, from, ad, now) {
      PurgedIsSettled(node, now);
      LearnedSettled(live, from, ad, now);
      AllFramed(Learned(live, from, ad, now).value, ad.destinations, now, ups);
      PutSeen(node.seenAds, key, (from, ad), now);
    }
  }

  /** A purge of what was heard spares what is not too old. */
  predicate Spares(call: Timed, heardAt: int) {
    call.event.PurgesAds? ==> call.now - heardAt <= call.event.maxAgeMs
  }

  lemma StepKeepsSeen(node: Node, call: Timed, key: (NeighborId, Advertisement))
    requires key in node.seenAds.at && |node.seenAds.at| < MAX_SEEN_ROUTING_ADS && Spares(call, node.seenAds.at[key])
    ensures var after := NodeStep(node, call.event, call.now).0.seenAds;
            key in after.at && after.at[key] == node.seenAds.at[key] && |after.at| <= |node.seenAds.at| + 1
  {
    hide ReceiveAdvertisement;
    match call.event
    case Advertises(from, ad, ups) => AdvertisementKeepsSeen(node, from, ad, call.now, ups, key);
    case PurgesAds(maxAge) =>
      FewerSeen(node.seenAds, set k | k in node.seenAds.at && call.now - node.seenAds.at[k] <= maxAge);
    case _ => OthersKeepSeen(node, call.event, call.now);
  }

  lemma FewerSeen(seen: SeenAds, keys: set<(NeighborId, Advertisement)>)
    ensures |Restrict(seen, keys).at| <= |seen.at|
  {
    hide Only;
    FiniteSets.SmallerMap(Restrict(seen, keys).at, seen.at);
  }

  lemma {:induction false} StaysHeard(start: Node, calls: seq<Timed>, key: (NeighborId, Advertisement))
    requires key in start.seenAds.at && |start.seenAds.at| + |calls| <= MAX_SEEN_ROUTING_ADS
    requires forall i :: 0 <= i < |calls| ==> Spares(calls[i], start.seenAds.at[key])
    ensures var after := RunFrom(start, calls).0.seenAds;
            key in after.at && after.at[key] == start.seenAds.at[key] && |after.at| <= |start.seenAds.at| + |calls|
  {
    hide NodeStep;
    if calls != [] {
      StaysHeard(start, calls[..|calls| - 1], key);
      StepKeepsSeen(RunFrom(start, calls[..|calls| - 1]).0, calls[|calls| - 1], key);
    }
  }

  /** An advertisement that counted changes nothing when it is heard again, whatever
      happens in between, as long as the record has room and purges spare it. */
  lemma HeardOnce(node: Node, from: NeighborId, ad: Advertisement, now: nat, ups: seq<seq<bool>>, calls: seq<Timed>,
          later: nat, again: seq<seq<bool>>)
    requires Counts(node, from, ad, now)
    requires var heard := ReceiveAdvertisement(node, from, ad, now, ups).0;
             |heard.seenAds.at| + |calls| <= MAX_SEEN_ROUTING_ADS
    requires forall i :: 0 <= i < |calls| ==> Spares(calls[i], now)
    ensures var before := RunFrom(ReceiveAdvertisement(node, from, ad, now, ups).0, calls).0;
            ReceiveAdvertisement(before, from, ad, later, again) == (PurgeRoutingState(before, later), NOTHING)
  {
    hide ReceiveAdvertisement, RunFrom, PurgeRoutingState, Counts, Learn;
    AdvertisementHeard(node, from, ad, now, ups);
    var heard := ReceiveAdvertisement(node, from, ad, now, ups).0;
    StaysHeard(heard, calls, (from, ad));
    HeardIsIgnored(RunFrom(heard, calls).0, from, ad, later, again);
  }

  /** After a purge an advertisement counts again exactly if it is older than the age. */
  lemma ForgottenCountsAgain(node: Node, maxAgeMs: int, now: int, from: NeighborId, ad: Advertisement, later: nat)
    requires VerifyAdvertisement(ad, later) && from in node.peers.at
    ensures Counts(PurgeAds(node, maxAgeMs, now), from, ad, later) <==>
            (from, ad) !in node.seenAds.at || now - node.seenAds.at[(from, ad)] > maxAgeMs
  {
    hide Only, VerifyAdvertisement;
  }

  // ----- Order, and to whom -----

  /** What waits for a destination is listed in the order it was stored. */
  lemma {:induction false} OldestFirst(q: Q.Queue, hint: Hint, n: nat, i: nat, j: nat) returns (a: nat, b: nat)
    requires n <= |q.order| && i < j < |Q.ForDestinationAmong(q, hint, n)|
    ensures a < b < n && q.order[a] in q.at && q.order[b] in q.at
    ensures q.at[q.order[a]].envelope == Q.ForDestinationAmong(q, hint, n)[i]
    ensures q.at[q.order[b]].envelope == Q.ForDestinationAmong(q, hint, n)[j]
    decreases n
  {
    var before := Q.ForDestinationAmong(q, hint, n - 1);
    if j < |before| {
      a, b := OldestFirst(q, hint, n - 1, i, j);
    } else {
      ListedForDestination(q, hint, n - 1, before[i]);
      a :| 0 <= a < n - 1 && q.order[a] in q.at && q.at[q.order[a]].envelope == before[i];
      b := n - 1;
    }
  }

  /** All of a series is sent in its order when the transport accepts it. */
  lemma {:induction false} SentInOrder(node: Node, es: seq<Envelope>, next: NeighborId, now: int, ups: seq<bool>)
    requires forall i :: 0 <= i < |es| ==> Up(ups, i)
    ensures SendQueued(node, es, next, now, ups).1.sent ==
            seq(|es|, i requires 0 <= i < |es| => Transmission(next, Relayed(es[i])))
  {
    hide Forward, Q.Acknowledge;
    if es != [] { SentInOrder(node, es[..|es| - 1], next, now, ups); }
  }

  lemma QueuedToRegistered(node: Node, h: Hint, now: nat, ups: seq<bool>)
    ensures ToRegistered(node, DeliverQueued(node, h, now, ups).1.sent)
  {
    hide Only, Lookup, Q.QueueInv, ValidHeader, Q.Purged, ExpiredIn, PurgeRoutingState, Q.ForDestination, Framed,
        LeavesQueue, Taken;
    var live := PurgeRoutingState(node, now);
    PurgingKeepsPeers(node, now);
    if NextHop(live, h).Some? {
      var n, q := NextHop(live, h).value, Q.Purged(live.queue, now);
      HopIsRegistered(live, h, n);
      SendQueuedExactly(live.(queue := q), Q.ForDestination(q, h), n, now, ups);
    }
  }

  lemma {:induction false} AllToRegistered(node: Node, hints: seq<Hint>, now: nat, ups: seq<seq<bool>>)
    requires Settled(node, now)
    ensures ToRegistered(node, DeliverAllQueued(node, hints, now, ups).1.sent)
  {
    hide Settled, DeliverQueued, Q.QueueInv, Lookup;
    if hints != [] {
      var i := |hints| - 1;
      AllToRegistered(node, hints[..i], now, ups);
      AllFramed(node, hints[..i], now, ups);
      var before := DeliverAllQueued(node, hints[..i], now, ups).0;
      QueuedToRegistered(before, hints[i], now, if i < |ups| then ups[i] else []);
    }
  }

  /** Whatever a relay is called with, it sends to registered peers only. */
  lemma EveryHopIsRegistered(node: Node, event: NodeEvent, now: nat)
    ensures ToRegistered(node, NodeStep(node, event, now).1.sent)
  {
    hide PurgeRoutingState, Receive, Send, SendAck, DeliverAllQueued, Learned, Lookup, Settled, PurgeQueue, ExpiredIn,
        PurgeAds, PurgeRoutes, VerifyAdvertisement, Learn, Q.QueueInv;
    match event
    case Receives(_, _, _) => SentToRegistered(node, event, now);
    case Sends(_, _) => SentToRegistered(node, event, now);
    case SendsAck(_, _, _, _) => SentToRegistered(node, event, now);
    case Advertises(from, ad, ups) =>
      var live := PurgeRoutingState(node, now);
      PurgingKeepsPeers(node, now);
      PurgedIsSettled(node, now);
      if Counts(live, from, ad, now) {
        LearnedSettled(live, from, ad, now);
        AllToRegistered(Learned(live, from, ad, now).value, ad.destinations, now, ups);
      } else {
        NotLearned(live, from, ad, now);
      }
    case _ => QuietSteps(node, event, now);
  }

  lemma NotLearned(node: Node, from: NeighborId, ad: Advertisement, now: nat)
    requires !Counts(node, from, ad, now)
    ensures Learned(node, from, ad, now).None?
  {
    hide VerifyAdvertisement;
  }

  lemma QuietSteps(node: Node, event: NodeEvent, now: nat)
    requires !event.Receives? && !event.Sends? && !event.SendsAck? && !event.Advertises?
    ensures NodeStep(node, event, now).1.sent == []
  {
  }
}
