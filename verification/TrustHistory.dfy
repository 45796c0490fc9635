/** What trust in a neighbor counts, and what an acknowledgement gives besides. */
module TrustHistory {
  import opened Basics
  import opened OrderedMaps
  import opened Envelopes
  import opened RouteTable
  import opened Relay
  import opened RelayTrust
  import opened RouteHistory
  import opened RelayForwarding
  import opened RouteLearning
  import Q = ForwardQueue

  /** The call is a valid acknowledgement from n, a registered peer, of a message that
      is awaited from n and not overdue, signed by the destination it was for. */
  predicate Answers(node: Node, call: Timed, n: NeighborId) {
    && call.event.Receives? && call.event.from == Some(n) && n in node.peers.at
    && ValidHeader(call.event.envelope.header, call.now)
    && VerifyAck(call.event.envelope).Some?
    && var ack := VerifyAck(call.event.envelope).value;
    && ack.acknowledged in node.pendingAcks.at
    && var p := node.pendingAcks.at[ack.acknowledged];
    && p.neighborId == n && p.destinationHint == HintOf(ack.signer)
    && call.now - p.sentAt < 30000
  }

  /** How many calls of a run were such acknowledgements. */
  function Answered(start: Node, calls: seq<Timed>, n: NeighborId): nat {
    if calls == [] then 0
    else
      var before := calls[..|calls| - 1];
      Answered(start, before, n) + if Answers(RunFrom(start, before).0, calls[|calls| - 1], n) then 1 else 0
  }

  // ----- One call -----

  lemma SettleTrusts(node: Node, p: PendingAck, ack: VerifiedAck, now: int, n: NeighborId)
    requires p.neighborId in node.peers.at
    ensures Score(Settle(node, p, ack, now).trust, n) == Score(node.trust, n) + (if p.neighborId == n then 1 else 0)
  {
  }

  lemma RouteOnKeepsTrust(node: Node, e: Envelope, from: Option<NeighborId>, now: nat, up: bool)
    ensures var next := RouteOn(node, e, from, now, up).node; next.trust == node.trust && next.routes == node.routes
  {
    hide Lookup, Q.Store, ExpiredIn, AcksAfter;
  }

  lemma ReceiveTrusts(node: Node, e: Envelope, from: Option<NeighborId>, now: nat, up: bool, n: NeighborId)
    ensures Score(Receive(node, e, from, now, up).node.trust, n) ==
            Score(node.trust, n) + (if Answers(node, Timed(Receives(e, from, up), now), n) then 1 else 0)
  {
    hide Purged, DemoteOverdue, Only, ValidHeader, RouteOn, MarkValidated, Score;
    var live := PurgeRoutingState(node, now);
    RouteOnKeepsTrust(live, e, from, now, up);
    if from.Some? {
      var checked := CheckAck(live, e, from.value, now);
      if checked.Ok? { RouteOnKeepsTrust(checked.value, e, from, now, up); }
      if VerifyAck(e).Some? && VerifyAck(e).value.acknowledged in live.pendingAcks.at {
        var p := live.pendingAcks.at[VerifyAck(e).value.acknowledged];
        if p.neighborId in live.peers.at { SettleTrusts(live, p, VerifyAck(e).value, now, n); }
      }
    }
  }

  /** Nothing but the answer itself changes trust. */
  lemma OthersKeepTrust(node: Node, event: NodeEvent, now: nat)
    requires !event.Receives?
    ensures NodeStep(node, event, now).0.trust == node.trust
  {
    hide Purged, DemoteOverdue, Restrict, ValidHeader, Lookup, Q.Store, ExpiredIn, AcksAfter, ReceiveAdvertisement,
        Learn, VerifyAdvertisement, Receive, CreateAck;
    match event
    case SendsAck(id, hint, acknowledged, up) =>
      OwnKeepsTrust(PurgeRoutingState(node, now), CreateAck(id, hint, acknowledged, node.identity, now), now, up);
    case Advertises(from, ad, ups) =>
      if Counts(node, from, ad, now) {
        AdvertisementHeard(node, from, ad, now, ups);
      } else {
        Ignored(node, from, ad, now, ups);
      }
    case _ =>
  }

  lemma OwnKeepsTrust(node: Node, e: Envelope, now: nat, up: bool)
    ensures Receive(node, e, None, now, up).node.trust == node.trust
  {
    hide Purged, DemoteOverdue, Restrict, ValidHeader, RouteOn;
    RouteOnKeepsTrust(PurgeRoutingState(node, now), e, None, now, up);
  }

  lemma Ignored(node: Node, from: NeighborId, ad: Advertisement, now: nat, ups: seq<seq<bool>>)
    requires !Counts(node, from, ad, now)
    ensures ReceiveAdvertisement(node, from, ad, now, ups) == (PurgeRoutingState(node, now), NOTHING)
  {
    hide Purged, DemoteOverdue, Restrict, VerifyAdvertisement, SeenAfter, Learn;
  }

  lemma StepTrusts(node: Node, call: Timed, n: NeighborId)
    ensures Score(NodeStep(node, call.event, call.now).0.trust, n) ==
            Score(node.trust, n) + (if Answers(node, call, n) then 1 else 0)
  {
    hide Receive, Send, SendAck, ReceiveAdvertisement, PurgeRoutingState, PurgeQueue, PurgeAds, PurgeRoutes;
    match call.event
    case Receives(e, from, up) => ReceiveTrusts(node, e, from, call.now, up, n);
    case _ => OthersKeepTrust(node, call.event, call.now);
  }

  // ----- Runs -----

  /** In every run, trust in a neighbor is the number of its answers. */
  lemma {:induction false} TrustCountsAnswers(identity: nat, calls: seq<Timed>, n: NeighborId)
    ensures Score(Run(identity, calls).0.trust, n) == Answered(NewNode(identity), calls, n)
  {
    hide NodeStep, Answers;
    if calls != [] {
      TrustCountsAnswers(identity, calls[..|calls| - 1], n);
      StepTrusts(RunFrom(NewNode(identity), calls[..|calls| - 1]).0, calls[|calls| - 1], n);
    }
  }

  /** Data handed to n is awaited, so that an acknowledgement from n that its
      destination signed counts as an answer for thirty seconds. */
  lemma HandedDataIsAnswered(node: Node, e: Envelope, n: NeighborId, now: int, s: Step, ack: Envelope, up: bool,
          later: nat)
    requires SentTo(node, e, n, now, s) && e.header.packetType == DATA
    requires n in s.node.peers.at && ValidHeader(ack.header, later) && later - now < 30000
    requires VerifyAck(ack).Some? && VerifyAck(ack).value.acknowledged == e.header.messageId
             && HintOf(VerifyAck(ack).value.signer) == e.header.destinationHint
    ensures Answers(s.node, Timed(Receives(ack, Some(n), up), later), n)
  {
  }

  // ----- What an answer gives -----

  /** The route an answer vouches for. */
  function Vouched(node: Node, call: Timed, n: NeighborId): Route
    requires Answers(node, call, n)
  {
    var ack := VerifyAck(call.event.envelope).value;
    var hint, peer := node.pendingAcks.at[ack.acknowledged].destinationHint, node.peers.at[n];
    Route(Validated, call.now, call.now + 300000,
          Some(Binding(ack.signer, hint, peer.identity, n, peer.establishedAt, call.now)))
  }

  /** The destination an answer is about. */
  function AnsweredHint(node: Node, call: Timed, n: NeighborId): Hint
    requires Answers(node, call, n)
  {
    node.pendingAcks.at[VerifyAck(call.event.envelope).value.acknowledged].destinationHint
  }

  lemma AnswerSettles(node: Node, call: Timed, n: NeighborId)
    requires Answers(node, call, n)
    ensures var live, next := PurgeRoutingState(node, call.now), NodeStep(node, call.event, call.now).0;
            var hint := AnsweredHint(node, call, n);
            && VerifyAck(call.event.envelope).value.acknowledged !in next.pendingAcks.at
            && next.peers == node.peers && next.trust == node.trust[n := Score(node.trust, n) + 1]
            && next.routes == (if HasRoute(live.routes, hint, n)
                               then WithRoute(live.routes, hint, n, Vouched(node, call, n)) else live.routes)
  {
    hide Purged, DemoteOverdue, Only, ValidHeader, RouteOn, Score;
    var live, e := PurgeRoutingState(node, call.now), call.event.envelope;
    var checked := CheckAck(live, e, n, call.now);
    assert checked.Ok?;
    RouteOnKeepsTrust(checked.value, e, Some(n), call.now, call.event.up);
    RouteOnKeepsRest(checked.value, e, Some(n), call.now, call.event.up);
  }

  lemma RouteOnKeepsRest(node: Node, e: Envelope, from: Option<NeighborId>, now: nat, up: bool)
    requires e.header.packetType == ACK
    ensures var next := RouteOn(node, e, from, now, up).node;
            next.peers == node.peers && next.pendingAcks == node.pendingAcks
  {
    hide Lookup, Q.Store, ExpiredIn;
  }

  /** After an answer the neighbor's live route to that destination is validated for
      five minutes and bound to the destination's key and the current session, the
      message is awaited no longer, and lookup returns a neighbor trusted at least as
      much; without a live route none is made. */
  lemma AnswerValidates(node: Node, call: Timed, n: NeighborId)
    requires Answers(node, call, n) && TableInv(node.routes)
    ensures var live, next := PurgeRoutingState(node, call.now), NodeStep(node, call.event, call.now).0;
            var hint := AnsweredHint(node, call, n);
            && VerifyAck(call.event.envelope).value.acknowledged !in next.pendingAcks.at
            && (HasRoute(next.routes, hint, n) <==> HasRoute(live.routes, hint, n))
            && (HasRoute(next.routes, hint, n) ==>
                  && RouteAt(next.routes, hint, n) == Vouched(node, call, n)
                  && NextHop(next, hint).Some?
                  && Score(next.trust, NextHop(next, hint).value) >= Score(next.trust, n) == Score(node.trust, n) + 1)
  {
    var live, next := PurgeRoutingState(node, call.now), NodeStep(node, call.event, call.now).0;
    var hint := AnsweredHint(node, call, n);
    AnswerSettles(node, call, n);
    hide NodeStep, PurgeRoutingState, Lookup, TableInv, Answers, Vouched, AnsweredHint, VerifyAck;
    if HasRoute(live.routes, hint, n) {
      VouchedIsUsable(live.routes, node, call, n);
      PurgedTable(node, call.now);
      WithRouteListed(live.routes, hint, n, Vouched(node, call, n));
      BestIsTrusted(next.routes, hint, n, next.trust, next.peers);
    }
  }

  lemma VouchedIsUsable(routes: Routes, node: Node, call: Timed, n: NeighborId)
    requires Answers(node, call, n)
    ensures var hint := AnsweredHint(node, call, n);
            var next := WithRoute(routes, hint, n, Vouched(node, call, n));
            && HasRoute(next, hint, n) && RouteAt(next, hint, n) == Vouched(node, call, n)
            && Usable(CandidatesFor(next, hint), hint, n, Validated, node.peers)
  {
    hide ValidHeader, VerifyAck;
  }

  /** Where a validated route can be used, lookup returns a neighbor at least as
      trusted. */
  lemma BestIsTrusted(routes: Routes, hint: Hint, n: NeighborId, trust: Trust, peers: Peers)
    requires TableInv(routes) && Usable(CandidatesFor(routes, hint), hint, n, Validated, peers)
    ensures Lookup(routes, hint, trust, peers).Some?
    ensures Score(trust, Lookup(routes, hint, trust, peers).value) >= Score(trust, n)
  {
    var c := CandidatesFor(routes, hint);
    var i := BestFound(c, |c.order|, hint, Validated, trust, peers);
    assert Listed(c) && n in c.order;
    var j :| 0 <= j < |c.order| && c.order[j] == n;
  }

  /** An answer is what the destination itself signed about this very message: whatever
      it signed is in `signed`, since nobody else can sign for it. */
  lemma AnswersAreSigned(node: Node, call: Timed, n: NeighborId, destination: nat, signed: set<AckStatement>)
    requires Answers(node, call, n) && VerifyAck(call.event.envelope).value.signer == destination
    requires var e := call.event.envelope;
             e.sealedPayload.AckPayload? ==>
               forall s :: e.sealedPayload.signature == AckSigned(destination, s) ==> s in signed
    ensures HintOf(destination) == AnsweredHint(node, call, n)
    ensures var id := VerifyAck(call.event.envelope).value.acknowledged;
            id in node.pendingAcks.at && AckStatement(HintOf(destination), id, destination) in signed
  {
    hide ValidHeader;
  }
}
