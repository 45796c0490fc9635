/** Where routes and their trust bindings come from. */
module RouteHistory {
  import opened Basics
  import opened OrderedMaps
  import opened Envelopes
  import opened RouteTable
  import opened Relay
  import opened RelayTrust

  // ----- Awaited acknowledgements name envelopes that were handed over -----

  ghost predicate AwaitedWereHanded(acks: PendingAcks, handed: seq<Handed>) {
    forall k :: k in acks.at ==> Handed(acks.at[k].neighborId, k, acks.at[k].destinationHint) in handed
  }

  /** A step only starts to await what it handed over. */
  ghost predicate AwaitsOnly(acks: PendingAcks, next: PendingAcks, sent: seq<Transmission>) {
    forall k :: k in next.at ==>
      || (k in acks.at && next.at[k] == acks.at[k])
      || Handed(next.at[k].neighborId, k, next.at[k].destinationHint) in DataIn(sent)
  }

  lemma AwaitsThen(a: PendingAcks, b: PendingAcks, c: PendingAcks, s: seq<Transmission>, t: seq<Transmission>)
    requires AwaitsOnly(a, b, s) && AwaitsOnly(b, c, t)
    ensures AwaitsOnly(a, c, s + t)
  {
    DataAppend(s, t);
  }

  // ----- Where routes and bindings come from -----

  /** The route to h through m is no newer than `node`, nor is its binding. */
  ghost predicate NothingNew(routes: Routes, next: Routes, h: Hint, m: NeighborId) {
    HasRoute(next, h, m) ==>
      && HasRoute(routes, h, m)
      && (RouteAt(next, h, m).binding.Some? ==> RouteAt(next, h, m).binding == RouteAt(routes, h, m).binding)
  }

  /** The event is an advertisement of h by m. */
  predicate Announces(event: NodeEvent, h: Hint, m: NeighborId) {
    event.Advertises? && event.neighbor == m && h in event.ad.destinations
  }

  /** The event is an acknowledgement, returned by m and signed by the destination
      the hint names, of an envelope for h that m was handed. */
  predicate Proves(event: NodeEvent, acks: PendingAcks, b: Binding, h: Hint, m: NeighborId) {
    && event.Receives? && event.from == Some(m)
    && VerifyAck(event.envelope).Some?
    && var ack := VerifyAck(event.envelope).value;
    && ack.signer == b.destination && HintOf(ack.signer) == h
    && b.destinationHint == h && b.neighborId == m
    && ack.acknowledged in acks.at
    && acks.at[ack.acknowledged].neighborId == m && acks.at[ack.acknowledged].destinationHint == h
  }

  /** What one step may do to the route to h through m. */
  ghost predicate Accountable(node: Node, event: NodeEvent, next: Node, h: Hint, m: NeighborId) {
    && (HasRoute(next.routes, h, m) ==> HasRoute(node.routes, h, m) || Announces(event, h, m))
    && (HasRoute(next.routes, h, m) && RouteAt(next.routes, h, m).binding.Some? ==>
          var b := RouteAt(next.routes, h, m).binding;
          || (HasRoute(node.routes, h, m) && RouteAt(node.routes, h, m).binding == b)
          || Proves(event, node.pendingAcks, b.value, h, m))
  }

  lemma NothingNewThen(a: Routes, b: Routes, c: Routes, h: Hint, m: NeighborId)
    requires NothingNew(a, b, h, m) && NothingNew(b, c, h, m)
    ensures NothingNew(a, c, h, m)
  {
  }

  lemma {:induction false} DemotingAddsNothing(routes: Routes, acks: PendingAcks, i: nat, now: int, h: Hint,
          m: NeighborId)
    requires i <= |acks.order|
    ensures NothingNew(routes, DemoteOverdue(routes, acks, i, now), h, m)
  {
    if i > 0 { DemotingAddsNothing(routes, acks, i - 1, now, h, m); }
  }

  lemma {:induction false} DemotingListed(routes: Routes, acks: PendingAcks, i: nat, now: int)
    requires TableInv(routes) && i <= |acks.order|
    ensures TableInv(DemoteOverdue(routes, acks, i, now))
  {
    hide TableInv, WithRoute, AckTimely;
    if i > 0 {
      DemotingListed(routes, acks, i - 1, now);
      var before, k := DemoteOverdue(routes, acks, i - 1, now), acks.order[i - 1];
      if k in acks.at && HasRoute(before, acks.at[k].destinationHint, acks.at[k].neighborId) {
        var p := acks.at[k];
        WithRouteListed(before, p.destinationHint, p.neighborId,
                        RouteAt(before, p.destinationHint, p.neighborId).(status := Probation, expiresAt := 0,
                            binding := None));
      }
    }
  }

  lemma PurgedTable(node: Node, now: int)
    requires TableInv(node.routes)
    ensures TableInv(PurgeRoutingState(node, now).routes)
  {
    hide TableInv, Purged, DemoteOverdue;
    DemotingListed(node.routes, node.pendingAcks, |node.pendingAcks.order|, now);
    PurgedListed(DemoteOverdue(node.routes, node.pendingAcks, |node.pendingAcks.order|, now), now);
  }

  lemma PurgingAddsNothing(node: Node, now: int, h: Hint, m: NeighborId)
    ensures NothingNew(node.routes, PurgeRoutingState(node, now).routes, h, m)
    ensures AwaitsOnly(node.pendingAcks, PurgeRoutingState(node, now).pendingAcks, [])
  {
    hide Only, Purged, DemoteOverdue;
    var demoted := DemoteOverdue(node.routes, node.pendingAcks, |node.pendingAcks.order|, now);
    DemotingAddsNothing(node.routes, node.pendingAcks, |node.pendingAcks.order|, now, h, m);
    PurgedRoute(demoted, now, h, m);
  }

  lemma DeletingAddsNothing(node: Node, now: int, h: Hint, m: NeighborId)
    ensures NothingNew(node.routes, PurgeRoutes(node, now).routes, h, m)
    ensures PurgeRoutes(node, now).pendingAcks == node.pendingAcks
  {
    PurgedRoute(node.routes, now, h, m);
    hide Purged;
  }

  lemma ForwardAwaits(node: Node, e: Envelope, next: NeighborId, now: int, up: bool)
    ensures AwaitsOnly(node.pendingAcks, Forward(node, e, next, now, up).pendingAcks,
                       if up then [Transmission(next, Relayed(e))] else [])
    ensures Forward(node, e, next, now, up).routes == node.routes
  {
    hide Only, DataIn;
    DataInOne(Transmission(next, Relayed(e)));
  }

  lemma ForwardOrKeepAwaits(node: Node, e: Envelope, next: Option<NeighborId>, from: NeighborId, now: nat, up: bool)
    ensures var s := ForwardOrKeep(node, e, next, from, now, up);
            && AwaitsOnly(node.pendingAcks, s.node.pendingAcks, s.effects.sent)
            && s.node.routes == node.routes
  {
    hide AwaitsOnly, DataIn, AcksAfter, ExpiredIn;
    NothingAwaited(node.pendingAcks, []);
    if next.Some? { ForwardAwaits(node, e, next.value, now, up); }
  }

  lemma NothingAwaited(acks: PendingAcks, sent: seq<Transmission>)
    ensures AwaitsOnly(acks, acks, sent)
  {
  }

  lemma AwaitsAfter(a: PendingAcks, b: PendingAcks, c: PendingAcks, t: seq<Transmission>)
    requires AwaitsOnly(a, b, []) && AwaitsOnly(b, c, t)
    ensures AwaitsOnly(a, c, t)
  {
    AwaitsThen(a, b, c, [], t);
    assert [] + t == t;
  }

  // ----- Receiving -----

  /** A settled acknowledgement proves the binding it leaves. */
  lemma CheckAckAccounts(node: Node, e: Envelope, from: NeighborId, now: int, up: bool, h: Hint, m: NeighborId)
    requires CheckAck(node, e, from, now).Ok?
    ensures var next := CheckAck(node, e, from, now).value;
            && AwaitsOnly(node.pendingAcks, next.pendingAcks, [])
            && Accountable(node, Receives(e, Some(from), up), next, h, m)
  {
    hide Only;
  }

  /** An earlier purge does not weaken what a step must account for. */
  lemma AccountableAfterPurge(node: Node, live: Node, event: NodeEvent, next: Node, h: Hint, m: NeighborId)
    requires NothingNew(node.routes, live.routes, h, m) && AwaitsOnly(node.pendingAcks, live.pendingAcks, [])
    requires Accountable(live, event, next, h, m)
    ensures Accountable(node, event, next, h, m)
  {
    assert DataIn([]) == [];
  }

  lemma Unchanged(node: Node, event: NodeEvent, next: Node, h: Hint, m: NeighborId)
    requires NothingNew(node.routes, next.routes, h, m)
    ensures Accountable(node, event, next, h, m)
  {
  }

  lemma RouteOnAwaits(node: Node, e: Envelope, from: Option<NeighborId>, now: nat, up: bool)
    ensures var s := RouteOn(node, e, from, now, up);
            && AwaitsOnly(node.pendingAcks, s.node.pendingAcks, s.effects.sent)
            && s.node.routes == node.routes
  {
    hide AwaitsOnly, ForwardOrKeep, Lookup;
    NothingAwaited(node.pendingAcks, []);
    ForwardOrKeepAwaits(node, e, NextHop(node, e.header.destinationHint), from.GetOr(Q.ORIGIN), now, up);
  }

  lemma ReceiveAccounts(node: Node, e: Envelope, from: Option<NeighborId>, now: nat, up: bool, h: Hint, m: NeighborId)
    ensures var s := Receive(node, e, from, now, up);
            && AwaitsOnly(node.pendingAcks, s.node.pendingAcks, s.effects.sent)
            && Accountable(node, Receives(e, from, up), s.node, h, m)
  {
    hide AwaitsOnly, NothingNew, CheckAck, RouteOn, PurgeRoutingState, ValidHeader, Proves;
    var live := PurgeRoutingState(node, now);
    var event := Receives(e, from, up);
    PurgingAddsNothing(node, now, h, m);
    NothingNewSelf(live.routes, h, m);
    Unchanged(live, event, live, h, m);
    if ValidHeader(e.header, now) && Unicast(e) {
      if e.header.packetType == ACK && from.Some? {
        var checked := CheckAck(live, e, from.value, now);
        if checked.Ok? {
          CheckAckAccounts(live, e, from.value, now, up, h, m);
          RouteOnAwaits(checked.value, e, from, now, up);
          var s := RouteOn(checked.value, e, from, now, up);
          AwaitsAfter(live.pendingAcks, checked.value.pendingAcks, s.node.pendingAcks, s.effects.sent);
          AwaitsAfter(node.pendingAcks, live.pendingAcks, s.node.pendingAcks, s.effects.sent);
        }
      } else {
        RouteOnAwaits(live, e, from, now, up);
        var s := RouteOn(live, e, from, now, up);
        AwaitsAfter(node.pendingAcks, live.pendingAcks, s.node.pendingAcks, s.effects.sent);
      }
    }
    AccountableAfterPurge(node, live, event, Receive(node, e, from, now, up).node, h, m);
  }

  lemma NothingNewSelf(routes: Routes, h: Hint, m: NeighborId)
    ensures NothingNew(routes, routes, h, m)
  {
  }

  // ----- Sending -----

  lemma SendAccounts(node: Node, e: Envelope, now: nat, up: bool, h: Hint, m: NeighborId)
    ensures var s := Send(node, e, now, up);
            && AwaitsOnly(node.pendingAcks, s.node.pendingAcks, s.effects.sent)
            && NothingNew(node.routes, s.node.routes, h, m)
  {
    hide AwaitsOnly, NothingNew, ForwardOrKeep, PurgeRoutingState, ValidHeader, Lookup;
    var live := PurgeRoutingState(node, now);
    PurgingAddsNothing(node, now, h, m);
    if ValidHeader(e.header, now) {
      var direct := DirectPeer(live.peers, e.header.destinationHint);
      var next := if direct.Some? then direct else NextHop(live, e.header.destinationHint);
      ForwardOrKeepAwaits(live, e, next, Q.ORIGIN, now, up);
      var s := ForwardOrKeep(live, e, next, Q.ORIGIN, now, up);
      AwaitsAfter(node.pendingAcks, live.pendingAcks, s.node.pendingAcks, s.effects.sent);
    }
  }

  lemma SendAckAccounts(node: Node, id: MessageId, hint: Hint, acknowledged: MessageId, now: nat, up: bool, h: Hint,
          m: NeighborId)
    ensures var s := SendAck(node, id, hint, acknowledged, now, up);
            && AwaitsOnly(node.pendingAcks, s.node.pendingAcks, s.effects.sent)
            && NothingNew(node.routes, s.node.routes, h, m)
  {
    hide AwaitsOnly, NothingNew, PurgeRoutingState, ValidHeader, Lookup, Receive, ExpiredIn;
    var live := PurgeRoutingState(node, now);
    PurgingAddsNothing(node, now, h, m);
    var s := SendAck(node, id, hint, acknowledged, now, up);
    if hint == HintOf(node.identity) {
      var ack := CreateAck(id, hint, acknowledged, node.identity, now);
      ReceiveAccounts(live, ack, None, now, up, h, m);
      NothingProved(live, Receives(ack, None, up), s.node, h, m);
      NothingNewThen(node.routes, live.routes, s.node.routes, h, m);
    } else {
      NothingAwaited(live.pendingAcks, s.effects.sent);
    }
    AwaitsAfter(node.pendingAcks, live.pendingAcks, s.node.pendingAcks, s.effects.sent);
  }

  lemma NothingProved(node: Node, event: NodeEvent, next: Node, h: Hint, m: NeighborId)
    requires Accountable(node, event, next, h, m) && event.Receives? && event.from == None
    ensures NothingNew(node.routes, next.routes, h, m)
  {
  }

  lemma {:induction false} SendQueuedAwaits(node: Node, envelopes: seq<Envelope>, next: NeighborId, now: int,
          ups: seq<bool>)
    ensures var (after, effects) := SendQueued(node, envelopes, next, now, ups);
            && AwaitsOnly(node.pendingAcks, after.pendingAcks, effects.sent)
            && after.routes == node.routes
  {
    hide AwaitsOnly, AcksAfter;
    NothingAwaited(node.pendingAcks, []);
    if envelopes != [] {
      var i := |envelopes| - 1;
      SendQueuedAwaits(node, envelopes[..i], next, now, ups);
      var (before, effects) := SendQueued(node, envelopes[..i], next, now, ups);
      ForwardAwaits(before, envelopes[i], next, now, Up(ups, i));
      var tried := Forward(before, envelopes[i], next, now, Up(ups, i));
      var sent := if Up(ups, i) then [Transmission(next, Relayed(envelopes[i]))] else [];
      AwaitsThen(node.pendingAcks, before.pendingAcks, tried.pendingAcks, effects.sent, sent);
      assert effects.sent + [] == effects.sent;
    }
  }

  lemma DeliverQueuedAccounts(node: Node, hint: Hint, now: nat, ups: seq<bool>, h: Hint, m: NeighborId)
    ensures var (after, effects) := DeliverQueued(node, hint, now, ups);
            && AwaitsOnly(node.pendingAcks, after.pendingAcks, effects.sent)
            && NothingNew(node.routes, after.routes, h, m)
  {
    hide AwaitsOnly, NothingNew, PurgeRoutingState, Lookup, SendQueued, ExpiredIn, Q.Purged;
    var live := PurgeRoutingState(node, now);
    PurgingAddsNothing(node, now, h, m);
    var next := NextHop(live, hint);
    if next.Some? {
      var purged := live.(queue := Q.Purged(live.queue, now));
      var envelopes := Q.ForDestination(purged.queue, hint);
      SendQueuedAwaits(purged, envelopes, next.value, now, ups);
      var (after, effects) := SendQueued(purged, envelopes, next.value, now, ups);
      AwaitsAfter(node.pendingAcks, live.pendingAcks, after.pendingAcks, effects.sent);
      assert [] + effects.sent == effects.sent;
    }
  }

  lemma {:induction false} DeliverAllAccounts(node: Node, hints: seq<Hint>, now: nat, ups: seq<seq<bool>>, h: Hint,
          m: NeighborId)
    ensures var (after, effects) := DeliverAllQueued(node, hints, now, ups);
            && AwaitsOnly(node.pendingAcks, after.pendingAcks, effects.sent)
            && NothingNew(node.routes, after.routes, h, m)
  {
    hide AwaitsOnly, NothingNew, DeliverQueued;
    NothingAwaited(node.pendingAcks, []);
    NothingNewSelf(node.routes, h, m);
    if hints != [] {
      var i := |hints| - 1;
      DeliverAllAccounts(node, hints[..i], now, ups, h, m);
      var (before, effects) := DeliverAllQueued(node, hints[..i], now, ups);
      DeliverQueuedAccounts(before, hints[i], now, if i < |ups| then ups[i] else [], h, m);
      var (after, more) := DeliverQueued(before, hints[i], now, if i < |ups| then ups[i] else []);
      AwaitsThen(node.pendingAcks, before.pendingAcks, after.pendingAcks, effects.sent, more.sent);
      NothingNewThen(node.routes, before.routes, after.routes, h, m);
    }
  }

  lemma LearningAccounts(node: Node, from: NeighborId, ad: Advertisement, now: nat, ups: seq<seq<bool>>, h: Hint,
          m: NeighborId)
    requires Learned(node, from, ad, now).Some?
    ensures Accountable(node, Advertises(from, ad, ups), Learned(node, from, ad, now).value, h, m)
  {
    hide SeenAfter, VerifyAdvertisement, LearnHint;
    var peer := node.peers.at[from];
    if from != m || h !in ad.destinations { LearnElsewhere(node.routes, ad.destinations, from, peer, now, h, m); }
    var learned := Learn(node.routes, ad.destinations, from, peer, now);
    if HasRoute(learned, h, m) && RouteAt(learned, h, m).binding.Some? {
      LearnBindsNothing(node.routes, ad.destinations, from, peer, now, h, m);
    }
  }

  lemma AccountableThenNothing(node: Node, event: NodeEvent, mid: Node, next: Node, h: Hint, m: NeighborId)
    requires Accountable(node, event, mid, h, m) && NothingNew(mid.routes, next.routes, h, m)
    ensures Accountable(node, event, next, h, m)
  {
  }

  lemma AdvertisementAccounts(node: Node, from: NeighborId, ad: Advertisement, now: nat, ups: seq<seq<bool>>,
          h: Hint, m: NeighborId)
    ensures var (after, effects) := ReceiveAdvertisement(node, from, ad, now, ups);
            && AwaitsOnly(node.pendingAcks, after.pendingAcks, effects.sent)
            && Accountable(node, Advertises(from, ad, ups), after, h, m)
  {
    hide AwaitsOnly, NothingNew, Accountable, PurgeRoutingState, DeliverAllQueued, Learn, VerifyAdvertisement,
        SeenAfter;
    var event := Advertises(from, ad, ups);
    var live := PurgeRoutingState(node, now);
    PurgingAddsNothing(node, now, h, m);
    NothingNewSelf(live.routes, h, m);
    Unchanged(live, event, live, h, m);
    AccountableAfterPurge(node, live, event, live, h, m);
    var learned := Learned(live, from, ad, now);
    if learned.Some? {
      LearningAccounts(live, from, ad, now, ups, h, m);
      DeliverAllAccounts(learned.value, ad.destinations, now, ups, h, m);
      var (after, effects) := DeliverAllQueued(learned.value, ad.destinations, now, ups);
      AccountableThenNothing(live, event, learned.value, after, h, m);
      AccountableAfterPurge(node, live, event, after, h, m);
      AwaitsAfter(node.pendingAcks, live.pendingAcks, after.pendingAcks, effects.sent);
    }
  }

  lemma SmallSteps(node: Node, event: NodeEvent, now: nat)
    requires event.Registers? || event.Unregisters? || event.ReadsQueue? || event.PurgesAds?
    ensures var (next, effects) := NodeStep(node, event, now);
            next.routes == node.routes && next.pendingAcks == node.pendingAcks && effects.sent == []
  {
  }

  /** Any step: routes come from advertisements, bindings from acknowledgements, and
      what is awaited was handed over. */
  lemma StepAccounts(node: Node, event: NodeEvent, now: nat, h: Hint, m: NeighborId)
    ensures var (next, effects) := NodeStep(node, event, now);
            && AwaitsOnly(node.pendingAcks, next.pendingAcks, effects.sent)
            && Accountable(node, event, next, h, m)
  {
    hide AwaitsOnly, NothingNew, Accountable, Receive, Send, SendAck, ReceiveAdvertisement, PurgeRoutingState,
        ExpiredIn, PurgeQueue, PurgeRoutes, PurgeAds;
    NothingAwaited(node.pendingAcks, []);
    NothingNewSelf(node.routes, h, m);
    Unchanged(node, event, node, h, m);
    var next := NodeStep(node, event, now).0;
    match event
    case Receives(e, from, up) => ReceiveAccounts(node, e, from, now, up, h, m);
    case Sends(e, up) =>
      SendAccounts(node, e, now, up, h, m);
      Unchanged(node, event, next, h, m);
    case SendsAck(id, hint, acknowledged, up) =>
      SendAckAccounts(node, id, hint, acknowledged, now, up, h, m);
      Unchanged(node, event, next, h, m);
    case Advertises(from, ad, ups) => AdvertisementAccounts(node, from, ad, now, ups, h, m);
    case PurgesRouting =>
      PurgingAddsNothing(node, now, h, m);
      Unchanged(node, event, next, h, m);
    case PurgesRoutes =>
      DeletingAddsNothing(node, now, h, m);
      Unchanged(node, event, next, h, m);
    case _ =>
      SmallSteps(node, event, now);
      Unchanged(node, event, next, h, m);
  }

  // ----- Runs -----

  /** Call i of the run was an acknowledgement, returned by m and signed by the
      destination the hint names, of an envelope for h handed to m before it. */
  ghost predicate EarnedAt(identity: nat, calls: seq<Timed>, i: nat, b: Binding, h: Hint, m: NeighborId)
    requires i < |calls|
  {
    var event := calls[i].event;
    && event.Receives? && event.from == Some(m)
    && VerifyAck(event.envelope).Some?
    && var ack := VerifyAck(event.envelope).value;
    && ack.signer == b.destination && HintOf(ack.signer) == h
    && b.destinationHint == h && b.neighborId == m
    && Handed(m, ack.acknowledged, h) in DataIn(Run(identity, calls[..i]).1)
  }

  ghost predicate Earned(identity: nat, calls: seq<Timed>, b: Binding, h: Hint, m: NeighborId) {
    exists i :: 0 <= i < |calls| && EarnedAt(identity, calls, i, b, h, m)
  }

  lemma EarnedLater(identity: nat, calls: seq<Timed>, last: Timed, b: Binding, h: Hint, m: NeighborId)
    requires Earned(identity, calls, b, h, m)
    ensures Earned(identity, calls + [last], b, h, m)
  {
    hide Run;
    var i :| 0 <= i < |calls| && EarnedAt(identity, calls, i, b, h, m);
    assert (calls + [last])[..i] == calls[..i];
    assert EarnedAt(identity, calls + [last], i, b, h, m);
  }

  lemma EarnedNow(identity: nat, calls: seq<Timed>, last: Timed, b: Binding, h: Hint, m: NeighborId)
    requires var (node, sent) := Run(identity, calls);
             AwaitedWereHanded(node.pendingAcks, DataIn(sent)) && Proves(last.event, node.pendingAcks, b, h, m)
    ensures Earned(identity, calls + [last], b, h, m)
  {
    hide Run;
    assert (calls + [last])[..|calls|] == calls;
    assert EarnedAt(identity, calls + [last], |calls|, b, h, m);
  }

  lemma AwaitedLater(a: PendingAcks, b: PendingAcks, sent: seq<Transmission>, more: seq<Transmission>)
    requires AwaitedWereHanded(a, DataIn(sent)) && AwaitsOnly(a, b, more)
    ensures AwaitedWereHanded(b, DataIn(sent + more))
  {
    DataAppend(sent, more);
  }

  lemma {:induction false} AwaitedThroughout(identity: nat, calls: seq<Timed>)
    ensures var (node, sent) := Run(identity, calls); AwaitedWereHanded(node.pendingAcks, DataIn(sent))
  {
    hide NodeStep, AwaitsOnly, DataIn;
    if calls != [] {
      var last := calls[|calls| - 1];
      AwaitedThroughout(identity, calls[..|calls| - 1]);
      var (before, sent) := Run(identity, calls[..|calls| - 1]);
      StepAccounts(before, last.event, last.now, [], "");
      AwaitedLater(before.pendingAcks, NodeStep(before, last.event, last.now).0.pendingAcks, sent,
          NodeStep(before, last.event, last.now).1.sent);
    }
  }

  /** Every trust binding a node holds was earned by an acknowledgement from the
      destination itself, returned by the neighbor that was handed the envelope. */
  lemma {:induction false} BindingsAreEarned(identity: nat, calls: seq<Timed>, h: Hint, m: NeighborId)
    requires var routes := Run(identity, calls).0.routes; HasRoute(routes, h, m) && RouteAt(routes, h, m).binding.Some?
    ensures Earned(identity, calls, RouteAt(Run(identity, calls).0.routes, h, m).binding.value, h, m)
  {
    hide NodeStep, Proves, Earned, DataIn, AwaitedWereHanded;
    if calls != [] {
      var before, last := calls[..|calls| - 1], calls[|calls| - 1];
      var node := Run(identity, before).0;
      var b := RouteAt(Run(identity, calls).0.routes, h, m).binding;
      StepAccounts(node, last.event, last.now, h, m);
      AwaitedThroughout(identity, before);
      assert before + [last] == calls;
      if HasRoute(node.routes, h, m) && RouteAt(node.routes, h, m).binding == b {
        BindingsAreEarned(identity, before, h, m);
        EarnedLater(identity, before, last, b.value, h, m);
      } else {
        EarnedNow(identity, before, last, b.value, h, m);
      }
    }
  }

  lemma ChosenHasRoute(node: Node, h: Hint, m: NeighborId)
    requires NextHop(node, h) == Some(m)
    ensures HasRoute(node.routes, h, m)
  {
    hide IsFirstBest, NoneUsable, Best;
    LookupExact(node.routes, h, node.trust, node.peers, m);
    var c := CandidatesFor(node.routes, h);
    var status := if IsFirstBest(c, m, h, Validated, node.trust, node.peers) then Validated else Probation;
    FirstBestIsKnown(c, m, h, status, node.trust, node.peers);
  }

  lemma FirstBestIsKnown(c: Candidates, m: NeighborId, h: Hint, status: Status, trust: Trust, peers: Peers)
    requires IsFirstBest(c, m, h, status, trust, peers)
    ensures m in c.at
  {
  }

  /** Without an advertisement from m for h, no run creates a route to h through m,
      so lookup never chooses m for it. */
  lemma {:induction false} RoutesNeedAdvertisements(start: Node, calls: seq<Timed>, h: Hint, m: NeighborId)
    requires !HasRoute(start.routes, h, m)
    requires forall i :: 0 <= i < |calls| ==> !Announces(calls[i].event, h, m)
    ensures !HasRoute(RunFrom(start, calls).0.routes, h, m)
    ensures NextHop(RunFrom(start, calls).0, h) != Some(m)
  {
    hide NodeStep, Lookup;
    if calls != [] {
      var before, last := calls[..|calls| - 1], calls[|calls| - 1];
      RoutesNeedAdvertisements(start, before, h, m);
      StepAccounts(RunFrom(start, before).0, last.event, last.now, h, m);
    }
    if NextHop(RunFrom(start, calls).0, h) == Some(m) { ChosenHasRoute(RunFrom(start, calls).0, h, m); }
  }

  // ----- Acknowledgement timeouts -----

  lemma {:induction false} OverdueDemoted(routes: Routes, acks: PendingAcks, i: nat, j: nat, now: int)
    requires j < i <= |acks.order| && acks.order[j] in acks.at && !AckTimely(acks.at[acks.order[j]], now)
    ensures var p := acks.at[acks.order[j]];
            var after := DemoteOverdue(routes, acks, i, now);
            HasRoute(after, p.destinationHint, p.neighborId) ==>
                RouteAt(after, p.destinationHint, p.neighborId).expiresAt == 0
    decreases i
  {
    if j < i - 1 { OverdueDemoted(routes, acks, i - 1, j, now); }
  }

  /** A purge of the routing state forgets the route an overdue acknowledgement was
      sent through. */
  lemma OverdueForgotten(node: Node, id: MessageId, now: nat)
    requires Listed(node.pendingAcks) && id in node.pendingAcks.at && !AckTimely(node.pendingAcks.at[id], now)
    ensures var p := node.pendingAcks.at[id];
            !HasRoute(PurgeRoutingState(node, now).routes, p.destinationHint, p.neighborId)
  {
    hide Purged, AckTimely;
    var acks := node.pendingAcks;
    var j :| 0 <= j < |acks.order| && acks.order[j] == id;
    OverdueDemoted(node.routes, acks, |acks.order|, j, now);
    PurgedRoute(DemoteOverdue(node.routes, acks, |acks.order|, now), now, acks.at[id].destinationHint,
        acks.at[id].neighborId);
  }

  lemma {:induction false} NothingOverdue(routes: Routes, acks: PendingAcks, i: nat, now: int)
    requires i <= |acks.order| && forall k :: k in acks.at ==> AckTimely(acks.at[k], now)
    ensures DemoteOverdue(routes, acks, i, now) == routes
  {
    if i > 0 { NothingOverdue(routes, acks, i - 1, now); }
  }

  lemma PurgedTwice(routes: Routes, now: int)
    ensures Purged(Purged(routes, now), now) == Purged(routes, now)
  {
    hide Restrict;
    var once := Purged(routes, now);
    forall h | h in once ensures LiveCandidates(once[h], now) == LiveCandidates(routes[h], now)
        && PurgedCandidates(once[h], now) == once[h] {
      CandidatesPurgedTwice(routes[h], now);
    }
  }

  lemma CandidatesPurgedTwice(c: Candidates, now: int)
    ensures LiveCandidates(PurgedCandidates(c, now), now) == LiveCandidates(c, now)
    ensures PurgedCandidates(PurgedCandidates(c, now), now) == PurgedCandidates(c, now)
  {
    hide Only;
    var live := LiveCandidates(c, now);
    RestrictTwice(c, live, live);
    assert live * live == live;
    assert LiveCandidates(PurgedCandidates(c, now), now) == LiveCandidates(c, now);
  }

  /** Purging the routing state twice at one instant is purging it once. */
  lemma PurgeRoutingTwice(node: Node, now: int)
    ensures PurgeRoutingState(PurgeRoutingState(node, now), now) == PurgeRoutingState(node, now)
  {
    hide Only, Purged, AckTimely;
    var once := PurgeRoutingState(node, now);
    var timely := TimelyAcks(node.pendingAcks, now);
    NothingOverdue(once.routes, once.pendingAcks, |once.pendingAcks.order|, now);
    PurgedTwice(DemoteOverdue(node.routes, node.pendingAcks, |node.pendingAcks.order|, now), now);
    assert TimelyAcks(once.pendingAcks, now) == timely;
    RestrictTwice(node.pendingAcks, timely, timely);
    assert timely * timely == timely;
  }

  /** The handlers that begin by purging the routing state. */
  predicate PurgesFirst(event: NodeEvent) {
    event.Receives? || event.Sends? || event.SendsAck? || event.Advertises? || event.PurgesRouting?
  }

  lemma PurgedFirst(node: Node, event: NodeEvent, now: nat)
    requires PurgesFirst(event)
    ensures NodeStep(PurgeRoutingState(node, now), event, now) == NodeStep(node, event, now)
  {
    hide PurgeRoutingState, CheckAck, RouteOn, ValidHeader, ForwardOrKeep, Lookup, ExpiredIn, DeliverAllQueued,
        Learned, DirectPeer;
    PurgeRoutingTwice(node, now);
    SameIdentity(node, now);
  }

  lemma SameIdentity(node: Node, now: int)
    ensures PurgeRoutingState(node, now).identity == node.identity
  {
  }

  /** Once a handler runs after the acknowledgement timeout of an envelope handed to
      m for h, lookup does not choose m for h until m advertises h again. */
  lemma TimedOutIsNotChosen(identity: nat, before: seq<Timed>, id: MessageId, calls: seq<Timed>)
    requires var acks := Run(identity, before).0.pendingAcks;
             && id in acks.at && calls != []
             && PurgesFirst(calls[0].event) && !AckTimely(acks.at[id], calls[0].now)
             && (forall i :: 0 <= i < |calls| ==>
                 !Announces(calls[i].event, acks.at[id].destinationHint, acks.at[id].neighborId))
    ensures var p := Run(identity, before).0.pendingAcks.at[id];
            NextHop(RunFrom(Run(identity, before).0, calls).0, p.destinationHint) != Some(p.neighborId)
  {
    hide Run, NodeStep, AckTimely, Lookup, PurgeRoutingState, Listed;
    var node, first := Run(identity, before).0, calls[0];
    var p := node.pendingAcks.at[id];
    TrustIsEarned(identity, before, p.neighborId);
    OverdueForgotten(node, id, first.now);
    var live := PurgeRoutingState(node, first.now);
    PurgedFirst(node, first.event, first.now);
    FirstCall(node, live, calls);
    RoutesNeedAdvertisements(live, calls, p.destinationHint, p.neighborId);
  }

  /** Two nodes that agree on the first call's result agree on the whole run. */
  lemma {:induction false} FirstCall(a: Node, b: Node, calls: seq<Timed>)
    requires calls != [] && NodeStep(a, calls[0].event, calls[0].now) == NodeStep(b, calls[0].event, calls[0].now)
    ensures RunFrom(a, calls) == RunFrom(b, calls)
  {
    hide NodeStep;
    if |calls| > 1 {
      FirstCall(a, b, calls[..|calls| - 1]);
    } else {
      assert calls[..0] == [];
    }
  }
}
