/** An envelope that meets routes all the way arrives. */
module MeshDelivery {
  import opened Basics
  import opened OrderedMaps
  import opened Envelopes
  import opened RouteTable
  import opened Relay
  import opened RelayDelivery
  import opened RelayForwarding
  import opened MeshAccounting
  import opened MeshNetwork
  import Q = ForwardQueue

  /** The envelope after m hops. */
  function After(e: Envelope, m: nat): Envelope {
    e.(header := e.header.(ttl := e.header.ttl - m))
  }

  /** A way through the network: from the relay that sends to the one the hint names,
      with hops enough. */
  predicate Way(identities: map<NeighborId, nat>, path: seq<NeighborId>, e: Envelope) {
    && |path| >= 2 && e.header.ttl >= |path|
    && Unicast(e) && e.header.packetType != ACK
    && (forall m :: 0 <= m < |path| ==> path[m] in identities)
    && (forall m :: 0 <= m < |path| - 1 ==> HintOf(identities[path[m]]) != e.header.destinationHint)
    && HintOf(identities[path[|path| - 1]]) == e.header.destinationHint
  }

  /** The first relay sends the envelope to the second. */
  predicate SetsOut(w: World, event: NetEvent, path: seq<NeighborId>, e: Envelope)
    requires |path| >= 2
  {
    && event.Calls? && event.node == path[0] && event.event == Sends(e, true) && path[0] in w.nodes
    && ValidHeader(e.header, event.now)
    && var live := Live(w.nodes[path[0]], event.now);
    var direct := DirectPeer(live.peers, e.header.destinationHint);
    (if direct.Some? then direct else NextHop(live, e.header.destinationHint)) == Some(path[1])
  }

  /** The event does not lose the envelope, and if the envelope arrives it is still
      valid, and the relay has the next one of the path as its next hop and is not
      refused by its transport. */
  predicate Helps(w: World, event: NetEvent, path: seq<NeighborId>, e: Envelope) {
    match event
    case Lost(i) => i < |w.flight| ==> w.flight[i].envelope.header.messageId != e.header.messageId
    case Arrives(i, now, up) =>
      i < |w.flight| && w.flight[i].envelope.header.messageId == e.header.messageId ==>
        var frame := w.flight[i];
        var m := e.header.ttl - frame.envelope.header.ttl;
        && ValidHeader(e.header, now)
        && (0 <= m < |path| - 1 && frame.to in w.nodes ==>
              up && NextHop(Live(w.nodes[frame.to], now), e.header.destinationHint) == Some(path[m + 1]))
    case _ => true
  }

  /** Every event after number k helps. */
  ghost predicate Smooth(identities: map<NeighborId, nat>, events: seq<NetEvent>, k: nat, path: seq<NeighborId>,
          e: Envelope) {
    forall j :: k < j < |events| ==> Helps(NetRun(identities, events[..j]), events[j], path, e)
  }

  /** The envelope is on the m-th link of the path. */
  predicate OnLink(w: World, path: seq<NeighborId>, e: Envelope, m: nat)
    requires 0 < m < |path|
  {
    Frame(path[m - 1], path[m], After(e, m)) in w.flight
  }

  /** It is on one of the links, or delivered. */
  ghost predicate UnderWay(w: World, path: seq<NeighborId>, e: Envelope)
    requires |path| > 0
  {
    After(e, |path| - 1) in w.delivered || exists m :: 0 < m < |path| && OnLink(w, path, e, m)
  }

  // ----- Steps -----

  lemma {:induction false} IdentitiesStay(identities: map<NeighborId, nat>, events: seq<NetEvent>, n: NeighborId)
    requires n in identities
    ensures var w := NetRun(identities, events); n in w.nodes && w.nodes[n].identity == identities[n]
  {
    hide NodeStep;
    if events != [] {
      var before, last := events[..|events| - 1], events[|events| - 1];
      IdentitiesStay(identities, before, n);
      CallsKeepIdentity(NetRun(identities, before), last, n);
    }
  }

  lemma CallsKeepIdentity(w: World, event: NetEvent, n: NeighborId)
    requires n in w.nodes
    ensures n in NetStep(w, event).nodes && NetStep(w, event).nodes[n].identity == w.nodes[n].identity
  {
    hide NodeStep, FramesOf, EnvelopesOf;
    match event
    case Calls(m, e, now) => if m in w.nodes { StepKeepsIdentity(w.nodes[m], e, now); }
    case Arrives(i, now, up) =>
      if i < |w.flight| && w.flight[i].to in w.nodes {
        var frame := w.flight[i];
        StepKeepsIdentity(w.nodes[frame.to], Receives(frame.envelope, Some(frame.from), up), now);
      }
    case _ =>
  }

  /** What adds to the network leaves the envelope where it is. */
  lemma StaysUnderWay(w: World, next: World, path: seq<NeighborId>, e: Envelope)
    requires |path| > 0 && UnderWay(w, path, e)
    requires forall f :: f in w.flight ==> f in next.flight
    requires forall d :: d in w.delivered ==> d in next.delivered
    ensures UnderWay(next, path, e)
  {
    if m :| 0 < m < |path| && OnLink(w, path, e, m) { assert OnLink(next, path, e, m); }
  }

  lemma SentFrame(n: NeighborId, t: Transmission)
    ensures FramesOf(n, [t]) == [Frame(n, t.to, t.envelope)]
  {
    assert [t][1..] == [];
  }

  /** A relay on the way passes the envelope to the next. */
  lemma PassedOn(w: World, n: NeighborId, next: NeighborId, x: Envelope, from: Option<NeighborId>, now: nat)
    requires n in w.nodes && ValidHeader(x.header, now) && Unicast(x) && x.header.packetType != ACK
    requires x.header.destinationHint != HintOf(w.nodes[n].identity)
    requires NextHop(Live(w.nodes[n], now), x.header.destinationHint) == Some(next)
    ensures Frame(n, next, Relayed(x)) in CallNode(w, n, Receives(x, from, true), now).flight
  {
    hide Receive, Purged, DemoteOverdue, Restrict, Lookup, ValidHeader, FramesOf;
    PassesOnExactly(w.nodes[n], x, from, now, true);
    SentFrame(n, Transmission(next, Relayed(x)));
  }

  lemma DeliveredAt(w: World, n: NeighborId, x: Envelope, from: NeighborId, now: nat, up: bool)
    requires n in w.nodes && ValidHeader(x.header, now) && Unicast(x) && x.header.packetType != ACK
    requires x.header.destinationHint == HintOf(w.nodes[n].identity)
    ensures x in CallNode(w, n, Receives(x, Some(from), up), now).delivered
  {
    hide Receive, Purged, DemoteOverdue, Restrict, Lookup, ValidHeader, FramesOf;
    DeliveredExactly(w.nodes[n], x, Some(from), now, up);
  }

  /** Once it is sent it is on the first link. */
  lemma SetOut(w: World, event: NetEvent, path: seq<NeighborId>, e: Envelope)
    requires |path| >= 2 && SetsOut(w, event, path, e)
    ensures OnLink(NetStep(w, event), path, e, 1)
  {
    hide Send, Purged, DemoteOverdue, Restrict, Lookup, ValidHeader, FramesOf, DirectPeer;
    SendsExactly(w.nodes[path[0]], e, event.now, true);
    SentFrame(path[0], Transmission(path[1], Relayed(e)));
    assert Relayed(e) == After(e, 1);
  }

  lemma StillValid(e: Envelope, m: nat, now: nat)
    requires ValidHeader(e.header, now) && e.header.ttl > m
    ensures ValidHeader(After(e, m).header, now) && Unicast(After(e, m)) == Unicast(e)
  {
  }

  /** Arriving on link m it goes on to the next link, or is delivered at the end. */
  lemma Arrival(identities: map<NeighborId, nat>, w: World, i: nat, now: nat, up: bool, path: seq<NeighborId>,
          e: Envelope, m: nat)
    requires Way(identities, path, e) && 0 < m < |path|
    requires i < |w.flight| && w.flight[i] == Frame(path[m - 1], path[m], After(e, m))
    requires Helps(w, Arrives(i, now, up), path, e)
    requires path[m] in w.nodes && w.nodes[path[m]].identity == identities[path[m]]
    ensures UnderWay(NetStep(w, Arrives(i, now, up)), path, e)
  {
    var rest, next := WithoutFrame(w, i), NetStep(w, Arrives(i, now, up));
    StillValid(e, m, now);
    assert next == CallNode(rest, path[m], Receives(After(e, m), Some(path[m - 1]), up), now);
    if m == |path| - 1 {
      DeliveredAt(rest, path[m], After(e, m), path[m - 1], now, up);
    } else {
      PassedOn(rest, path[m], path[m + 1], After(e, m), Some(path[m - 1]), now);
      assert Relayed(After(e, m)) == After(e, m + 1);
      assert OnLink(next, path, e, m + 1);
    }
  }

  lemma {:induction false} TwoFlying(id: MessageId, flight: seq<Frame>, i: nat, j: nat)
    requires i < j < |flight|
    requires flight[i].envelope.header.messageId == id && flight[j].envelope.header.messageId == id
    ensures FlightSum(Copies(id), flight) >= 2
  {
    if i > 0 { TwoFlying(id, flight[1..], i - 1, j - 1); } else { FlyingWeighs(Copies(id), flight[1..], j - 1); }
  }

  /** Put in once, it is in one frame at a time, and in none once it is delivered. */
  lemma OneFrame(identities: map<NeighborId, nat>, events: seq<NetEvent>, k: nat, id: MessageId, i: nat)
    requires OnlyAt(identities, events, k, id)
    requires var w := NetRun(identities, events); i < |w.flight| && w.flight[i].envelope.header.messageId == id
    ensures var w := NetRun(identities, events);
            && (forall j :: 0 <= j < |w.flight| && w.flight[j].envelope.header.messageId == id ==> j == i)
            && (forall d :: d in w.delivered ==> d.header.messageId != id)
  {
    hide NetRun, FlightSum, MeshNetwork.Queued, Sum;
    ExactlyOnePlace(identities, events, k, id);
    var w := NetRun(identities, events);
    FlyingWeighs(Copies(id), w.flight, i);
    forall j | 0 <= j < |w.flight| && w.flight[j].envelope.header.messageId == id ensures j == i {
      if j < i { TwoFlying(id, w.flight, j, i); }
      if i < j { TwoFlying(id, w.flight, i, j); }
    }
    forall d | d in w.delivered ensures d.header.messageId != id {
      if d.header.messageId == id { SumAtLeast(Copies(id), w.delivered, d); }
    }
  }

  /** Events that do not handle the envelope leave it where it is. */
  lemma OtherEvent(w: World, event: NetEvent, path: seq<NeighborId>, e: Envelope)
    requires |path| > 0 && UnderWay(w, path, e)
    requires match event
             case Lost(i) => i < |w.flight| ==> w.flight[i].envelope.header.messageId != e.header.messageId
             case Arrives(i, _, _) => i < |w.flight| ==> w.flight[i].envelope.header.messageId != e.header.messageId
             case _ => true
    ensures UnderWay(NetStep(w, event), path, e)
  {
    hide NodeStep, FramesOf, EnvelopesOf;
    var next := NetStep(w, event);
    if After(e, |path| - 1) !in w.delivered {
      var m :| 0 < m < |path| && OnLink(w, path, e, m);
      var f := Frame(path[m - 1], path[m], After(e, m));
      var i :| 0 <= i < |w.flight| && w.flight[i] == f;
      StillFlying(w, event, i);
      assert OnLink(next, path, e, m);
    }
  }

  lemma StillFlying(w: World, event: NetEvent, i: nat)
    requires i < |w.flight|
    requires (event.Lost? || event.Arrives?) ==> event.index != i
    ensures w.flight[i] in NetStep(w, event).flight
  {
    hide NodeStep, FramesOf, EnvelopesOf;
    if (event.Lost? || event.Arrives?) && event.index < |w.flight| {
      var rest := WithoutFrame(w, event.index).flight;
      assert rest[if i < event.index then i else i - 1] == w.flight[i];
    }
  }

  lemma EarlierOnly(identities: map<NeighborId, nat>, events: seq<NetEvent>, k: nat, id: MessageId, j: nat)
    requires OnlyAt(identities, events, k, id) && k < j <= |events|
    ensures OnlyAt(identities, events[..j], k, id)
  {
    hide Introduces;
  }

  /** One event further. */
  lemma OneEventFurther(identities: map<NeighborId, nat>, before: seq<NetEvent>, event: NetEvent, k: nat,
          path: seq<NeighborId>, e: Envelope)
    requires Way(identities, path, e) && OnlyAt(identities, before, k, e.header.messageId)
    requires UnderWay(NetRun(identities, before), path, e) && Helps(NetRun(identities, before), event, path, e)
    ensures UnderWay(NetStep(NetRun(identities, before), event), path, e)
  {
    var w, id := NetRun(identities, before), e.header.messageId;
    if event.Arrives? && event.index < |w.flight| && w.flight[event.index].envelope.header.messageId == id {
      hide NetRun, NetStep, OnlyAt, Way, Helps;
      OneFrame(identities, before, k, id, event.index);
      assert After(e, |path| - 1) !in w.delivered;
      var m :| 0 < m < |path| && OnLink(w, path, e, m);
      var i :| 0 <= i < |w.flight| && w.flight[i] == Frame(path[m - 1], path[m], After(e, m));
      assert i == event.index;
      InWay(identities, path, e, m);
      IdentitiesStay(identities, before, path[m]);
      Arrival(identities, w, i, event.now, event.up, path, e, m);
    } else {
      OtherEvent(w, event, path, e);
    }
  }

  lemma InWay(identities: map<NeighborId, nat>, path: seq<NeighborId>, e: Envelope, m: nat)
    requires Way(identities, path, e) && m < |path|
    ensures path[m] in identities
  {
  }

  lemma SmoothBefore(identities: map<NeighborId, nat>, events: seq<NetEvent>, k: nat, path: seq<NeighborId>,
          e: Envelope)
    requires k < |events| - 1 && Smooth(identities, events, k, path, e)
    ensures Smooth(identities, events[..|events| - 1], k, path, e)
    ensures Helps(NetRun(identities, events[..|events| - 1]), events[|events| - 1], path, e)
  {
    hide NetRun, Helps;
    var before := events[..|events| - 1];
    forall j | k < j < |before| ensures Helps(NetRun(identities, before[..j]), before[j], path, e) {
      assert before[..j] == events[..j] && before[j] == events[j];
    }
  }

  /** Delivery. An envelope sent along a path of relays, each of which has the next as
      its next hop when the envelope comes to it, with hops enough and neither lost nor
      refused on the way, is on one of the path's links or delivered at its end,
      whatever else happens in the network. */
  lemma {:induction false} ArrivesAlongPath(identities: map<NeighborId, nat>, events: seq<NetEvent>, k: nat,
          path: seq<NeighborId>, e: Envelope)
    requires Way(identities, path, e) && OnlyAt(identities, events, k, e.header.messageId)
    requires SetsOut(NetRun(identities, events[..k]), events[k], path, e) && Smooth(identities, events, k, path, e)
    ensures UnderWay(NetRun(identities, events), path, e)
    decreases |events|
  {
    hide NetStep, Way, SetsOut;
    var before, last := events[..|events| - 1], events[|events| - 1];
    if k == |events| - 1 {
      PathLength(identities, path, e);
      SetOut(NetRun(identities, before), last, path, e);
      hide OnLink;
      assert OnLink(NetRun(identities, events), path, e, 1);
    } else {
      hide OnlyAt, Smooth;
      EarlierOnly(identities, events, k, e.header.messageId, |before|);
      SmoothBefore(identities, events, k, path, e);
      assert before[..k] == events[..k] && before[k] == events[k];
      ArrivesAlongPath(identities, before, k, path, e);
      OneEventFurther(identities, before, last, k, path, e);
    }
  }

  lemma PathLength(identities: map<NeighborId, nat>, path: seq<NeighborId>, e: Envelope)
    requires Way(identities, path, e)
    ensures |path| >= 2
  {
  }

  /** When nothing of it is left in flight, it has been delivered at the path's end. */
  lemma DeliveredAtPathEnd(identities: map<NeighborId, nat>, events: seq<NetEvent>, k: nat, path: seq<NeighborId>,
          e: Envelope)
    requires Way(identities, path, e) && OnlyAt(identities, events, k, e.header.messageId)
    requires SetsOut(NetRun(identities, events[..k]), events[k], path, e) && Smooth(identities, events, k, path, e)
    requires forall f :: f in NetRun(identities, events).flight ==> f.envelope.header.messageId != e.header.messageId
    ensures After(e, |path| - 1) in NetRun(identities, events).delivered
  {
    hide NetRun, Way, OnlyAt, SetsOut, Smooth;
    ArrivesAlongPath(identities, events, k, path, e);
    var w := NetRun(identities, events);
    forall m | 0 < m < |path| ensures !OnLink(w, path, e, m) { }
  }
}
