/**
  Runs of a relay that synchronises: what holds of every run of its other calls
  holds with sync packets and whatever they carry among them.
 */
module SyncHistory {
  import opened Basics
  import opened OrderedMaps
  import opened Envelopes
  import opened RouteTable
  import opened Relay
  import opened RelayTrust
  import opened RouteHistory
  import opened RelayDelivery
  import opened SyncProtocol

  // ----- Runs -----

  /** A packet comes in, a synchronisation is begun, old sync packets are forgotten,
      or any other call is made. */
  datatype SyncEvent =
    | Gets(envelope: Envelope, from: Option<NeighborId>, lengths: Lengths, answers: Answers)
    | Initiates(neighbor: NeighborId, random: Random, up: bool)
    | ForgetsSyncs(maxAgeMs: int)
    | Calls(event: NodeEvent)

  datatype SyncCall = SyncCall(event: SyncEvent, now: nat)

  function SyncStepBy(node: SyncNode, event: SyncEvent, now: nat): (SyncNode, Effects) {
    match event
    case Gets(e, from, lengths, answers) =>
      var s := ReceivePacket(node, e, from, lengths, now, answers);
      (s.node, s.effects)
    case Initiates(n, random, up) =>
      var (next, effects, _) := InitiateSync(node, n, random, now, up);
      (next, effects)
    case ForgetsSyncs(maxAge) => (node.(seen := SeenWithin(node.seen, maxAge, now)), NOTHING)
    case Calls(e) =>
      var (relay, effects) := NodeStep(node.relay, e, now);
      (node.(relay := relay), effects)
  }

  /** A relay after any calls, and all they did with envelopes besides keeping them. */
  function SyncRunFrom(start: SyncNode, run: seq<SyncCall>): (SyncNode, Effects) {
    if run == [] then (start, NOTHING)
    else
      var last := run[|run| - 1];
      var (before, effects) := SyncRunFrom(start, run[..|run| - 1]);
      var (after, more) := SyncStepBy(before, last.event, last.now);
      (after, Plus(effects, more))
  }

  function SyncRun(identity: nat, run: seq<SyncCall>): (SyncNode, Effects) {
    SyncRunFrom(SyncNode(NewNode(identity), OrderedMap([], map[])), run)
  }

  // ----- A run is a run of the other calls -----

  /** c is among what this call does. */
  predicate ComesFrom(call: SyncCall, c: Timed) {
    match call.event
    case Gets(e, from, _, _) => Brought(c, e, from, call.now)
    case Initiates(_, _, _) => c == Timed(ReadsQueue, call.now)
    case ForgetsSyncs(_) => false
    case Calls(e) => c == Timed(e, call.now)
  }

  predicate BeginsWithPurge(event: SyncEvent) {
    event.Gets? || (event.Calls? && PurgesFirst(event.event))
  }

  predicate StartsLike(calls: seq<Timed>, first: SyncCall) {
    BeginsWithPurge(first.event) ==> calls != [] && PurgesFirst(calls[0].event) && calls[0].now == first.now
  }

  lemma StepExpands(node: SyncNode, call: SyncCall) returns (calls: seq<Timed>)
    ensures var (next, effects) := SyncStepBy(node, call.event, call.now);
            Follows(node.relay, calls, next.relay, effects)
    ensures forall i :: 0 <= i < |calls| ==> ComesFrom(call, calls[i])
    ensures StartsLike(calls, call)
  {
    hide Follows, ReceivePacket, InitiateSync, NodeStep, SeenWithin, Inside, WithoutSync;
    match call.event
    case Gets(e, from, lengths, answers) => calls := SyncIsCalls(node, e, from, lengths, call.now, answers);
    case Initiates(n, random, up) => calls := InitiateCalls(node, n, random, call.now, up);
    case ForgetsSyncs(_) =>
      calls := [];
      NoCalls(node.relay);
    case Calls(e) =>
      calls := [Timed(e, call.now)];
      OneCall(node.relay, e, call.now, NodeStep(node.relay, e, call.now).1);
  }

  /** Call i is part of a call of the run, by the end of which all that was handed
      over before call i was handed over. */
  ghost predicate PlacedAt(start: SyncNode, run: seq<SyncCall>, calls: seq<Timed>, i: nat, k: nat)
    requires i < |calls| && k < |run|
  {
    && ComesFrom(run[k], calls[i])
    && DataIn(RunFrom(start.relay, calls[..i]).1) <= DataIn(SyncRunFrom(start, run[..k + 1]).1.sent)
  }

  ghost predicate Placed(start: SyncNode, run: seq<SyncCall>, calls: seq<Timed>, i: nat)
    requires i < |calls|
  {
    exists k :: 0 <= k < |run| && PlacedAt(start, run, calls, i, k)
  }

  lemma SameData(relay: Node, calls: seq<Timed>, next: Node, effects: Effects)
    requires Follows(relay, calls, next, effects)
    ensures DataIn(RunFrom(relay, calls).1) == DataIn(effects.sent)
  {
    hide RunFrom, EffectsFrom, WithoutSync, DataIn;
    SentInAll(relay, calls);
    SyncIsNoData(EffectsFrom(relay, calls).sent);
    SyncIsNoData(effects.sent);
  }

  lemma HandedBefore(start: Node, calls: seq<Timed>, i: nat)
    requires i <= |calls|
    ensures DataIn(RunFrom(start, calls[..i]).1) <= DataIn(RunFrom(start, calls).1)
  {
    hide RunFrom, DataIn;
    RunFromAppend(start, calls[..i], calls[i..]);
    assert calls[..i] + calls[i..] == calls;
    DataAppend(RunFrom(start, calls[..i]).1, RunFrom(RunFrom(start, calls[..i]).0, calls[i..]).1);
  }

  lemma PlacedEarlier(start: SyncNode, run: seq<SyncCall>, last: SyncCall, x: seq<Timed>, y: seq<Timed>, i: nat)
    requires i < |x| && Placed(start, run, x, i)
    ensures Placed(start, run + [last], x + y, i)
  {
    hide ComesFrom, SyncRunFrom, RunFrom, DataIn;
    var k :| 0 <= k < |run| && PlacedAt(start, run, x, i, k);
    assert (run + [last])[..k + 1] == run[..k + 1] && (x + y)[..i] == x[..i];
    assert PlacedAt(start, run + [last], x + y, i, k);
  }

  lemma PlacedLast(start: SyncNode, run: seq<SyncCall>, calls: seq<Timed>, i: nat)
    requires run != [] && i < |calls| && ComesFrom(run[|run| - 1], calls[i])
    requires Follows(start.relay, calls, SyncRunFrom(start, run).0.relay, SyncRunFrom(start, run).1)
    ensures Placed(start, run, calls, i)
  {
    hide ComesFrom, SyncRunFrom, RunFrom, DataIn, Follows;
    SameData(start.relay, calls, SyncRunFrom(start, run).0.relay, SyncRunFrom(start, run).1);
    HandedBefore(start.relay, calls, i);
    assert run[..|run| - 1 + 1] == run;
    assert PlacedAt(start, run, calls, i, |run| - 1);
  }

  /** What any run does to a relay, a sequence of its other calls does, each of them
      part of a call of the run. */
  lemma {:induction false} RunExpands(start: SyncNode, run: seq<SyncCall>) returns (calls: seq<Timed>)
    ensures Follows(start.relay, calls, SyncRunFrom(start, run).0.relay, SyncRunFrom(start, run).1)
    ensures forall i :: 0 <= i < |calls| ==> Placed(start, run, calls, i)
    ensures run != [] ==> StartsLike(calls, run[0])
  {
    hide Follows, SyncStepBy, ComesFrom, Placed, BeginsWithPurge;
    if run == [] {
      calls := [];
      NoCalls(start.relay);
    } else {
      var before, last := run[..|run| - 1], run[|run| - 1];
      var (node, effects) := SyncRunFrom(start, before);
      var (next, more) := SyncStepBy(node, last.event, last.now);
      var x := RunExpands(start, before);
      var y := StepExpands(node, last);
      FollowsThen(start.relay, node.relay, next.relay, x, y, effects, more);
      calls := x + y;
      assert before + [last] == run;
      if before == [] && x != [] { NeverPlaced(start, x, 0); }
      forall i | 0 <= i < |calls| ensures Placed(start, run, calls, i) {
        if i < |x| { PlacedEarlier(start, before, last, x, y, i); } else { PlacedLast(start, run, calls, i); }
      }
    }
  }

  lemma NeverPlaced(start: SyncNode, calls: seq<Timed>, i: nat)
    requires i < |calls|
    ensures !Placed(start, [], calls, i)
  {
  }

  // ----- What holds of every run -----

  /** Trust in a neighbor and what is awaited from it were handed to it, and at most
      500 acknowledgements are awaited. */
  lemma SyncTrustIsEarned(identity: nat, run: seq<SyncCall>, n: NeighborId)
    ensures var (node, effects) := SyncRun(identity, run);
            && Covered(node.relay, DataIn(effects.sent), n)
            && AcksInv(node.relay.pendingAcks)
  {
    hide SyncRunFrom, RunFrom, DataIn, Covered, AcksInv, EffectsFrom, SameEffects;
    var start := SyncNode(NewNode(identity), OrderedMap([], map[]));
    var calls := RunExpands(start, run);
    var (node, effects) := SyncRun(identity, run);
    SameData(start.relay, calls, node.relay, effects);
    TrustIsEarned(identity, calls, n);
  }

  lemma SyncTrustNeverFalls(start: SyncNode, run: seq<SyncCall>, n: NeighborId)
    ensures Score(start.relay.trust, n) <= Score(SyncRunFrom(start, run).0.relay.trust, n)
  {
    hide SyncRunFrom, RunFrom, EffectsFrom, SameEffects;
    var calls := RunExpands(start, run);
    TrustNeverFalls(start.relay, calls, n);
  }

  /** The call of the run is an advertisement of h by m. */
  predicate SyncAnnounces(event: SyncEvent, h: Hint, m: NeighborId) {
    event.Calls? && Announces(event.event, h, m)
  }

  lemma NothingAnnounced(start: SyncNode, run: seq<SyncCall>, calls: seq<Timed>, i: nat, h: Hint, m: NeighborId)
    requires forall k :: 0 <= k < |run| ==> !SyncAnnounces(run[k].event, h, m)
    requires i < |calls| && Placed(start, run, calls, i)
    ensures !Announces(calls[i].event, h, m)
  {
    hide Inside, SyncRunFrom, RunFrom, DataIn;
    var k :| 0 <= k < |run| && PlacedAt(start, run, calls, i, k);
    assert !SyncAnnounces(run[k].event, h, m);
  }

  /** No sync packet makes a route: without an advertisement from m for h there is
      none to h through m after any run. */
  lemma SyncRoutesNeedAdvertisements(start: SyncNode, run: seq<SyncCall>, h: Hint, m: NeighborId)
    requires !HasRoute(start.relay.routes, h, m)
    requires forall k :: 0 <= k < |run| ==> !SyncAnnounces(run[k].event, h, m)
    ensures var relay := SyncRunFrom(start, run).0.relay; !HasRoute(relay.routes, h, m) && NextHop(relay, h) != Some(m)
  {
    hide SyncRunFrom, RunFrom, EffectsFrom, SameEffects, SyncAnnounces, Announces, Placed, Lookup;
    var calls := RunExpands(start, run);
    forall i | 0 <= i < |calls| ensures !Announces(calls[i].event, h, m) {
      NothingAnnounced(start, run, calls, i, h, m);
    }
    RoutesNeedAdvertisements(start.relay, calls, h, m);
  }

  /** The call brought the envelope x from n, by itself or inside a transfer. */
  predicate Brings(event: SyncEvent, x: Envelope, n: NeighborId) {
    || (event.Gets? && event.from == Some(n) && Inside(event.envelope, x))
    || (event.Calls? && event.event.Receives? && event.event.from == Some(n) && event.event.envelope == x)
  }

  /** Call k of the run brought from m the acknowledgement x, signed by the
      destination the hint names, of an envelope for h handed to m by then. */
  ghost predicate SyncEarnedAt(identity: nat, run: seq<SyncCall>, k: nat, x: Envelope, b: Binding, h: Hint,
          m: NeighborId)
    requires k < |run|
  {
    && Brings(run[k].event, x, m)
    && VerifyAck(x).Some?
    && var ack := VerifyAck(x).value;
    && ack.signer == b.destination && HintOf(ack.signer) == h
    && b.destinationHint == h && b.neighborId == m
    && Handed(m, ack.acknowledged, h) in DataIn(SyncRun(identity, run[..k + 1]).1.sent)
  }

  ghost predicate SyncEarned(identity: nat, run: seq<SyncCall>, b: Binding, h: Hint, m: NeighborId) {
    exists k, x :: 0 <= k < |run| && SyncEarnedAt(identity, run, k, x, b, h, m)
  }

  lemma EarnedInSync(identity: nat, run: seq<SyncCall>, calls: seq<Timed>, i: nat, b: Binding, h: Hint, m: NeighborId)
    requires i < |calls| && EarnedAt(identity, calls, i, b, h, m)
    requires Placed(SyncNode(NewNode(identity), OrderedMap([], map[])), run, calls, i)
    ensures SyncEarned(identity, run, b, h, m)
  {
    hide Inside, SyncRunFrom, RunFrom, DataIn, VerifyAck;
    var start := SyncNode(NewNode(identity), OrderedMap([], map[]));
    var k :| 0 <= k < |run| && PlacedAt(start, run, calls, i, k);
    assert SyncEarnedAt(identity, run, k, calls[i].event.envelope, b, h, m);
  }

  /** Every trust binding was earned, in runs with sync packets too: by an
      acknowledgement from the destination itself, by itself or inside a transfer,
      from the neighbor that was handed the envelope. */
  lemma SyncBindingsAreEarned(identity: nat, run: seq<SyncCall>, h: Hint, m: NeighborId)
    requires var routes := SyncRun(identity, run).0.relay.routes;
             HasRoute(routes, h, m) && RouteAt(routes, h, m).binding.Some?
    ensures SyncEarned(identity, run, RouteAt(SyncRun(identity, run).0.relay.routes, h, m).binding.value, h, m)
  {
    hide SyncRunFrom, RunFrom, EffectsFrom, SameEffects, SyncEarned, EarnedAt, Placed;
    var start := SyncNode(NewNode(identity), OrderedMap([], map[]));
    var calls := RunExpands(start, run);
    BindingsAreEarned(identity, calls, h, m);
    var b := RouteAt(SyncRun(identity, run).0.relay.routes, h, m).binding.value;
    var i :| 0 <= i < |calls| && EarnedAt(identity, calls, i, b, h, m);
    EarnedInSync(identity, run, calls, i, b, h, m);
  }

  /** Once any packet arrives after the acknowledgement timeout of an envelope handed
      to m for h, lookup does not choose m for h until m advertises h again, whatever
      the relay synchronises. */
  lemma {:induction false} SyncTimedOutIsNotChosen(identity: nat, before: seq<SyncCall>, id: MessageId,
          run: seq<SyncCall>)
    requires var acks := SyncRun(identity, before).0.relay.pendingAcks;
             && id in acks.at && run != []
             && BeginsWithPurge(run[0].event) && !AckTimely(acks.at[id], run[0].now)
             && (forall k :: 0 <= k < |run| ==>
                 !SyncAnnounces(run[k].event, acks.at[id].destinationHint, acks.at[id].neighborId))
    ensures var node := SyncRun(identity, before).0;
            var p := node.relay.pendingAcks.at[id];
            NextHop(SyncRunFrom(node, run).0.relay, p.destinationHint) != Some(p.neighborId)
  {
    hide SyncRunFrom, RunFrom, EffectsFrom, SameEffects, SyncAnnounces, Announces, Placed, Lookup, PurgesFirst,
        BeginsWithPurge, AckTimely;
    var node := SyncRun(identity, before).0;
    var p := node.relay.pendingAcks.at[id];
    var earlier := RunExpands(SyncNode(NewNode(identity), OrderedMap([], map[])), before);
    var calls := RunExpands(node, run);
    forall i | 0 <= i < |calls| ensures !Announces(calls[i].event, p.destinationHint, p.neighborId) {
      NothingAnnounced(node, run, calls, i, p.destinationHint, p.neighborId);
    }
    TimedOutIsNotChosen(identity, earlier, id, calls);
  }

  lemma {:induction false} RunDeliversOwn(start: Node, calls: seq<Timed>)
    ensures AllOwn(start.identity, EffectsFrom(start, calls).delivered)
  {
    hide NodeStep, RunFrom;
    if calls != [] {
      var before, last := calls[..|calls| - 1], calls[|calls| - 1];
      RunDeliversOwn(start, before);
      IdentityStays(start, before);
      DeliversOnlyItsOwn(RunFrom(start, before).0, last.event, last.now);
    }
  }

  /** Whatever transfers carry, a relay delivers no unicast envelope for another. */
  lemma SyncDeliversOnlyItsOwn(start: SyncNode, run: seq<SyncCall>)
    ensures AllOwn(start.relay.identity, SyncRunFrom(start, run).1.delivered)
  {
    hide SyncRunFrom, RunFrom, EffectsFrom, WithoutSync, AllOwn;
    var calls := RunExpands(start, run);
    RunDeliversOwn(start.relay, calls);
  }

  /** An acknowledgement that was delivered is refused after any run in which the
      message it names is not handed over again, sync packets included. */
  lemma SyncAckNotDeliveredTwice(node: SyncNode, e: Envelope, from: NeighborId, now: nat, up: bool,
          run: seq<SyncCall>, again: NeighborId, later: nat, lengths: Lengths, answers: Answers)
    requires e.header.packetType == ACK && e in Receive(node.relay, e, Some(from), now, up).effects.delivered
    requires VerifyAck(e).Some? ==>
               var next := node.(relay := Receive(node.relay, e, Some(from), now, up).node);
               NotHanded(DataIn(SyncRunFrom(next, run).1.sent), VerifyAck(e).value.acknowledged)
    ensures var next := node.(relay := Receive(node.relay, e, Some(from), now, up).node);
            var replay := ReceivePacket(SyncRunFrom(next, run).0, e, Some(again), lengths, later, answers);
            replay.outcome.Routed? && replay.outcome.outcome.Dropped? && replay.effects.delivered == []
  {
    hide SyncRunFrom, RunFrom, EffectsFrom, SameEffects, Receive, DataIn, NotHanded, HandleSyncPacket;
    var next := node.(relay := Receive(node.relay, e, Some(from), now, up).node);
    var calls := RunExpands(next, run);
    SameData(next.relay, calls, SyncRunFrom(next, run).0.relay, SyncRunFrom(next, run).1);
    AckNotDeliveredTwice(node.relay, e, from, now, up, calls, again, later, answers.up);
  }
}
