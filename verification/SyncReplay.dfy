/** A sync packet counts once, and only from the peer whose session it was sealed for. */
module SyncReplay {
  import opened Basics
  import opened OrderedMaps
  import opened Envelopes
  import opened RouteTable
  import opened Relay
  import opened SyncProtocol
  import opened SyncHistory
  import FiniteSets
  import Q = ForwardQueue

  /** What is remembered of a sync packet: who sent it, and its payload. */
  function RecordOf(e: Envelope): Option<(nat, Payload)> {
    if e.sealedPayload.SyncPayload? && e.sealedPayload.syncCiphertext.SyncSealed?
       && e.sealedPayload.syncCiphertext.content.SyncContent?
    then Some((e.sealedPayload.syncCiphertext.content.sender, e.sealedPayload)) else None
  }

  /** The packet was sealed for the relay's session with n by the identity n is
      registered with. */
  predicate ComesFromPeer(node: Node, e: Envelope, n: NeighborId) {
    && n in node.peers.at && node.peers.at[n].session.Some? && RecordOf(e).Some?
    && var session := node.peers.at[n].session.value;
    && e.sealedPayload.sessionId == session.sessionId && |e.sealedPayload.nonce| == 24
    && var c := e.sealedPayload.syncCiphertext;
    && c.key == session.receiveKey && c.nonce == e.sealedPayload.nonce && c.sessionId == session.sessionId
    && c.content.sender == node.peers.at[n].identity
  }

  /** It was not handled within the last ten minutes, as far as is remembered. */
  predicate NotRemembered(node: SyncNode, e: Envelope, now: nat) {
    RecordOf(e).Some? ==> RecordOf(e).value !in node.seen.at || now - node.seen.at[RecordOf(e).value] > 600000
  }

  predicate Counts(node: SyncNode, e: Envelope, from: Option<NeighborId>, now: nat) {
    from.Some? && ComesFromPeer(node.relay, e, from.value) && NotRemembered(node, e, now)
  }

  predicate ValidSync(e: Envelope, now: nat) {
    ValidHeader(e.header, now) && e.header.packetType == STORE_FORWARD_SYNC
  }

  lemma OpensForPeer(node: Node, e: Envelope, n: NeighborId)
    ensures ComesFromPeer(node, e, n) <==>
            && SessionWith(node, n).Some? && OpenSync(e.sealedPayload, SessionWith(node, n).value).Some?
            && PeerAuthorized(node, n, OpenSync(e.sealedPayload, SessionWith(node, n).value).value.sender)
    ensures SessionWith(node, n).Some? && OpenSync(e.sealedPayload, SessionWith(node, n).value).Some? ==>
              var content := OpenSync(e.sealedPayload, SessionWith(node, n).value).value;
              && RecordOf(e) == Some((content.sender, e.sealedPayload))
              && content == e.sealedPayload.syncCiphertext.content
  {
  }

  /** A sync packet that does not count is refused and changes nothing: not one from an
      unknown sender, nor one sealed for another session or by another identity, nor
      one that was handled before. */
  lemma RefusedUnlessCounts(node: SyncNode, e: Envelope, from: Option<NeighborId>, lengths: Lengths, now: nat,
          answers: Answers)
    requires ValidSync(e, now) && !Counts(node, e, from, now)
    ensures var s := ReceivePacket(node, e, from, lengths, now, answers);
            && s.outcome.Refused? && s.effects == NOTHING
            && s.node.relay == PurgeRoutingState(node.relay, now)
            && (from.Some? && ComesFromPeer(node.relay, e, from.value) ==> s.outcome == Refused(Replayed))
  {
    hide ValidHeader, HandleMessage, Only, Purged, DemoteOverdue, OpenSync, ComesFromPeer, Remembered;
    if from.Some? {
      OpensForPeer(PurgeRoutingState(node.relay, now), e, from.value);
      SamePeers(node.relay, e, from.value, now);
    }
  }

  lemma SamePeers(node: Node, e: Envelope, n: NeighborId, now: int)
    ensures ComesFromPeer(PurgeRoutingState(node, now), e, n) <==> ComesFromPeer(node, e, n)
  {
    hide Only, Purged, DemoteOverdue;
  }

  // ----- How long a packet is remembered -----

  /** How many packets an envelope brings, itself and what is inside it. */
  function Packets(e: Envelope): nat
    decreases e, 1
  {
    1 + PacketsFrom(e, 0)
  }

  function PacketsFrom(e: Envelope, i: nat): nat
    decreases e, 0, |WiresOf(e)| - i
  {
    if i >= |WiresOf(e)| then 0
    else (if WiresOf(e)[i].Encoded? then Packets(WiresOf(e)[i].envelope) else 0) + PacketsFrom(e, i + 1)
  }

  /** The packet is still remembered as it was, and at most so many were added. */
  ghost predicate Remembers(seen: SeenSync, after: SeenSync, key: (nat, Payload), more: nat) {
    key in seen.at ==> key in after.at && after.at[key] == seen.at[key] && |after.at| <= |seen.at| + more
  }

  /** The record has room for so many more, and what was remembered is recent. */
  predicate HasRoom(seen: SeenSync, key: (nat, Payload), more: nat, now: int) {
    key in seen.at && |seen.at| + more <= MAX_SEEN_SYNC_PACKETS && now - seen.at[key] <= SYNC_REPLAY_TTL_MS
  }

  lemma SpareKeeps(seen: SeenSync, maxAgeMs: int, now: int, key: (nat, Payload))
    requires key in seen.at && now - seen.at[key] <= maxAgeMs
    ensures Remembers(seen, SeenWithin(seen, maxAgeMs, now), key, 0)
    ensures key in SeenWithin(seen, maxAgeMs, now).at
  {
    hide Only;
    FiniteSets.SmallerMap(SeenWithin(seen, maxAgeMs, now).at, seen.at);
  }

  lemma AddKeeps(seen: SeenSync, other: (nat, Payload), now: int, key: (nat, Payload))
    requires key in seen.at && key != other && |seen.at| < MAX_SEEN_SYNC_PACKETS
    ensures Remembers(seen, Remembered(seen, other, now), key, 1)
  {
    PutGrows(seen, other, now);
  }

  lemma RemembersThen(a: SeenSync, b: SeenSync, c: SeenSync, key: (nat, Payload), m: nat, n: nat)
    requires key in a.at && Remembers(a, b, key, m) && Remembers(b, c, key, n)
    ensures Remembers(a, c, key, m + n)
  {
  }

  lemma AcceptRemembers(node: SyncNode, e: Envelope, i: nat, total: nat, from: NeighborId, lengths: Lengths, now: nat,
          nested: seq<Answers>, key: (nat, Payload))
    requires i <= |WiresOf(e)| && HasRoom(node.seen, key, PacketsFrom(e, i), now)
    ensures Remembers(node.seen, AcceptWires(node, e, i, total, from, lengths, now, nested).node.seen, key,
                      PacketsFrom(e, i))
    decreases e, 0, |WiresOf(e)| - i
  {
    hide ReceivePacket, WiresOf;
    var wires := WiresOf(e);
    if i < |wires| && total + wires[i].length <= MAX_SYNC_TRANSFER_BYTES && wires[i].Encoded? {
      WireSmaller(e, i);
      var x := wires[i].envelope;
      var first := ReceivePacket(node, x, Some(from), lengths, now, AnswerAt(nested, i));
      ReceiveRemembers(node, x, Some(from), lengths, now, AnswerAt(nested, i), key);
      AcceptRemembers(first.node, e, i + 1, total + wires[i].length, from, lengths, now, nested, key);
      var rest := AcceptWires(first.node, e, i + 1, total + wires[i].length, from, lengths, now, nested);
      RemembersThen(node.seen, first.node.seen, rest.node.seen, key, Packets(x), PacketsFrom(e, i + 1));
    }
  }

  /** Handling a packet that has been noted. */
  lemma HandleRemembers(node: SyncNode, e: Envelope, n: NeighborId, session: Session, lengths: Lengths, now: nat,
          answers: Answers, key: (nat, Payload))
    requires RecordOf(e).Some? && HasRoom(node.seen, key, PacketsFrom(e, 0), now)
    ensures var message := e.sealedPayload.syncCiphertext.content.inner;
            Remembers(node.seen, HandleMessage(node, e, n, session, message, lengths, now, answers).node.seen, key,
                      PacketsFrom(e, 0))
    decreases e, 0, |WiresOf(e)| + 1
  {
    hide SummaryOf, Supplied, Missing, Q.Purged, ExpiredIn, Listable, Wires, AcceptWires;
    var message := e.sealedPayload.syncCiphertext.content.inner;
    if message.Transfer? { AcceptRemembers(node, e, 0, 0, n, lengths, now, answers.nested, key); }
  }

  lemma SyncRemembers(node: SyncNode, e: Envelope, from: Option<NeighborId>, lengths: Lengths, now: nat,
          answers: Answers, key: (nat, Payload))
    requires HasRoom(node.seen, key, Packets(e), now)
    ensures Remembers(node.seen, HandleSyncPacket(node, e, from, lengths, now, answers).node.seen, key, Packets(e))
    decreases e, 1, 0
  {
    hide HandleMessage, SeenWithin, Remembered, OpenSync, PacketsFrom;
    if from.Some? && SessionWith(node.relay, from.value).Some? {
      var session, recent := SessionWith(node.relay, from.value).value, SeenRecently(node.seen, now);
      SpareKeeps(node.seen, SYNC_REPLAY_TTL_MS, now, key);
      var content := OpenSync(e.sealedPayload, session);
      if content.Some? {
        OpensForPeer(node.relay, e, from.value);
        var other := (content.value.sender, e.sealedPayload);
        if PeerAuthorized(node.relay, from.value, content.value.sender) && other !in recent.at {
          AddKeeps(recent, other, now, key);
          var noted := node.(seen := Remembered(recent, other, now));
          HandleRemembers(noted, e, from.value, session, lengths, now, answers, key);
          var s := HandleMessage(noted, e, from.value, session, content.value.inner, lengths, now, answers);
          RemembersThen(node.seen, recent, noted.seen, key, 0, 1);
          RemembersThen(node.seen, noted.seen, s.node.seen, key, 1, PacketsFrom(e, 0));
          assert HandleSyncPacket(node, e, from, lengths, now, answers) == s;
        }
      }
    }
  }

  lemma ReceiveRemembers(node: SyncNode, e: Envelope, from: Option<NeighborId>, lengths: Lengths, now: nat,
          answers: Answers, key: (nat, Payload))
    requires HasRoom(node.seen, key, Packets(e), now)
    ensures Remembers(node.seen, ReceivePacket(node, e, from, lengths, now, answers).node.seen, key, Packets(e))
    decreases e, 2, 0
  {
    hide HandleSyncPacket, ValidHeader, PurgeRoutingState, Receive, Packets;
    if ValidSync(e, now) {
      SyncRemembers(node.(relay := PurgeRoutingState(node.relay, now)), e, from, lengths, now, answers, key);
    }
  }

  /** A packet that counts is remembered, with the instant it came. */
  lemma CountingIsNoted(node: SyncNode, e: Envelope, from: Option<NeighborId>, lengths: Lengths, now: nat,
          answers: Answers)
    requires ValidSync(e, now) && Counts(node, e, from, now)
    requires |node.seen.at| + Packets(e) <= MAX_SEEN_SYNC_PACKETS
    ensures var after := ReceivePacket(node, e, from, lengths, now, answers).node.seen;
            && RecordOf(e).value in after.at && after.at[RecordOf(e).value] == now
            && |after.at| <= |node.seen.at| + Packets(e)
  {
    assert RecordOf(e).Some?;
    hide HandleMessage, Purged, DemoteOverdue, ValidHeader, OpenSync, ComesFromPeer, PacketsFrom, Put, Restrict;
    var n, key := from.value, RecordOf(e).value;
    var live := node.(relay := PurgeRoutingState(node.relay, now));
    SamePeers(node.relay, e, n, now);
    OpensForPeer(live.relay, e, n);
    var session := SessionWith(live.relay, n).value;
    var recent := SeenRecently(node.seen, now);
    RecentOnly(node.seen, key, now);
    NotedWithRoom(recent, key, now);
    var noted := live.(seen := Remembered(recent, key, now));
    HandleRemembers(noted, e, n, session, lengths, now, answers, key);
    hide Remembered, SeenWithin;
    assert ReceivePacket(node, e, from, lengths, now, answers) ==
           HandleMessage(noted, e, n, session, e.sealedPayload.syncCiphertext.content.inner, lengths, now, answers);
  }

  lemma RecentOnly(seen: SeenSync, key: (nat, Payload), now: int)
    requires key !in seen.at || now - seen.at[key] > 600000
    ensures key !in SeenRecently(seen, now).at && |SeenRecently(seen, now).at| <= |seen.at|
  {
    hide Only;
    FiniteSets.SmallerMap(SeenRecently(seen, now).at, seen.at);
  }

  lemma NotedWithRoom(seen: SeenSync, key: (nat, Payload), now: int)
    requires key !in seen.at && |seen.at| < MAX_SEEN_SYNC_PACKETS
    ensures var noted := Remembered(seen, key, now);
            key in noted.at && noted.at[key] == now && |noted.at| <= |seen.at| + 1
  {
    PutGrows(seen, key, now);
  }

  // ----- Runs -----

  function CallPackets(call: SyncCall): nat {
    if call.event.Gets? then Packets(call.event.envelope) else 0
  }

  /** How many packets come in a run, those inside others counted. */
  function RunPackets(run: seq<SyncCall>): nat {
    if run == [] then 0 else RunPackets(run[..|run| - 1]) + CallPackets(run[|run| - 1])
  }

  /** The call comes within ten minutes of what was noted at `at`, and does not forget it
      on purpose. */
  predicate Spares(call: SyncCall, at: int) {
    && call.now - at <= 600000
    && (call.event.ForgetsSyncs? ==> call.now - at <= call.event.maxAgeMs)
  }

  lemma CallRemembers(node: SyncNode, call: SyncCall, key: (nat, Payload))
    requires HasRoom(node.seen, key, CallPackets(call), call.now) && Spares(call, node.seen.at[key])
    ensures Remembers(node.seen, SyncStepBy(node, call.event, call.now).0.seen, key, CallPackets(call))
  {
    hide ReceivePacket, SeenWithin, NodeStep, SummaryOf, Q.Purged, ExpiredIn, Packets;
    match call.event
    case Gets(e, from, lengths, answers) => ReceiveRemembers(node, e, from, lengths, call.now, answers, key);
    case ForgetsSyncs(maxAge) => SpareKeeps(node.seen, maxAge, call.now, key);
    case _ =>
  }

  lemma {:induction false} RunRemembers(start: SyncNode, run: seq<SyncCall>, key: (nat, Payload))
    requires key in start.seen.at && |start.seen.at| + RunPackets(run) <= MAX_SEEN_SYNC_PACKETS
    requires forall k :: 0 <= k < |run| ==> Spares(run[k], start.seen.at[key])
    ensures Remembers(start.seen, SyncRunFrom(start, run).0.seen, key, RunPackets(run))
  {
    hide SyncStepBy, CallPackets;
    if run != [] {
      var before, last := run[..|run| - 1], run[|run| - 1];
      RunRemembers(start, before, key);
      var node := SyncRunFrom(start, before).0;
      CallRemembers(node, last, key);
      RemembersThen(start.seen, node.seen, SyncStepBy(node, last.event, last.now).0.seen, key, RunPackets(before),
                    CallPackets(last));
    }
  }

  /** A sync packet that counted is refused when it comes again within ten minutes, from
      whomever and whatever comes between, as long as the record has room for all that
      came: nothing is sent, delivered or stored for it. */
  lemma CountsOnce(node: SyncNode, e: Envelope, from: Option<NeighborId>, lengths: Lengths, now: nat,
          answers: Answers, run: seq<SyncCall>, again: Option<NeighborId>, lengths': Lengths, later: nat,
          answers': Answers)
    requires ValidSync(e, now) && Counts(node, e, from, now)
    requires |node.seen.at| + Packets(e) + RunPackets(run) <= MAX_SEEN_SYNC_PACKETS
    requires later - now <= 600000 && forall k :: 0 <= k < |run| ==> Spares(run[k], now)
    ensures var before := SyncRunFrom(ReceivePacket(node, e, from, lengths, now, answers).node, run).0;
            var s := ReceivePacket(before, e, again, lengths', later, answers');
            && s.effects.sent == [] && s.effects.delivered == []
            && s.node.relay == PurgeRoutingState(before.relay, later)
            && (s.outcome.Refused? || (s.outcome.Routed? && s.outcome.outcome == Dropped(InvalidHeader)))
  {
    hide ReceivePacket, SyncRunFrom, Packets, RunPackets, RecordOf, PurgeRoutingState, ValidHeader;
    CountingIsNoted(node, e, from, lengths, now, answers);
    var first := ReceivePacket(node, e, from, lengths, now, answers).node;
    RunRemembers(first, run, RecordOf(e).value);
    var before := SyncRunFrom(first, run).0;
    if ValidSync(e, later) {
      RefusedUnlessCounts(before, e, again, lengths', later, answers');
    } else {
      InvalidIsDropped(before, e, again, lengths', later, answers');
    }
  }

  lemma InvalidIsDropped(node: SyncNode, e: Envelope, from: Option<NeighborId>, lengths: Lengths, now: nat,
          answers: Answers)
    requires !ValidHeader(e.header, now)
    ensures var s := ReceivePacket(node, e, from, lengths, now, answers);
            && s.effects.sent == [] && s.effects.delivered == []
            && s.node.relay == PurgeRoutingState(node.relay, now)
            && s.outcome == Routed(Dropped(InvalidHeader))
  {
    hide ValidHeader, Purged, DemoteOverdue, Restrict;
  }
}
