/**
  The relay as the program keeps it, with its record of sync packets: initiateSync
  and handleSyncPacket work in place and are proved to do what the handlers on
  values prescribe.
 */
module SyncObject {
  import opened Basics
  import opened OrderedMaps
  import opened Envelopes
  import opened RouteTable
  import opened Relay
  import opened RelayObject
  import opened SyncProtocol
  import Q = ForwardQueue

  /** Room is made before a packet is remembered. */
  lemma RememberedFits(seen: SeenSync, key: (nat, Payload), now: int)
    requires Listed(seen) && |seen.at| <= MAX_SEEN_SYNC_PACKETS
    ensures Listed(Remembered(seen, key, now)) && |Remembered(seen, key, now).at| <= MAX_SEEN_SYNC_PACKETS
  {
    hide PutWithin, Listed;
    PutWithinFits(seen, key, now, MAX_SEEN_SYNC_PACKETS);
  }

  class SyncRelay {
    const relay: RelayNode
    var seenSyncPackets: SeenSync

    ghost predicate Valid()
      reads this, relay, relay.table, relay.queue
    {
      relay.Valid() && Listed(seenSyncPackets) && |seenSyncPackets.at| <= MAX_SEEN_SYNC_PACKETS
    }

    ghost function View(): SyncNode
      reads this, relay, relay.table, relay.queue
    {
      SyncNode(relay.View(), seenSyncPackets)
    }

    constructor (identity: nat)
      ensures Valid() && View() == SyncNode(NewNode(identity), OrderedMap([], map[]))
      ensures fresh(relay) && fresh(relay.table) && fresh(relay.queue)
    {
      relay := new RelayNode(identity);
      seenSyncPackets := OrderedMap([], map[]);
    }

    method PurgeStaleSyncReplayRecords(maxAgeMs: int, now: int) returns (purged: nat)
      requires Valid()
      modifies this
      ensures Valid() && View() == old(View()).(seen := SeenWithin(old(seenSyncPackets), maxAgeMs, now))
      ensures purged == |old(seenSyncPackets).at| - |seenSyncPackets.at|
    {
      hide Restrict, Drop, Swept, Listed;
      ghost var all := seenSyncPackets;
      ghost var good := set k | k in all.at && now - all.at[k] <= maxAgeMs;
      SweepStarts(all, good);
      RestrictShrinks(all, good);
      var keys := seenSyncPackets.order;
      purged := 0;
      for i := 0 to |keys|
        invariant keys == all.order && Listed(all) && relay.Valid() && relay.View() == old(relay.View())
        invariant seenSyncPackets == Restrict(all, Swept(all, i, good))
        invariant purged == |all.at| - |seenSyncPackets.at|
      {
        SweepMoves(all, i, good);
        if now - seenSyncPackets.at[keys[i]] > maxAgeMs {
          DropShrinks(seenSyncPackets, keys[i]);
          seenSyncPackets := Drop(seenSyncPackets, keys[i]);
          purged := purged + 1;
        }
      }
      SweepEnds(all, good);
    }

    /** getSummary(), cut to what a summary may list. */
    method ListSummary(now: nat) returns (entries: seq<SummaryEntry>)
      requires Valid()
      modifies relay.queue
      ensures Valid() && View() == Reading(old(View()), now)
      ensures entries == SummaryOf(relay.queue.entries)
    {
      hide Q.Purged, ExpiredIn, Q.CountsAre, MapsInv, TableInv, Listed;
      var purged := relay.queue.PurgeExpired(now);
      var q := relay.queue.entries;
      var all: seq<SummaryEntry> := [];
      for i := 0 to |q.order|
        modifies {}
        invariant all == Entries(q, i)
      {
        Q.OrderHeld(q, i);
        var e := q.at[q.order[i]].envelope;
        all := all + [SummaryEntry(e.header.messageId, e.header.ttl)];
      }
      entries := Take(all, MAX_SYNC_ENTRIES);
    }

    /** Gives a sealed packet to the transport, which answers `up`. */
    method SendSync(n: NeighborId, session: Session, random: Random, message: SyncMessage, now: nat, up: bool)
      requires Valid()
      modifies relay`sent
      ensures Valid() && View() == old(View()) && relay.delivered == old(relay.delivered)
      ensures relay.sent == old(relay.sent) +
              if up then [Transmission(n, SyncEnvelope(old(relay.View()), session, random, message, now))] else []
    {
      hide SyncEnvelopeOf, MapsInv, TableInv, Listed, Q.QueueInv, Q.CountsAre;
      if up {
        relay.sent := relay.sent + [Transmission(n, SyncEnvelopeOf(relay.identity, session, random, message, now))];
      }
    }

    method Initiate(n: NeighborId, random: Random, now: nat, up: bool) returns (sent: bool)
      requires Valid()
      modifies relay, relay.queue
      ensures Valid()
      ensures var (next, effects, ok) := InitiateSync(old(View()), n, random, now, up);
              View() == next && sent == ok && relay.sent == old(relay.sent) + effects.sent
    {
      hide SyncEnvelopeOf, SummaryOf, MapsInv, TableInv, Listed, Q.QueueInv, Q.CountsAre, ExpiredIn, Q.Purged;
      var session := SessionIn(relay.peers, n);
      if session.None? { return false; }
      var entries := ListSummary(now);
      SendSync(n, session.value, random, Summary(entries), now, up);
      return up;
    }

    /** What is missing of a summary: every id is looked up in a freshly purged queue. */
    method FindMissing(entries: seq<SummaryEntry>, now: nat) returns (missing: seq<MessageId>)
      requires Valid()
      modifies relay.queue
      ensures Valid() && relay.queue.entries ==
              (if entries == [] then old(relay.queue.entries) else Q.Purged(old(relay.queue.entries), now))
      ensures missing == Missing(relay.queue.entries, entries)
    {
      hide Q.Purged, Q.QueueInv, Q.CountsAre, MapsInv, TableInv, Listed;
      ghost var purged := Q.Purged(relay.queue.entries, now);
      assert Q.Purged(purged, now) == purged by { PurgedAgain(relay, now); }
      var found: seq<MessageId> := [];
      for i := 0 to |entries|
        invariant Valid() && relay.queue.entries == if i == 0 then old(relay.queue.entries) else purged
        invariant found == NotHeld(purged, entries[..i])
      {
        assert entries[..i + 1][..i] == entries[..i];
        var held := relay.queue.Has(entries[i].id, now);
        if !held { found := found + [entries[i].id]; }
      }
      assert entries[..|entries|] == entries;
      missing := Take(found, MAX_SYNC_REQUESTS);
    }

    method AnswerSummaryPacket(n: NeighborId, session: Session, entries: seq<SummaryEntry>, now: nat,
            answers: Answers) returns (outcome: SyncOutcome)
      requires Valid()
      modifies relay, relay.queue
      ensures Valid()
      ensures var s := AnswerSummary(old(View()), n, session, entries, now, answers);
              && View() == s.node && outcome == s.outcome && relay.sent == old(relay.sent) + s.effects.sent
              && relay.delivered == old(relay.delivered) + s.effects.delivered
    {
      hide SyncEnvelopeOf, MapsInv, TableInv, Listed, Q.QueueInv, Q.CountsAre, ExpiredIn, Q.Purged, Missing, Listable;
      if |entries| > MAX_SYNC_ENTRIES { return Refused(SummaryTooLarge); }
      if exists entry :: entry in entries && !Listable(entry) { return Refused(InvalidSummary); }
      var missing := FindMissing(entries, now);
      if missing != [] { SendSync(n, session, answers.random, Request(missing), now, answers.up); }
      return Accepted;
    }

    method AnswerRequestPacket(n: NeighborId, session: Session, ids: seq<MessageId>, lengths: Lengths, now: nat,
            answers: Answers) returns (outcome: SyncOutcome)
      requires Valid()
      modifies relay, relay.queue
      ensures Valid()
      ensures var s := AnswerRequest(old(View()), n, session, ids, lengths, now, answers);
              && View() == s.node && outcome == s.outcome && relay.sent == old(relay.sent) + s.effects.sent
              && relay.delivered == old(relay.delivered) + s.effects.delivered
    {
      hide SyncEnvelopeOf, MapsInv, TableInv, Listed, Q.QueueInv, Q.CountsAre, ExpiredIn, Q.Purged, Wires;
      if |ids| > MAX_SYNC_REQUESTS { return Refused(RequestTooLarge); }
      if exists id :: id in ids && |id.bytes| != MESSAGE_ID_LENGTH { return Refused(InvalidRequest); }
      var requested := set id | id in ids;
      var found := GetByIds(requested, now);
      var supplied := FillTransfer(Take(found, MAX_SYNC_TRANSFER_ENVELOPES), lengths);
      SendSync(n, session, answers.random, Transfer(Wires(supplied, lengths)), now, answers.up);
      return Accepted;
    }

    method GetByIds(ids: set<MessageId>, now: nat) returns (found: seq<Envelope>)
      requires Valid()
      modifies relay.queue
      ensures Valid() && View() == Reading(old(View()), now)
      ensures found == Q.WithIds(relay.queue.entries, ids, |relay.queue.entries.order|)
    {
      hide Q.Purged, ExpiredIn, Q.CountsAre, MapsInv, TableInv, Listed;
      var purged := relay.queue.PurgeExpired(now);
      var q := relay.queue.entries;
      found := [];
      for i := 0 to |q.order|
        modifies {}
        invariant found == Q.WithIds(q, ids, i)
      {
        Q.OrderHeld(q, i);
        if q.order[i] in ids { found := found + [q.at[q.order[i]].envelope]; }
      }
    }

    /** The envelopes of a transfer are received one by one, up to a refusal. */
    method AcceptTransfer(e: Envelope, from: NeighborId, lengths: Lengths, now: nat, nested: seq<Answers>)
      returns (outcome: SyncOutcome)
      requires Valid()
      modifies this, relay, relay.table, relay.queue
      ensures Valid()
      ensures var s := AcceptWires(old(View()), e, 0, 0, from, lengths, now, nested);
              && View() == s.node && outcome == s.outcome && relay.sent == old(relay.sent) + s.effects.sent
              && relay.delivered == old(relay.delivered) + s.effects.delivered
      decreases e, 0
    {
      hide ReceivePacket, Q.QueueInv, Q.CountsAre, MapsInv, TableInv, Listed, WiresOf, Plus;
      var wires := WiresOf(e);
      var total: nat, i: nat := 0, 0;
      ghost var all := AcceptWires(old(View()), e, 0, 0, from, lengths, now, nested);
      ghost var done := NOTHING;
      PlusNothing(all.effects);
      while i < |wires|
        invariant 0 <= i <= |wires| && Valid()
        invariant var rest := AcceptWires(View(), e, i, total, from, lengths, now, nested);
                  all == SyncStep(rest.node, Plus(done, rest.effects), rest.outcome)
        invariant relay.sent == old(relay.sent) + done.sent
        invariant relay.delivered == old(relay.delivered) + done.delivered
      {
        ghost var before, rest := View(), AcceptWires(View(), e, i, total, from, lengths, now, nested);
        PlusNothing(done);
        total := total + wires[i].length;
        if total > MAX_SYNC_TRANSFER_BYTES { return Refused(TransferBytesExceeded); }
        if wires[i].NoEnvelope? { return Refused(MalformedTransfer); }
        ghost var first := ReceivePacket(before, wires[i].envelope, Some(from), lengths, now, AnswerAt(nested, i));
        WireSmaller(e, i);
        var received := ReceiveAny(wires[i].envelope, Some(from), lengths, now, AnswerAt(nested, i));
        PlusAssociates(done, first.effects,
                       AcceptWires(View(), e, i + 1, total, from, lengths, now, nested).effects);
        PlusParts(done, first.effects);
        done := Plus(done, first.effects);
        i := i + 1;
      }
      PlusNothing(done);
      return Accepted;
    }

    method HandleSync(e: Envelope, from: Option<NeighborId>, lengths: Lengths, now: nat, answers: Answers)
      returns (outcome: SyncOutcome)
      requires Valid()
      modifies this, relay, relay.table, relay.queue
      ensures Valid()
      ensures var s := HandleSyncPacket(old(View()), e, from, lengths, now, answers);
              && View() == s.node && outcome == s.outcome && relay.sent == old(relay.sent) + s.effects.sent
              && relay.delivered == old(relay.delivered) + s.effects.delivered
      decreases e, 1
    {
      hide AcceptWires, AnswerSummary, AnswerRequest, SeenWithin, Q.QueueInv, Q.CountsAre, MapsInv, TableInv, Listed,
          OpenSync;
      if from.None? { return Refused(UnauthenticatedPeer); }
      var session := SessionIn(relay.peers, from.value);
      if session.None? { return Refused(SessionUnavailable); }
      var _ := PurgeStaleSyncReplayRecords(SYNC_REPLAY_TTL_MS, now);
      var content := OpenSync(e.sealedPayload, session.value);
      if content.None? || relay.peers.at[from.value].identity != content.value.sender {
        return Refused(InvalidAuthentication);
      }
      var key := (content.value.sender, e.sealedPayload);
      if key in seenSyncPackets.at { return Refused(Replayed); }
      RememberSync(key, now);
      match content.value.inner
      case Summary(entries) => outcome := AnswerSummaryPacket(from.value, session.value, entries, now, answers);
      case Request(ids) => outcome := AnswerRequestPacket(from.value, session.value, ids, lengths, now, answers);
      case Transfer(wires) =>
        if |wires| > MAX_SYNC_TRANSFER_ENVELOPES { return Refused(TransferTooLarge); }
        outcome := AcceptTransfer(e, from.value, lengths, now, answers.nested);
    }

    method RememberSync(key: (nat, Payload), now: int)
      requires Valid()
      modifies this
      ensures Valid() && View() == old(View()).(seen := Remembered(old(seenSyncPackets), key, now))
    {
      hide Put, Drop, MapsInv, TableInv, Listed, Q.QueueInv, Q.CountsAre;
      RememberedFits(seenSyncPackets, key, now);
      if |seenSyncPackets.at| >= MAX_SEEN_SYNC_PACKETS && |seenSyncPackets.order| > 0 {
        seenSyncPackets := Drop(seenSyncPackets, seenSyncPackets.order[0]);
      }
      seenSyncPackets := Put(seenSyncPackets, key, now);
    }

    /** receiveEnvelope, sync packets included. */
    method ReceiveAny(e: Envelope, from: Option<NeighborId>, lengths: Lengths, now: nat, answers: Answers)
      returns (outcome: SyncOutcome)
      requires Valid()
      modifies this, relay, relay.table, relay.queue
      ensures Valid()
      ensures var s := ReceivePacket(old(View()), e, from, lengths, now, answers);
              && View() == s.node && outcome == s.outcome && relay.sent == old(relay.sent) + s.effects.sent
              && relay.delivered == old(relay.delivered) + s.effects.delivered
      decreases e, 2
    {
      hide HandleSyncPacket, Receive, PurgeRoutingState, Q.QueueInv, Q.CountsAre, MapsInv, TableInv, Listed,
          ValidHeader, AllLive;
      if ValidHeader(e.header, now) && e.header.packetType == STORE_FORWARD_SYNC {
        relay.PurgeStaleRoutingState(now);
        outcome := HandleSync(e, from, lengths, now, answers);
      } else {
        var routed := relay.ReceiveEnvelope(e, from, now, answers.up);
        outcome := Routed(routed);
      }
    }
  }

  lemma PlusNothing(a: Effects)
    ensures Plus(NOTHING, a) == a == Plus(a, NOTHING)
  {
  }

  lemma PlusParts(a: Effects, b: Effects)
    ensures Plus(a, b).sent == a.sent + b.sent && Plus(a, b).delivered == a.delivered + b.delivered
  {
  }

  method FillTransfer(envelopes: seq<Envelope>, lengths: Lengths) returns (taken: seq<Envelope>)
    ensures taken == WithinLimit(envelopes, lengths, 0)
  {
    taken := [];
    var total: nat, i: nat := 0, 0;
    assert envelopes[0..] == envelopes;
    while i < |envelopes|
      invariant 0 <= i <= |envelopes|
      invariant taken + WithinLimit(envelopes[i..], lengths, total) == WithinLimit(envelopes, lengths, 0)
    {
      var length := LengthOf(lengths, envelopes[i]);
      assert envelopes[i..][1..] == envelopes[i + 1..];
      if total + length > MAX_SYNC_TRANSFER_BYTES { break; }
      taken, total, i := taken + [envelopes[i]], total + length, i + 1;
    }
    assert taken + [] == taken;
  }

  lemma PurgedAgain(relay: RelayNode, now: nat)
    requires relay.Valid()
    ensures Q.Purged(Q.Purged(relay.queue.entries, now), now) == Q.Purged(relay.queue.entries, now)
  {
    Q.PurgedInv(relay.queue.entries, now);
  }
}
