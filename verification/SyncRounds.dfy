/**
  Rounds of store and forward synchronisation in which every packet arrives,
  between a relay and a neighbor that can only carry the envelopes further.
 */
module SyncRounds {
  import opened Basics
  import opened OrderedMaps
  import opened Envelopes
  import opened RouteTable
  import opened Relay
  import opened RouteHistory
  import opened SyncProtocol
  import FiniteSets
  import Q = ForwardQueue

  /** How the neighbor knows the sender, and the sender the neighbor. */
  datatype Ends = Ends(sender: NeighborId, receiver: NeighborId)

  /** The random values of the three packets of a round. */
  datatype Draws = Draws(summary: Random, request: Random, transfer: Random)

  /** When a round happens, what is drawn for it, and what the neighbor's transport
      answers while it receives the envelopes transferred. */
  datatype Moment = Moment(now: nat, draws: Draws, nested: seq<Answers>)

  /** One round: a starts it, and every packet either side sends the other arrives. */
  function Round(a: SyncNode, b: SyncNode, ends: Ends, lengths: Lengths, m: Moment): (SyncNode, SyncNode) {
    var (started, effects, _) := InitiateSync(a, ends.receiver, m.draws.summary, m.now, true);
    if effects.sent == [] then (started, b)
    else
      var asked := ReceivePacket(b, effects.sent[0].envelope, Some(ends.sender), lengths, m.now,
                                 Answers(true, m.draws.request, []));
      if asked.effects.sent == [] then (started, asked.node)
      else
        var answered := ReceivePacket(started, asked.effects.sent[0].envelope, Some(ends.receiver), lengths, m.now,
                                      Answers(true, m.draws.transfer, []));
        if answered.effects.sent == [] then (answered.node, asked.node)
        else
          var done := ReceivePacket(asked.node, answered.effects.sent[0].envelope, Some(ends.sender), lengths, m.now,
                                    Answers(true, m.draws.request, m.nested));
          (answered.node, done.node)
  }

  function Rounds(a: SyncNode, b: SyncNode, ends: Ends, lengths: Lengths, ms: seq<Moment>): (SyncNode, SyncNode) {
    if ms == [] then (a, b)
    else
      var (x, y) := Rounds(a, b, ends, lengths, ms[..|ms| - 1]);
      Round(x, y, ends, lengths, ms[|ms| - 1])
  }

  /** The envelopes transferred in a round from queue a to queue b. */
  function Transferred(a: Q.Queue, b: Q.Queue, lengths: Lengths, now: nat): seq<Envelope> {
    var mine := Q.Purged(a, now);
    var missing := Missing(Q.Purged(b, now), SummaryOf(mine));
    if missing == [] then [] else Supplied(mine, missing, lengths)
  }

  // ----- What rounds assume -----

  /** Each has registered the other, with the two views of one session. */
  predicate Linked(a: Node, b: Node, ends: Ends) {
    && SessionWith(a, ends.receiver).Some? && SessionWith(b, ends.sender).Some?
    && a.peers.at[ends.receiver].identity == b.identity && b.peers.at[ends.sender].identity == a.identity
    && Paired(SessionWith(a, ends.receiver).value, SessionWith(b, ends.sender).value)
  }

  predicate Paired(s: Session, t: Session) {
    s.sessionId == t.sessionId && s.sendKey == t.receiveKey && s.receiveKey == t.sendKey
  }

  /** No packet with this nonce has been seen. */
  ghost predicate Unused(seen: SeenSync, nonce: Bytes) {
    forall k :: k in seen.at && k.1.SyncPayload? ==> k.1.nonce != nonce
  }

  function Nonces(d: Draws): set<Bytes> {
    {d.summary.nonce, d.request.nonce, d.transfer.nonce}
  }

  /** The nonces drawn are proper, and new to those that will see them. */
  ghost predicate FreshFor(a: SyncNode, b: SyncNode, d: Draws) {
    && (forall nonce :: nonce in Nonces(d) ==>
          |nonce| == NONCE_LENGTH && Unused(a.seen, nonce) && Unused(b.seen, nonce))
    && d.summary.nonce != d.transfer.nonce
  }

  /** Rounds draw different nonces. */
  ghost predicate FreshRounds(a: SyncNode, b: SyncNode, ms: seq<Moment>) {
    && (forall i :: 0 <= i < |ms| ==> FreshFor(a, b, ms[i].draws))
    && (forall i, j :: 0 <= i < j < |ms| ==> Nonces(ms[i].draws) !! Nonces(ms[j].draws))
  }

  /** Everything a queue holds can be listed in a summary. */
  ghost predicate Sendable(q: Q.Queue) {
    forall k :: k in q.at ==> Listable(SummaryEntry(k, q.at[k].envelope.header.ttl))
  }

  /** b can only keep e for later: it is not its destination, has no route for it,
      and an acknowledgement is genuine and not one b itself awaits. */
  predicate CarriesOnly(b: Node, e: Envelope) {
    && Unicast(e) && e.header.destinationHint != HintOf(b.identity)
    && NextHop(b, e.header.destinationHint) == None
    && (e.header.packetType == ACK ==> VerifyAck(e).Some? && VerifyAck(e).value.acknowledged !in b.pendingAcks.at)
  }

  /** Two headers that are valid at the same times. */
  predicate AgeAlike(x: Header, y: Header) {
    x.version == y.version && x.timestamp == y.timestamp && (x.ttl > 0 <==> y.ttl > 0)
  }

  /** An id both hold names one message. */
  ghost predicate SameMessages(a: Q.Queue, b: Q.Queue) {
    forall k :: k in a.at && k in b.at ==> AgeAlike(a.at[k].envelope.header, b.at[k].envelope.header)
  }

  predicate Carried(b: Node, e: Envelope, lengths: Lengths) {
    CarriesOnly(b, e) && LengthOf(lengths, e) <= MAX_SYNC_TRANSFER_BYTES
  }

  /** What rounds assume of the two relays. */
  ghost predicate Setting(a: Node, b: Node, ends: Ends, lengths: Lengths) {
    && Q.QueueInv(a.queue) && Q.QueueInv(b.queue) && TableInv(b.routes) && SameMessages(a.queue, b.queue)
    && Linked(a, b, ends) && Sendable(a.queue)
    && forall k :: k in a.queue.at ==> Carried(b, a.queue.at[k].envelope, lengths)
  }

  /** b's queue has no room for more from this neighbor. */
  ghost predicate NoRoom(q: Q.Queue, from: NeighborId) {
    |q.at| >= Q.MAX_TOTAL || |Q.FromNeighbor(q, from)| >= Q.MAX_PER_NEIGHBOR
  }

  /** b holds everything valid that a holds, or has no room. */
  ghost predicate Settled(a: Q.Queue, b: Q.Queue, from: NeighborId, now: nat) {
    Q.Purged(a, now).at.Keys <= Q.Purged(b, now).at.Keys || NoRoom(Q.Purged(b, now), from)
  }

  /** What the sender holds and the neighbor does not. */
  function Lacking(a: Node, b: Node): set<MessageId> {
    a.queue.at.Keys - b.queue.at.Keys
  }

  // ----- What a summary lists and a request asks for -----

  lemma {:induction false} EntriesExact(q: Q.Queue, i: nat)
    requires Q.QueueInv(q) && i <= |q.order|
    ensures |Entries(q, i)| == i
    ensures forall j :: 0 <= j < i ==>
              q.order[j] in q.at &&
              Entries(q, i)[j] == SummaryEntry(q.order[j], q.at[q.order[j]].envelope.header.ttl)
    decreases i
  {
    if i > 0 { EntriesExact(q, i - 1); }
  }

  /** A quota of 200 keeps every summary whole. */
  lemma SummaryExact(q: Q.Queue)
    requires Q.QueueInv(q)
    ensures SummaryOf(q) == Entries(q, |q.order|) && |SummaryOf(q)| == |q.order| <= Q.MAX_TOTAL
    ensures forall j :: 0 <= j < |q.order| ==>
              q.order[j] in q.at &&
              SummaryOf(q)[j] == SummaryEntry(q.order[j], q.at[q.order[j]].envelope.header.ttl)
  {
    EntriesExact(q, |q.order|);
    SameSize(q);
  }

  /** A summary is listed as it should be exactly when everything held is listable. */
  lemma ListableExact(q: Q.Queue)
    requires Q.QueueInv(q)
    ensures (forall entry :: entry in SummaryOf(q) ==> Listable(entry)) <==> Sendable(q)
  {
    hide Listable, SummaryOf;
    SummaryExact(q);
    if forall entry :: entry in SummaryOf(q) ==> Listable(entry) {
      forall k | k in q.at ensures Listable(SummaryEntry(k, q.at[k].envelope.header.ttl)) {
        var j :| 0 <= j < |q.order| && q.order[j] == k;
        assert SummaryOf(q)[j] in SummaryOf(q);
      }
    }
  }

  lemma {:induction false} NotHeldExact(q: Q.Queue, entries: seq<SummaryEntry>, id: MessageId)
    ensures id in NotHeld(q, entries) <==> id !in q.at && exists j :: 0 <= j < |entries| && entries[j].id == id
  {
    if entries != [] {
      var last := |entries| - 1;
      NotHeldExact(q, entries[..last], id);
      if j :| 0 <= j < |entries| && entries[j].id == id {
        if j < last { assert entries[..last][j].id == id; }
      }
      if j :| 0 <= j < last && entries[..last][j].id == id { assert entries[j].id == id; }
    }
  }

  lemma {:induction false} NotHeldShorter(q: Q.Queue, entries: seq<SummaryEntry>)
    ensures |NotHeld(q, entries)| <= |entries|
  {
    if entries != [] { NotHeldShorter(q, entries[..|entries| - 1]); }
  }

  /** What is missing: exactly the ids of one queue that the other does not hold. */
  lemma MissingExact(other: Q.Queue, q: Q.Queue, id: MessageId)
    requires Q.QueueInv(q)
    ensures |Missing(other, SummaryOf(q))| <= Q.MAX_TOTAL
    ensures id in Missing(other, SummaryOf(q)) <==> id in q.at && id !in other.at
  {
    hide SummaryOf;
    SummaryExact(q);
    NotHeldShorter(other, SummaryOf(q));
    NotHeldExact(other, SummaryOf(q), id);
    if id in q.at {
      var j :| 0 <= j < |q.order| && q.order[j] == id;
      assert SummaryOf(q)[j].id == id;
    }
  }

  lemma {:induction false} WithIdsExact(q: Q.Queue, ids: set<MessageId>, i: nat, e: Envelope)
    requires Q.QueueInv(q) && i <= |q.order|
    ensures e in Q.WithIds(q, ids, i) <==>
            e.header.messageId in q.order[..i] && e.header.messageId in ids && q.at[e.header.messageId].envelope == e
  {
    hide Q.FromNeighbor;
    if i > 0 {
      WithIdsExact(q, ids, i - 1, e);
      assert q.order[..i] == q.order[..i - 1] + [q.order[i - 1]];
    }
  }

  lemma {:induction false} WithinLimitPart(envelopes: seq<Envelope>, lengths: Lengths, used: nat, e: Envelope)
    requires e in WithinLimit(envelopes, lengths, used)
    ensures e in envelopes
  {
    if e != envelopes[0] { WithinLimitPart(envelopes[1..], lengths, used + LengthOf(lengths, envelopes[0]), e); }
  }

  /** A round transfers only envelopes the sender holds and the neighbor does not. */
  lemma TransfersOnlyMissing(a: Q.Queue, b: Q.Queue, lengths: Lengths, now: nat, e: Envelope)
    requires Q.QueueInv(a) && e in Transferred(a, b, lengths, now)
    ensures var id, mine := e.header.messageId, Q.Purged(a, now);
            && id in mine.at && mine.at[id].envelope == e && id !in Q.Purged(b, now).at
  {
    hide Q.QueueInv, Q.WithIds, WithinLimit, Missing, Q.Purged, SummaryOf;
    var mine, theirs := Q.Purged(a, now), Q.Purged(b, now);
    Q.PurgedInv(a, now);
    var missing := Missing(theirs, SummaryOf(mine));
    var ids := set id | id in missing;
    var found := Q.WithIds(mine, ids, |mine.order|);
    WithinLimitPart(Take(found, MAX_SYNC_TRANSFER_ENVELOPES), lengths, 0, e);
    assert e in found;
    WithIdsExact(mine, ids, |mine.order|, e);
    MissingExact(theirs, mine, e.header.messageId);
  }

  lemma InOrder(q: Q.Queue, id: MessageId)
    requires Q.QueueInv(q)
    ensures id in q.order <==> id in q.at
  {
  }

  /** When something is missing, something is transferred. */
  lemma SomethingTransferred(a: Q.Queue, b: Q.Queue, lengths: Lengths, now: nat, id: MessageId)
    requires Q.QueueInv(a)
    requires forall k :: k in a.at ==> LengthOf(lengths, a.at[k].envelope) <= MAX_SYNC_TRANSFER_BYTES
    requires id in Q.Purged(a, now).at && id !in Q.Purged(b, now).at
    ensures Transferred(a, b, lengths, now) != []
  {
    hide Q.QueueInv, Q.WithIds, Missing, SummaryOf, LengthOf;
    var mine, theirs := Q.Purged(a, now), Q.Purged(b, now);
    Q.PurgedInv(a, now);
    InOrder(mine, id);
    MissingExact(theirs, mine, id);
    var missing := Missing(theirs, SummaryOf(mine));
    var ids := set x | x in missing;
    EntryId(mine, id);
    WithIdsExact(mine, ids, |mine.order|, mine.at[id].envelope);
    assert mine.order[..|mine.order|] == mine.order;
    var found := Q.WithIds(mine, ids, |mine.order|);
    var first := found[0];
    WithIdsExact(mine, ids, |mine.order|, first);
    assert first == Take(found, MAX_SYNC_TRANSFER_ENVELOPES)[0];
    InOrder(mine, first.header.messageId);
    assert first.header.messageId in mine.at;
  }

  lemma EntryId(q: Q.Queue, id: MessageId)
    requires Q.QueueInv(q) && id in q.at
    ensures q.at[id].envelope.header.messageId == id
  {
  }

  // ----- Receiving what can only be carried -----

  function StoreAll(q: Q.Queue, envelopes: seq<Envelope>, from: NeighborId, now: nat): Q.Queue {
    if envelopes == [] then q
    else Q.Store(StoreAll(q, envelopes[..|envelopes| - 1], from, now), envelopes[|envelopes| - 1], from, now).0
  }

  lemma CarriedIsStored(live: Node, q: Q.Queue, e: Envelope, from: NeighborId, now: nat, up: bool)
    requires PurgeRoutingState(live, now) == live && CarriesOnly(live, e) && ValidHeader(e.header, now)
    ensures Receive(live.(queue := q), e, Some(from), now, up).node == live.(queue := Q.Store(q, e, from, now).0)
  {
    assert e.header.ttl > 0;
    hide ValidHeader, Lookup, Q.Store, ExpiredIn, VerifyAck, Purged, DemoteOverdue, Restrict, TimelyAcks;
    assert PurgeRoutingState(live.(queue := q), now) == live.(queue := q);
    SameHop(live, q, e.header.destinationHint);
  }

  lemma SameHop(live: Node, q: Q.Queue, hint: Hint)
    ensures NextHop(live.(queue := q), hint) == NextHop(live, hint)
  {
  }

  /** The encodings fit the transfer limit, one after another. */
  predicate Fits(envelopes: seq<Envelope>, lengths: Lengths, used: nat) {
    envelopes != [] ==>
      used + LengthOf(lengths, envelopes[0]) <= MAX_SYNC_TRANSFER_BYTES &&
      Fits(envelopes[1..], lengths, used + LengthOf(lengths, envelopes[0]))
  }

  lemma {:induction false} WithinLimitFits(envelopes: seq<Envelope>, lengths: Lengths, used: nat)
    ensures Fits(WithinLimit(envelopes, lengths, used), lengths, used)
    ensures |WithinLimit(envelopes, lengths, used)| <= |envelopes|
  {
    hide LengthOf;
    if envelopes != [] && used + LengthOf(lengths, envelopes[0]) <= MAX_SYNC_TRANSFER_BYTES {
      WithinLimitFits(envelopes[1..], lengths, used + LengthOf(lengths, envelopes[0]));
      assert WithinLimit(envelopes, lengths, used)[1..]
          == WithinLimit(envelopes[1..], lengths, used + LengthOf(lengths, envelopes[0]));
    }
  }

  /** Wires of envelopes that can only be carried are stored one by one. */
  lemma {:induction false} AllAreStored(live: Node, seen: SeenSync, q: Q.Queue, e: Envelope, envelopes: seq<Envelope>,
          i: nat, total: nat, from: NeighborId, lengths: Lengths, now: nat, nested: seq<Answers>)
    requires PurgeRoutingState(live, now) == live && i <= |envelopes| && WiresOf(e) == Wires(envelopes, lengths)
    requires forall x :: x in envelopes ==> CarriesOnly(live, x) && ValidHeader(x.header, now)
    requires Fits(envelopes[i..], lengths, total)
    ensures AcceptWires(SyncNode(live.(queue := StoreAll(q, envelopes[..i], from, now)), seen), e, i, total, from,
                        lengths, now, nested).node
         == SyncNode(live.(queue := StoreAll(q, envelopes, from, now)), seen)
    decreases |envelopes| - i
  {
    hide Receive, CarriesOnly, ValidHeader, Q.Store, PurgeRoutingState, LengthOf, WiresOf;
    if i == |envelopes| {
      assert envelopes[..i] == envelopes;
    } else {
      var x, held := envelopes[i], StoreAll(q, envelopes[..i], from, now);
      assert WiresOf(e)[i] == Encoded(LengthOf(lengths, x), x);
      assert envelopes[..i + 1][..i] == envelopes[..i] && envelopes[i..][1..] == envelopes[i + 1..];
      CarriedIsUnicast(live, x);
      CarriedIsStored(live, held, x, from, now, AnswerAt(nested, i).up);
      AllAreStored(live, seen, q, e, envelopes, i + 1, total + LengthOf(lengths, x), from, lengths, now, nested);
    }
  }

  lemma CarriedIsUnicast(b: Node, e: Envelope)
    requires CarriesOnly(b, e)
    ensures e.header.packetType != STORE_FORWARD_SYNC
  {
  }

  // ----- What a round does to the neighbor's queue -----

  lemma StoreKeeps(q: Q.Queue, e: Envelope, from: NeighborId, now: nat)
    requires Q.QueueInv(q) && Q.Unexpired(q, now) == q.at.Keys
    ensures var next := Q.Store(q, e, from, now).0;
            && Q.QueueInv(next) && Q.Unexpired(next, now) == next.at.Keys
            && (forall k :: k in q.at ==> k in next.at && next.at[k] == q.at[k])
            && (forall k :: k in next.at && k !in q.at ==> next.at[k].envelope == e)
    ensures NoRoom(q, from) ==> Q.Store(q, e, from, now).0 == q
    ensures !NoRoom(q, from) && ValidHeader(e.header, now) ==> e.header.messageId in Q.Store(q, e, from, now).0.at
  {
    hide Q.QueueInv, ValidHeader, Q.Unexpired, Restrict, Q.FromNeighbor;
    Q.StoreKeepsInv(q, e, from, now);
    Q.StoreKeepsOthers(q, e, from, now);
    PurgedNoop(q, now);
  }

  lemma PurgedNoop(q: Q.Queue, now: nat)
    requires Q.QueueInv(q) && Q.Unexpired(q, now) == q.at.Keys
    ensures Q.Purged(q, now) == q
  {
    hide ValidHeader, Q.Unexpired, Only, Listed;
    Q.InvListed(q);
    RestrictAll(q, q.at.Keys);
  }

  lemma {:induction false} StoreAllKeeps(q: Q.Queue, envelopes: seq<Envelope>, from: NeighborId, now: nat)
    requires Q.QueueInv(q) && Q.Unexpired(q, now) == q.at.Keys
    ensures var next := StoreAll(q, envelopes, from, now);
            && Q.QueueInv(next) && Q.Unexpired(next, now) == next.at.Keys
            && (forall k :: k in q.at ==> k in next.at && next.at[k] == q.at[k])
            && (forall k :: k in next.at && k !in q.at ==> next.at[k].envelope in envelopes)
            && (NoRoom(q, from) ==> next == q)
            && (envelopes != [] && !NoRoom(q, from) && ValidHeader(envelopes[0].header, now) ==>
                  envelopes[0].header.messageId in next.at)
  {
    hide Q.QueueInv, ValidHeader, Q.Unexpired, Q.Store, NoRoom;
    if envelopes != [] {
      var i := |envelopes| - 1;
      var before := StoreAll(q, envelopes[..i], from, now);
      StoreAllKeeps(q, envelopes[..i], from, now);
      StoreKeeps(before, envelopes[i], from, now);
      assert envelopes == envelopes[..i] + [envelopes[i]];
      if |envelopes| == 1 { assert envelopes[..0] == []; }
    }
  }

  // ----- Routes do not appear by themselves -----

  lemma {:induction false} DemotedOrSame(routes: Routes, acks: PendingAcks, i: nat, now: int, h: Hint, m: NeighborId)
    requires i <= |acks.order| && HasRoute(DemoteOverdue(routes, acks, i, now), h, m)
    ensures HasRoute(routes, h, m)
    ensures var r := RouteAt(DemoteOverdue(routes, acks, i, now), h, m); r == RouteAt(routes, h, m) || r.expiresAt == 0
  {
    if i > 0 { DemotedOrSame(routes, acks, i - 1, now, h, m); }
  }

  /** A route that survives a purge of the routing state is unchanged. */
  lemma PurgeKeepsRoute(node: Node, now: nat, h: Hint, m: NeighborId)
    requires HasRoute(PurgeRoutingState(node, now).routes, h, m)
    ensures HasRoute(node.routes, h, m)
    ensures RouteAt(PurgeRoutingState(node, now).routes, h, m) == RouteAt(node.routes, h, m)
  {
    hide Purged, DemoteOverdue;
    var demoted := DemoteOverdue(node.routes, node.pendingAcks, |node.pendingAcks.order|, now);
    PurgedRoute(demoted, now, h, m);
    DemotedOrSame(node.routes, node.pendingAcks, |node.pendingAcks.order|, now, h, m);
  }

  lemma ChosenIsUsable(node: Node, h: Hint, m: NeighborId) returns (status: Status)
    requires NextHop(node, h) == Some(m)
    ensures Usable(CandidatesFor(node.routes, h), h, m, status, node.peers)
  {
    hide Usable, Best;
    var c := CandidatesFor(node.routes, h);
    var validated := Best(c, |c.order|, h, Validated, node.trust, node.peers);
    status := if validated.Some? then Validated else Probation;
    var i := BestFound(c, |c.order|, h, status, node.trust, node.peers);
  }

  lemma NoneChosen(node: Node, h: Hint, m: NeighborId, status: Status)
    requires NextHop(node, h) == None && m in CandidatesFor(node.routes, h).order
    ensures !Usable(CandidatesFor(node.routes, h), h, m, status, node.peers)
  {
    hide Usable, Best;
    var c := CandidatesFor(node.routes, h);
    var i := BestFound(c, |c.order|, h, status, node.trust, node.peers);
  }

  /** Where there was no next hop, a purge finds none. */
  lemma NoHopAppears(node: Node, now: nat, h: Hint)
    requires TableInv(node.routes) && NextHop(node, h) == None
    ensures NextHop(PurgeRoutingState(node, now), h) == None
  {
    hide Lookup, PurgeRoutingState, Matches;
    var live := PurgeRoutingState(node, now);
    SamePeers(node, now);
    var next := NextHop(live, h);
    if next.Some? {
      var status := ChosenIsUsable(live, h, next.value);
      PurgeKeepsRoute(node, now, h, next.value);
      NoneChosen(node, h, next.value, status);
    }
  }

  lemma SamePeers(node: Node, now: int)
    ensures var live := PurgeRoutingState(node, now);
            live.peers == node.peers && live.trust == node.trust && live.identity == node.identity
    ensures forall k :: k in PurgeRoutingState(node, now).pendingAcks.at ==> k in node.pendingAcks.at
  {
    hide Purged, DemoteOverdue, Only;
  }

  lemma StillCarried(b: Node, now: nat, e: Envelope, lengths: Lengths)
    requires TableInv(b.routes) && Carried(b, e, lengths)
    ensures Carried(PurgeRoutingState(b, now), e, lengths)
  {
    hide PurgeRoutingState, Lookup, VerifyAck, TableInv;
    SamePeers(b, now);
    NoHopAppears(b, now, e.header.destinationHint);
  }

  // ----- Packets between linked relays -----

  lemma NewPacketIsValid(node: Node, session: Session, random: Random, message: SyncMessage, now: nat)
    ensures ValidHeader(SyncEnvelope(node, session, random, message, now).header, now)
  {
  }

  lemma SealedOpens(identity: nat, s: Session, t: Session, nonce: Bytes, message: SyncMessage)
    requires Paired(s, t) && |nonce| == NONCE_LENGTH
    ensures OpenSync(SealSync(identity, s, nonce, message), t) == Some(SyncContent(identity, message))
  {
  }

  /** What handling a packet leaves of the record of packets. */
  function Noted(seen: SeenSync, identity: nat, payload: Payload, now: nat): SeenSync {
    Remembered(SeenRecently(seen, now), (identity, payload), now)
  }

  lemma NotedKeepsUnused(seen: SeenSync, identity: nat, payload: Payload, now: nat, nonce: Bytes)
    requires Unused(seen, nonce) && (payload.SyncPayload? ==> payload.nonce != nonce)
    ensures Unused(Noted(seen, identity, payload, now), nonce)
  {
    hide Only;
  }

  /** A packet from the peer, sealed under a fresh nonce, reaches the handler of its
      kind. */
  lemma PacketIsHandled(node: SyncNode, other: Node, n: NeighborId, session: Session, random: Random,
          message: SyncMessage, lengths: Lengths, now: nat, answers: Answers)
    requires SessionWith(node.relay, n).Some? && node.relay.peers.at[n].identity == other.identity
    requires Paired(session, SessionWith(node.relay, n).value)
    requires |random.nonce| == NONCE_LENGTH && Unused(node.seen, random.nonce)
    ensures var e := SyncEnvelope(other, session, random, message, now);
            var noted := SyncNode(PurgeRoutingState(node.relay, now),
                                  Noted(node.seen, other.identity, e.sealedPayload, now));
            ReceivePacket(node, e, Some(n), lengths, now, answers)
            == HandleMessage(noted, e, n, SessionWith(node.relay, n).value, message, lengths, now, answers)
  {
    hide HandleMessage, Remembered, ValidHeader, Only, OpenSync, SealSync;
    NewPacketIsValid(other, session, random, message, now);
    SamePeers(node.relay, now);
    hide PurgeRoutingState;
    var e := SyncEnvelope(other, session, random, message, now);
    SealedOpens(other.identity, session, SessionWith(node.relay, n).value, random.nonce, message);
    SealedNonce(other.identity, session, random.nonce, message);
    assert (other.identity, e.sealedPayload) !in SeenRecently(node.seen, now).at;
  }

  lemma SealedNonce(identity: nat, session: Session, nonce: Bytes, message: SyncMessage)
    ensures SealSync(identity, session, nonce, message).SyncPayload?
    ensures SealSync(identity, session, nonce, message).nonce == nonce
  {
  }

  /** A whole summary is refused exactly when it lists something that is not
      listable, and otherwise answered with a request for what is missing. */
  lemma SummaryIsAnswered(node: SyncNode, n: NeighborId, session: Session, q: Q.Queue, now: nat, answers: Answers)
    requires Q.QueueInv(q)
    ensures var s := AnswerSummary(node, n, session, SummaryOf(q), now, answers);
            var missing := Missing(Q.Purged(node.relay.queue, now), SummaryOf(q));
            if !Sendable(q) then s == SyncStep(node, NOTHING, Refused(InvalidSummary))
            else
              && s.outcome == Accepted
              && s.node == node.(relay := if q.order == [] then node.relay else Reading(node, now).relay)
              && s.effects.sent ==
                 if missing == [] || !answers.up then []
                 else [Transmission(n, SyncEnvelope(node.relay, session, answers.random, Request(missing), now))]
  {
    hide Sendable, Listable, SummaryOf, NotHeld, Q.Purged, ExpiredIn, SealSync;
    SummaryExact(q);
    ListableExact(q);
    if q.order == [] { NothingMissing(node.relay.queue, Q.Purged(node.relay.queue, now)); }
  }

  lemma NothingMissing(a: Q.Queue, b: Q.Queue)
    ensures Missing(a, []) == [] == Missing(b, [])
  {
  }

  lemma RequestIsAnswered(node: SyncNode, n: NeighborId, session: Session, ids: seq<MessageId>, lengths: Lengths,
          now: nat, answers: Answers)
    requires |ids| <= MAX_SYNC_REQUESTS && answers.up
    requires forall id :: id in ids ==> |id.bytes| == MESSAGE_ID_LENGTH
    ensures var s := AnswerRequest(node, n, session, ids, lengths, now, answers);
            var wires := Wires(Supplied(Q.Purged(node.relay.queue, now), ids, lengths), lengths);
            && s.outcome == Accepted && s.node == Reading(node, now)
            && s.effects.sent ==
               [Transmission(n, SyncEnvelope(node.relay, session, answers.random, Transfer(wires), now))]
  {
    hide Supplied, Wires, Q.Purged, ExpiredIn, SealSync;
  }

  lemma PurgedSendable(q: Q.Queue, now: nat)
    requires Sendable(q)
    ensures Sendable(Q.Purged(q, now))
  {
    hide Listable, ValidHeader;
  }

  /** What is asked for can be asked for. */
  lemma MissingIsProper(other: Q.Queue, q: Q.Queue)
    requires Q.QueueInv(q) && Sendable(q)
    ensures |Missing(other, SummaryOf(q))| <= MAX_SYNC_REQUESTS
    ensures forall id :: id in Missing(other, SummaryOf(q)) ==> |id.bytes| == MESSAGE_ID_LENGTH
  {
    hide SummaryOf, Q.QueueInv, Missing;
    MissingExact(other, q, MessageId([]));
    forall id | id in Missing(other, SummaryOf(q)) ensures |id.bytes| == MESSAGE_ID_LENGTH {
      MissingExact(other, q, id);
    }
  }

  // ----- The packets of a round -----

  function SummaryPacket(a: SyncNode, ends: Ends, m: Moment): Envelope
    requires SessionWith(a.relay, ends.receiver).Some?
  {
    SyncEnvelope(a.relay, SessionWith(a.relay, ends.receiver).value, m.draws.summary,
                 Summary(SummaryOf(Q.Purged(a.relay.queue, m.now))), m.now)
  }

  function RequestPacket(a: SyncNode, b: SyncNode, ends: Ends, m: Moment): Envelope
    requires SessionWith(b.relay, ends.sender).Some?
  {
    SyncEnvelope(b.relay, SessionWith(b.relay, ends.sender).value, m.draws.request,
                 Request(Missing(Q.Purged(b.relay.queue, m.now), SummaryOf(Q.Purged(a.relay.queue, m.now)))), m.now)
  }

  function TransferPacket(a: SyncNode, b: SyncNode, ends: Ends, lengths: Lengths, m: Moment): Envelope
    requires SessionWith(a.relay, ends.receiver).Some?
  {
    var mine := Q.Purged(a.relay.queue, m.now);
    var missing := Missing(Q.Purged(b.relay.queue, m.now), SummaryOf(mine));
    SyncEnvelope(a.relay, SessionWith(a.relay, ends.receiver).value, m.draws.transfer,
                 Transfer(Wires(Supplied(mine, missing, lengths), lengths)), m.now)
  }

  lemma StartedIs(a: SyncNode, ends: Ends, m: Moment)
    requires SessionWith(a.relay, ends.receiver).Some?
    ensures var (started, effects, ok) := InitiateSync(a, ends.receiver, m.draws.summary, m.now, true);
            && started == Reading(a, m.now) && ok
            && effects.sent == [Transmission(ends.receiver, SummaryPacket(a, ends, m))]
  {
    hide SummaryOf, Q.Purged, ExpiredIn, SealSync;
  }

  /** The neighbor after the summary. */
  ghost function Asking(a: SyncNode, b: SyncNode, ends: Ends, m: Moment): SyncNode
    requires SessionWith(a.relay, ends.receiver).Some?
  {
    var noted := SyncNode(PurgeRoutingState(b.relay, m.now),
                          Noted(b.seen, a.relay.identity, SummaryPacket(a, ends, m).sealedPayload, m.now));
    if Sendable(Q.Purged(a.relay.queue, m.now)) && Q.Purged(a.relay.queue, m.now).order != []
    then Reading(noted, m.now) else noted
  }

  lemma AskedIs(a: SyncNode, b: SyncNode, ends: Ends, lengths: Lengths, m: Moment)
    requires Q.QueueInv(a.relay.queue) && Linked(a.relay, b.relay, ends) && FreshFor(a, b, m.draws)
    ensures var s := ReceivePacket(b, SummaryPacket(a, ends, m), Some(ends.sender), lengths, m.now,
                                   Answers(true, m.draws.request, []));
            var mine := Q.Purged(a.relay.queue, m.now);
            && s.node == Asking(a, b, ends, m)
            && s.outcome == (if Sendable(mine) then Accepted else Refused(InvalidSummary))
            && s.effects.sent ==
               if !Sendable(mine) || Missing(Q.Purged(b.relay.queue, m.now), SummaryOf(mine)) == [] then []
               else [Transmission(ends.sender, RequestPacket(a, b, ends, m))]
  {
    hide Sendable, SummaryOf, Q.Purged, Missing, Q.QueueInv, AnswerSummary, ReceivePacket, Noted, PurgeQueue, SealSync;
    Q.PurgedInv(a.relay.queue, m.now);
    var mine, now := Q.Purged(a.relay.queue, m.now), m.now;
    var answers := Answers(true, m.draws.request, []);
    PacketIsHandled(b, a.relay, ends.sender, SessionWith(a.relay, ends.receiver).value, m.draws.summary,
                    Summary(SummaryOf(mine)), lengths, now, answers);
    SamePeers(b.relay, now);
    PurgingKeepsQueue(b.relay, now);
    hide PurgeRoutingState;
    var noted := SyncNode(PurgeRoutingState(b.relay, now),
                          Noted(b.seen, a.relay.identity, SummaryPacket(a, ends, m).sealedPayload, now));
    SummaryIsAnswered(noted, ends.sender, SessionWith(b.relay, ends.sender).value, mine, now, answers);
  }

  lemma PurgingKeepsQueue(node: Node, now: int)
    ensures PurgeRoutingState(node, now).queue == node.queue
  {
  }

  /** The sender after the request. */
  function Answering(a: SyncNode, b: SyncNode, ends: Ends, m: Moment): SyncNode
    requires SessionWith(b.relay, ends.sender).Some?
  {
    SyncNode(PurgeRoutingState(a.relay, m.now).(queue := Q.Purged(a.relay.queue, m.now)),
             Noted(a.seen, b.relay.identity, RequestPacket(a, b, ends, m).sealedPayload, m.now))
  }

  lemma AnsweredIs(a: SyncNode, b: SyncNode, ends: Ends, lengths: Lengths, m: Moment)
    requires Q.QueueInv(a.relay.queue) && Sendable(Q.Purged(a.relay.queue, m.now))
    requires Linked(a.relay, b.relay, ends) && FreshFor(a, b, m.draws)
    ensures var s := ReceivePacket(Reading(a, m.now), RequestPacket(a, b, ends, m), Some(ends.receiver), lengths,
                                   m.now, Answers(true, m.draws.transfer, []));
            && s.node == Answering(a, b, ends, m) && s.outcome == Accepted
            && s.effects.sent == [Transmission(ends.receiver, TransferPacket(a, b, ends, lengths, m))]
  {
    hide Sendable, SummaryOf, Q.Purged, Missing, Q.QueueInv, AnswerRequest, ReceivePacket, Noted, SealSync, Supplied,
        Wires;
    Q.PurgedInv(a.relay.queue, m.now);
    var mine, now := Q.Purged(a.relay.queue, m.now), m.now;
    var missing := Missing(Q.Purged(b.relay.queue, now), SummaryOf(mine));
    var answers := Answers(true, m.draws.transfer, []);
    var started := Reading(a, now);
    PacketIsHandled(started, b.relay, ends.receiver, SessionWith(b.relay, ends.sender).value, m.draws.request,
                    Request(missing), lengths, now, answers);
    MissingIsProper(Q.Purged(b.relay.queue, now), mine);
    SamePeers(started.relay, now);
    PurgingAside(a.relay, mine, now);
    hide PurgeRoutingState;
    var noted := SyncNode(PurgeRoutingState(started.relay, now),
                          Noted(a.seen, b.relay.identity, RequestPacket(a, b, ends, m).sealedPayload, now));
    RequestIsAnswered(noted, ends.receiver, SessionWith(a.relay, ends.receiver).value, missing, lengths, now, answers);
  }

  lemma PurgingAside(node: Node, q: Q.Queue, now: int)
    ensures PurgeRoutingState(node.(queue := q), now) == PurgeRoutingState(node, now).(queue := q)
  {
  }

  /** The neighbor after the transfer. */
  ghost function Receiving(a: SyncNode, b: SyncNode, ends: Ends, lengths: Lengths, m: Moment): SyncNode
    requires SessionWith(a.relay, ends.receiver).Some?
  {
    var stored := StoreAll(Q.Purged(b.relay.queue, m.now), Transferred(a.relay.queue, b.relay.queue, lengths, m.now),
        ends.sender, m.now);
    SyncNode(PurgeRoutingState(b.relay, m.now).(queue := stored),
             Noted(Asking(a, b, ends, m).seen, a.relay.identity,
                   TransferPacket(a, b, ends, lengths, m).sealedPayload, m.now))
  }

  lemma {:induction false} SuppliedFits(q: Q.Queue, ids: seq<MessageId>, lengths: Lengths)
    ensures Fits(Supplied(q, ids, lengths), lengths, 0) && |Supplied(q, ids, lengths)| <= MAX_SYNC_TRANSFER_ENVELOPES
  {
    hide Q.WithIds, Fits, WithinLimit;
    var requested := set id | id in ids;
    WithinLimitFits(Take(Q.WithIds(q, requested, |q.order|), MAX_SYNC_TRANSFER_ENVELOPES), lengths, 0);
  }

  /** Everything transferred can only be carried, and is valid. */
  lemma TransferredAreCarried(a: Node, b: Node, ends: Ends, lengths: Lengths, now: nat, e: Envelope)
    requires Setting(a, b, ends, lengths) && e in Transferred(a.queue, b.queue, lengths, now)
    ensures CarriesOnly(PurgeRoutingState(b, now), e) && ValidHeader(e.header, now)
  {
    hide Q.QueueInv, ValidHeader, Q.Purged, CarriesOnly, PurgeRoutingState, Transferred, SameMessages, TableInv,
        Linked, Sendable;
    TransfersOnlyMissing(a.queue, b.queue, lengths, now, e);
    StillValid(a.queue, now, e.header.messageId);
    StillCarried(b, now, e, lengths);
  }

  lemma StillValid(q: Q.Queue, now: nat, id: MessageId)
    requires id in Q.Purged(q, now).at
    ensures id in q.at && Q.Purged(q, now).at[id] == q.at[id] && ValidHeader(q.at[id].envelope.header, now)
  {
    hide ValidHeader;
  }

  lemma AskingHolds(a: SyncNode, b: SyncNode, ends: Ends, m: Moment)
    requires SessionWith(a.relay, ends.receiver).Some? && Sendable(Q.Purged(a.relay.queue, m.now))
    requires Q.Purged(a.relay.queue, m.now).order != []
    ensures Asking(a, b, ends, m).relay
         == PurgeRoutingState(b.relay, m.now).(queue := Q.Purged(b.relay.queue, m.now))
  {
    hide Q.Purged, Sendable, ExpiredIn;
    PurgingKeepsQueue(b.relay, m.now);
  }

  lemma DoneIs(a: SyncNode, b: SyncNode, ends: Ends, lengths: Lengths, m: Moment)
    requires Setting(a.relay, b.relay, ends, lengths) && FreshFor(a, b, m.draws)
    requires Missing(Q.Purged(b.relay.queue, m.now), SummaryOf(Q.Purged(a.relay.queue, m.now))) != []
    ensures ReceivePacket(Asking(a, b, ends, m), TransferPacket(a, b, ends, lengths, m), Some(ends.sender), lengths,
                          m.now, Answers(true, m.draws.request, m.nested)).node
         == Receiving(a, b, ends, lengths, m)
  {
    hide SummaryOf, Q.Purged, Missing, Q.QueueInv, ReceivePacket, Noted, SealSync, Supplied, TableInv, SameMessages,
        Carried, Sendable, Asking, StoreAll;
    var now := m.now;
    var mine, theirs := Q.Purged(a.relay.queue, now), Q.Purged(b.relay.queue, now);
    var es, live := Transferred(a.relay.queue, b.relay.queue, lengths, now), PurgeRoutingState(b.relay, now);
    var asking, packet := Asking(a, b, ends, m), TransferPacket(a, b, ends, lengths, m);
    var answers := Answers(true, m.draws.request, m.nested);
    PurgedSendable(a.relay.queue, now);
    if mine.order == [] { NothingListed(mine, theirs); }
    AskingHolds(a, b, ends, m);
    AskingSeen(a, b, ends, m);
    SamePeers(b.relay, now);
    PurgeRoutingTwice(b.relay, now);
    PurgingAside(live, theirs, now);
    hide PurgeRoutingState;
    PacketIsHandled(asking, a.relay, ends.sender, SessionWith(a.relay, ends.receiver).value, m.draws.transfer,
                    Transfer(Wires(es, lengths)), lengths, now, answers);
    SuppliedFits(mine, Missing(theirs, SummaryOf(mine)), lengths);
    forall x | x in es ensures CarriesOnly(live, x) && ValidHeader(x.header, now) {
      TransferredAreCarried(a.relay, b.relay, ends, lengths, now, x);
    }
    assert es[0..] == es && es[..0] == [];
    TransferHolds(a, b, ends, lengths, m);
    AllAreStored(live, Receiving(a, b, ends, lengths, m).seen, theirs, packet, es, 0, 0, ends.sender, lengths, now,
                 m.nested);
    NothingStored(theirs, ends.sender, now);
  }

  lemma NothingStored(q: Q.Queue, from: NeighborId, now: nat)
    ensures StoreAll(q, [], from, now) == q
  {
  }

  lemma TransferHolds(a: SyncNode, b: SyncNode, ends: Ends, lengths: Lengths, m: Moment)
    requires SessionWith(a.relay, ends.receiver).Some?
    requires Missing(Q.Purged(b.relay.queue, m.now), SummaryOf(Q.Purged(a.relay.queue, m.now))) != []
    ensures WiresOf(TransferPacket(a, b, ends, lengths, m))
         == Wires(Transferred(a.relay.queue, b.relay.queue, lengths, m.now), lengths)
  {
    hide SummaryOf, Missing, Supplied, Q.Purged, Wires;
  }

  lemma NothingListed(q: Q.Queue, other: Q.Queue)
    requires q.order == []
    ensures Missing(other, SummaryOf(q)) == []
  {
  }

  /** The neighbor's record after the summary: the transfer's nonce is still new. */
  lemma AskingSeen(a: SyncNode, b: SyncNode, ends: Ends, m: Moment)
    requires SessionWith(a.relay, ends.receiver).Some? && FreshFor(a, b, m.draws)
    ensures Unused(Asking(a, b, ends, m).seen, m.draws.transfer.nonce)
  {
    hide Unused, Noted, SummaryOf, Q.Purged, Sendable;
    NotedKeepsUnused(b.seen, a.relay.identity, SummaryPacket(a, ends, m).sealedPayload, m.now, m.draws.transfer.nonce);
  }

  // ----- Rounds -----

  /** What a round comes to: a summary that is refused or leaves nothing to ask for
      ends it, and else all three packets take effect. */
  lemma RoundIs(a: SyncNode, b: SyncNode, ends: Ends, lengths: Lengths, m: Moment)
    requires Setting(a.relay, b.relay, ends, lengths) && FreshFor(a, b, m.draws)
    ensures Round(a, b, ends, lengths, m) ==
            if Missing(Q.Purged(b.relay.queue, m.now), SummaryOf(Q.Purged(a.relay.queue, m.now))) == []
            then (Reading(a, m.now), Asking(a, b, ends, m))
            else (Answering(a, b, ends, m), Receiving(a, b, ends, lengths, m))
  {
    hide InitiateSync, ReceivePacket, SummaryPacket, RequestPacket, TransferPacket, Asking, Answering, Receiving,
        Reading, Missing, SummaryOf, Q.Purged, Q.QueueInv, TableInv, SameMessages, Carried, Sendable, FreshFor;
    StartedIs(a, ends, m);
    AskedIs(a, b, ends, lengths, m);
    PurgedSendable(a.relay.queue, m.now);
    if Missing(Q.Purged(b.relay.queue, m.now), SummaryOf(Q.Purged(a.relay.queue, m.now))) != [] {
      AnsweredIs(a, b, ends, lengths, m);
      DoneIs(a, b, ends, lengths, m);
    }
  }

  /** A round changes nothing of the neighbor but its routing state, which is purged,
      and its queue, into which it offers exactly what was transferred; a queue of
      which nothing was listed is not even read. */
  lemma RoundStores(a: SyncNode, b: SyncNode, ends: Ends, lengths: Lengths, m: Moment)
    requires Setting(a.relay, b.relay, ends, lengths) && FreshFor(a, b, m.draws)
    ensures Round(a, b, ends, lengths, m).1.relay ==
            PurgeRoutingState(b.relay, m.now).(queue :=
              if Q.Purged(a.relay.queue, m.now).order == [] then b.relay.queue
              else StoreAll(Q.Purged(b.relay.queue, m.now),
                            Transferred(a.relay.queue, b.relay.queue, lengths, m.now), ends.sender, m.now))
  {
    hide Missing, SummaryOf, Q.Purged, Q.QueueInv, TableInv, SameMessages, Carried, Sendable, FreshFor, Supplied,
        StoreAll, Noted, SummaryPacket, TransferPacket, Round, ExpiredIn;
    RoundIs(a, b, ends, lengths, m);
    var mine, theirs := Q.Purged(a.relay.queue, m.now), Q.Purged(b.relay.queue, m.now);
    PurgedSendable(a.relay.queue, m.now);
    PurgingKeepsQueue(b.relay, m.now);
    hide PurgeRoutingState;
    if mine.order == [] { NothingListed(mine, theirs); } else { AskingHolds(a, b, ends, m); }
    NothingStored(theirs, ends.sender, m.now);
  }

  /** The sender's queue loses nothing but what expired; the rest of it is as a purge
      of its routing state leaves it, or untouched when nothing was asked of it. */
  lemma SenderKeepsQueue(a: SyncNode, b: SyncNode, ends: Ends, lengths: Lengths, m: Moment)
    requires Setting(a.relay, b.relay, ends, lengths) && FreshFor(a, b, m.draws)
    ensures var x := Round(a, b, ends, lengths, m).0.relay;
            && x.queue == Q.Purged(a.relay.queue, m.now)
            && (x == a.relay.(queue := x.queue) || x == PurgeRoutingState(a.relay, m.now).(queue := x.queue))
  {
    hide Missing, SummaryOf, Q.Purged, Q.QueueInv, TableInv, SameMessages, Carried, Sendable, FreshFor,
        Noted, RequestPacket, Round, ExpiredIn, PurgeRoutingState;
    RoundIs(a, b, ends, lengths, m);
  }

  /** A nonce not drawn for a round is as new after it as before. */
  lemma RoundKeepsUnused(a: SyncNode, b: SyncNode, ends: Ends, lengths: Lengths, m: Moment, nonce: Bytes)
    requires Setting(a.relay, b.relay, ends, lengths) && FreshFor(a, b, m.draws) && nonce !in Nonces(m.draws)
    ensures Unused(a.seen, nonce) ==> Unused(Round(a, b, ends, lengths, m).0.seen, nonce)
    ensures Unused(b.seen, nonce) ==> Unused(Round(a, b, ends, lengths, m).1.seen, nonce)
  {
    hide Missing, SummaryOf, Q.Purged, Q.QueueInv, TableInv, SameMessages, Carried, Sendable, FreshFor, Noted, Round,
        ExpiredIn, PurgeRoutingState, Unused, Supplied, Wires, StoreAll;
    RoundIs(a, b, ends, lengths, m);
    var asking := Asking(a, b, ends, m);
    if Unused(a.seen, nonce) {
      NotedKeepsUnused(a.seen, b.relay.identity, RequestPacket(a, b, ends, m).sealedPayload, m.now, nonce);
    }
    if Unused(b.seen, nonce) {
      NotedKeepsUnused(b.seen, a.relay.identity, SummaryPacket(a, ends, m).sealedPayload, m.now, nonce);
      NotedKeepsUnused(asking.seen, a.relay.identity, TransferPacket(a, b, ends, lengths, m).sealedPayload, m.now,
                       nonce);
    }
  }

  /** What is valid at a, and not at b, b does not have at all. */
  lemma StillMissing(a: Q.Queue, b: Q.Queue, now: nat, k: MessageId)
    requires SameMessages(a, b) && k in Q.Purged(a, now).at && k !in Q.Purged(b, now).at
    ensures k in a.at && k !in b.at
  {
    hide Only;
  }

  lemma MessagesStayTheSame(a: Q.Queue, b: Q.Queue, lengths: Lengths, now: nat, next: Q.Queue)
    requires Q.QueueInv(a) && SameMessages(a, b) && Q.QueueInv(next)
    requires forall k :: k in next.at && k !in Q.Purged(b, now).at ==>
               next.at[k].envelope in Transferred(a, b, lengths, now)
    requires forall k :: k in Q.Purged(b, now).at ==> k in next.at && next.at[k] == Q.Purged(b, now).at[k]
    ensures SameMessages(Q.Purged(a, now), next)
  {
    hide Q.QueueInv, Q.Purged, Transferred, ValidHeader;
    var mine := Q.Purged(a, now);
    forall k | k in mine.at && k in next.at ensures AgeAlike(mine.at[k].envelope.header, next.at[k].envelope.header) {
      StillValid(a, now, k);
      if k in Q.Purged(b, now).at {
        StillValid(b, now, k);
      } else {
        EntryId(next, k);
        TransfersOnlyMissing(a, b, lengths, now, next.at[k].envelope);
      }
    }
  }

  lemma CarriedAside(b: Node, q: Q.Queue, e: Envelope, lengths: Lengths)
    ensures Carried(b.(queue := q), e, lengths) == Carried(b, e, lengths)
  {
    hide Unicast, VerifyAck;
  }

  lemma LinkedAside(a: Node, b: Node, ends: Ends, now: int, x: Node, y: Node)
    requires Linked(a, b, ends)
    requires x == a.(queue := x.queue) || x == PurgeRoutingState(a, now).(queue := x.queue)
    requires y == PurgeRoutingState(b, now).(queue := y.queue)
    ensures Linked(x, y, ends)
  {
    SamePeers(a, now);
    SamePeers(b, now);
    hide PurgeRoutingState;
  }

  lemma SettingKept(a: Node, b: Node, ends: Ends, lengths: Lengths, now: nat, x: Node, y: Node)
    requires Setting(a, b, ends, lengths)
    requires x == a.(queue := x.queue) || x == PurgeRoutingState(a, now).(queue := x.queue)
    requires x.queue == Q.Purged(a.queue, now) && y == PurgeRoutingState(b, now).(queue := y.queue)
    requires Q.QueueInv(y.queue) && SameMessages(x.queue, y.queue)
    ensures Setting(x, y, ends, lengths)
  {
    hide Q.QueueInv, Q.Purged, PurgeRoutingState, Carried, SameMessages, TableInv, Linked, Sendable;
    var live := PurgeRoutingState(b, now);
    PurgedTable(b, now);
    Q.PurgedInv(a.queue, now);
    LinkedAside(a, b, ends, now, x, y);
    PurgedSendable(a.queue, now);
    forall k | k in x.queue.at ensures Carried(y, x.queue.at[k].envelope, lengths) {
      StillValid(a.queue, now, k);
      StillCarried(b, now, a.queue.at[k].envelope, lengths);
      CarriedAside(live, y.queue, a.queue.at[k].envelope, lengths);
    }
  }

  /** Where nothing was listed there is nothing to compare. */
  lemma EmptyQueue(q: Q.Queue, other: Q.Queue)
    requires Q.QueueInv(q) && q.order == []
    ensures q.at == map[] && SameMessages(q, other)
  {
    forall k ensures k !in q.at { InOrder(q, k); }
  }

  /** What a round leaves in the neighbor's queue. */
  lemma NeighborHolds(a: SyncNode, b: SyncNode, ends: Ends, lengths: Lengths, m: Moment)
    requires Setting(a.relay, b.relay, ends, lengths) && FreshFor(a, b, m.draws)
    ensures var theirs, next := Q.Purged(b.relay.queue, m.now), Round(a, b, ends, lengths, m).1.relay.queue;
            && Q.QueueInv(next) && SameMessages(Q.Purged(a.relay.queue, m.now), next)
            && theirs.at.Keys <= next.at.Keys
            && (Settled(a.relay.queue, b.relay.queue, ends.sender, m.now) ==> next == theirs || next == b.relay.queue)
  {
    hide Q.QueueInv, Q.Purged, PurgeRoutingState, Transferred, StoreAll, Carried, NoRoom, ValidHeader, Q.Unexpired,
        SameMessages, TableInv, Round, Linked, Sendable, FreshFor;
    RoundStores(a, b, ends, lengths, m);
    var now := m.now;
    var sent, mine, theirs := Transferred(a.relay.queue, b.relay.queue, lengths, now), Q.Purged(a.relay.queue, now),
        Q.Purged(b.relay.queue, now);
    Q.PurgedInv(a.relay.queue, now);
    Q.PurgedInv(b.relay.queue, now);
    PurgedPart(b.relay.queue, now);
    if mine.order == [] {
      EmptyQueue(mine, b.relay.queue);
    } else {
      var next := StoreAll(theirs, sent, ends.sender, now);
      StoreAllKeeps(theirs, sent, ends.sender, now);
      MessagesStayTheSame(a.relay.queue, b.relay.queue, lengths, now, next);
      if sent == [] {
        NothingStored(theirs, ends.sender, now);
      } else {
        TransfersOnlyMissing(a.relay.queue, b.relay.queue, lengths, now, sent[0]);
      }
    }
  }

  lemma PurgedPart(q: Q.Queue, now: nat)
    ensures Q.Purged(q, now).at.Keys <= q.at.Keys
  {
    hide ValidHeader, Only;
  }

  /** One round: the neighbor keeps what it held; if all is settled already nothing
      else happens; and unless it has no room it lacks nothing or fewer envelopes. */
  lemma RoundProgress(a: SyncNode, b: SyncNode, ends: Ends, lengths: Lengths, m: Moment)
    requires Setting(a.relay, b.relay, ends, lengths) && FreshFor(a, b, m.draws)
    ensures var (x, y) := Round(a, b, ends, lengths, m);
            && Setting(x.relay, y.relay, ends, lengths)
            && Q.Purged(b.relay.queue, m.now).at.Keys <= y.relay.queue.at.Keys
            && (Settled(a.relay.queue, b.relay.queue, ends.sender, m.now) ==>
                  y.relay.queue == Q.Purged(b.relay.queue, m.now) || y.relay.queue == b.relay.queue)
            && Lacking(x.relay, y.relay) <= Lacking(a.relay, b.relay)
            && (!NoRoom(Q.Purged(b.relay.queue, m.now), ends.sender) ==>
                  Lacking(x.relay, y.relay) == {} || |Lacking(x.relay, y.relay)| < |Lacking(a.relay, b.relay)|)
  {
    hide Q.QueueInv, Q.Purged, PurgeRoutingState, Carried, NoRoom, SameMessages, TableInv, Round, Linked, Sendable,
        FreshFor, Settled, StoreAll, Transferred;
    var (x, y) := Round(a, b, ends, lengths, m);
    RoundStores(a, b, ends, lengths, m);
    SenderKeepsQueue(a, b, ends, lengths, m);
    NeighborHolds(a, b, ends, lengths, m);
    SettingKept(a.relay, b.relay, ends, lengths, m.now, x.relay, y.relay);
    LackingLess(a, b, ends, lengths, m, x.relay, y.relay);
  }

  lemma LackingLess(a: SyncNode, b: SyncNode, ends: Ends, lengths: Lengths, m: Moment, x: Node, y: Node)
    requires Setting(a.relay, b.relay, ends, lengths)
    requires x.queue == Q.Purged(a.relay.queue, m.now) && Q.Purged(b.relay.queue, m.now).at.Keys <= y.queue.at.Keys
    requires x.queue.order != [] ==>
               y.queue == StoreAll(Q.Purged(b.relay.queue, m.now),
                                   Transferred(a.relay.queue, b.relay.queue, lengths, m.now), ends.sender, m.now)
    ensures Lacking(x, y) <= Lacking(a.relay, b.relay)
    ensures !NoRoom(Q.Purged(b.relay.queue, m.now), ends.sender) ==>
              Lacking(x, y) == {} || |Lacking(x, y)| < |Lacking(a.relay, b.relay)|
  {
    hide Q.QueueInv, Q.Purged, Transferred, StoreAll, Carried, NoRoom, ValidHeader, Q.Unexpired, SameMessages, TableInv,
        Linked, Sendable;
    var now := m.now;
    var sent, mine, theirs := Transferred(a.relay.queue, b.relay.queue, lengths, now), Q.Purged(a.relay.queue, now),
        Q.Purged(b.relay.queue, now);
    Q.PurgedInv(a.relay.queue, now);
    Q.PurgedInv(b.relay.queue, now);
    forall k | k in mine.at && k !in theirs.at ensures k in Lacking(a.relay, b.relay) {
      StillMissing(a.relay.queue, b.relay.queue, now, k);
    }
    if mine.order == [] {
      EmptyQueue(mine, y.queue);
    } else if id :| id in mine.at && id !in theirs.at {
      StoreAllKeeps(theirs, sent, ends.sender, now);
      LimitsHold(a.relay, b.relay, ends, lengths);
      SomethingTransferred(a.relay.queue, b.relay.queue, lengths, now, id);
      TransfersOnlyMissing(a.relay.queue, b.relay.queue, lengths, now, sent[0]);
      StillValid(a.relay.queue, now, sent[0].header.messageId);
      if !NoRoom(theirs, ends.sender) {
        var first := sent[0].header.messageId;
        assert first in Lacking(a.relay, b.relay) && first in y.queue.at;
        FiniteSets.SmallerSubset(Lacking(x, y), Lacking(a.relay, b.relay) - {first});
      }
    }
  }

  lemma LimitsHold(a: Node, b: Node, ends: Ends, lengths: Lengths)
    requires Setting(a, b, ends, lengths)
    ensures forall k :: k in a.queue.at ==> LengthOf(lengths, a.queue.at[k].envelope) <= MAX_SYNC_TRANSFER_BYTES
  {
    hide Q.QueueInv, SameMessages, TableInv, Linked, Sendable, LengthOf, CarriesOnly;
    forall k | k in a.queue.at ensures LengthOf(lengths, a.queue.at[k].envelope) <= MAX_SYNC_TRANSFER_BYTES {
      assert Carried(b, a.queue.at[k].envelope, lengths);
    }
  }

  // ----- Any number of rounds -----

  /** Round i found the neighbor's queue without room. */
  ghost predicate FullAt(a: SyncNode, b: SyncNode, ends: Ends, lengths: Lengths, ms: seq<Moment>, i: nat)
    requires i < |ms|
  {
    NoRoom(Q.Purged(Rounds(a, b, ends, lengths, ms[..i]).1.relay.queue, ms[i].now), ends.sender)
  }

  ghost predicate EverFull(a: SyncNode, b: SyncNode, ends: Ends, lengths: Lengths, ms: seq<Moment>) {
    exists i :: 0 <= i < |ms| && FullAt(a, b, ends, lengths, ms, i)
  }

  lemma FullNow(a: SyncNode, b: SyncNode, ends: Ends, lengths: Lengths, ms: seq<Moment>)
    requires ms != []
    ensures EverFull(a, b, ends, lengths, ms[..|ms| - 1]) ==> EverFull(a, b, ends, lengths, ms)
    ensures var last := |ms| - 1;
            NoRoom(Q.Purged(Rounds(a, b, ends, lengths, ms[..last]).1.relay.queue, ms[last].now), ends.sender) ==>
              EverFull(a, b, ends, lengths, ms)
  {
    hide Rounds, NoRoom, Q.Purged;
    var before, last := ms[..|ms| - 1], |ms| - 1;
    if EverFull(a, b, ends, lengths, before) {
      var i :| 0 <= i < |before| && FullAt(a, b, ends, lengths, before, i);
      assert before[..i] == ms[..i];
      assert FullAt(a, b, ends, lengths, ms, i);
    }
    if NoRoom(Q.Purged(Rounds(a, b, ends, lengths, before).1.relay.queue, ms[last].now), ends.sender) {
      assert FullAt(a, b, ends, lengths, ms, last);
    }
  }

  lemma FreshPrefix(a: SyncNode, b: SyncNode, ms: seq<Moment>)
    requires FreshRounds(a, b, ms) && ms != []
    ensures var last := |ms| - 1;
            && FreshRounds(a, b, ms[..last]) && FreshFor(a, b, ms[last].draws)
            && forall i :: 0 <= i < last ==> Nonces(ms[i].draws) !! Nonces(ms[last].draws)
  {
    hide FreshFor, Nonces;
    var before := ms[..|ms| - 1];
    forall i | 0 <= i < |before| ensures FreshFor(a, b, before[i].draws) { assert before[i] == ms[i]; }
    forall i, j | 0 <= i < j < |before| ensures Nonces(before[i].draws) !! Nonces(before[j].draws) {
      assert before[i] == ms[i] && before[j] == ms[j];
    }
  }

  ghost predicate Drawn(ms: seq<Moment>, nonce: Bytes) {
    exists i :: 0 <= i < |ms| && nonce in Nonces(ms[i].draws)
  }

  lemma DrawnOnce(ms: seq<Moment>, nonce: Bytes)
    requires ms != []
    requires forall i :: 0 <= i < |ms| - 1 ==> Nonces(ms[i].draws) !! Nonces(ms[|ms| - 1].draws)
    ensures Drawn(ms, nonce) <==> Drawn(ms[..|ms| - 1], nonce) || nonce in Nonces(ms[|ms| - 1].draws)
    ensures nonce in Nonces(ms[|ms| - 1].draws) ==> !Drawn(ms[..|ms| - 1], nonce)
  {
    hide Nonces;
    var before := ms[..|ms| - 1];
    if Drawn(ms, nonce) {
      var i :| 0 <= i < |ms| && nonce in Nonces(ms[i].draws);
      if i < |ms| - 1 { assert nonce in Nonces(before[i].draws); }
    }
    if Drawn(before, nonce) {
      var i :| 0 <= i < |before| && nonce in Nonces(before[i].draws);
      assert nonce in Nonces(ms[i].draws);
    }
  }

  /** Rounds keep what they assume, and the nonces not drawn in them new. */
  lemma {:induction false} RoundsKeep(a: SyncNode, b: SyncNode, ends: Ends, lengths: Lengths, ms: seq<Moment>,
          nonce: Bytes)
    requires Setting(a.relay, b.relay, ends, lengths) && FreshRounds(a, b, ms)
    ensures var (x, y) := Rounds(a, b, ends, lengths, ms);
            && Setting(x.relay, y.relay, ends, lengths)
            && (!Drawn(ms, nonce) && Unused(a.seen, nonce) ==> Unused(x.seen, nonce))
            && (!Drawn(ms, nonce) && Unused(b.seen, nonce) ==> Unused(y.seen, nonce))
    decreases |ms|, 1
  {
    hide Round, NoRoom, Setting, Lacking, FreshRounds, FreshFor, Settled, Nonces, Unused, Drawn, Q.Purged;
    if ms != [] {
      var before, last := ms[..|ms| - 1], ms[|ms| - 1];
      FreshPrefix(a, b, ms);
      var (x, y) := Rounds(a, b, ends, lengths, before);
      RoundsKeep(a, b, ends, lengths, before, nonce);
      NextIsFresh(a, b, ends, lengths, ms);
      RoundProgress(x, y, ends, lengths, last);
      DrawnOnce(ms, nonce);
      if !Drawn(ms, nonce) { RoundKeepsUnused(x, y, ends, lengths, last, nonce); }
    }
  }

  /** The last round's nonces are new to both sides as they are by then. */
  lemma {:induction false} NextIsFresh(a: SyncNode, b: SyncNode, ends: Ends, lengths: Lengths, ms: seq<Moment>)
    requires Setting(a.relay, b.relay, ends, lengths) && FreshRounds(a, b, ms) && ms != []
    ensures var (x, y) := Rounds(a, b, ends, lengths, ms[..|ms| - 1]); FreshFor(x, y, ms[|ms| - 1].draws)
    decreases |ms|, 0
  {
    hide Rounds, Setting, FreshRounds, FreshFor, Nonces, Unused, Drawn;
    var before, d := ms[..|ms| - 1], ms[|ms| - 1].draws;
    var (x, y) := Rounds(a, b, ends, lengths, before);
    FreshPrefix(a, b, ms);
    forall nonce | nonce in Nonces(d)
      ensures Unused(a.seen, nonce) ==> Unused(x.seen, nonce)
      ensures Unused(b.seen, nonce) ==> Unused(y.seen, nonce)
    {
      DrawnOnce(ms, nonce);
      RoundsKeep(a, b, ends, lengths, before, nonce);
    }
    StillFresh(a, b, x, y, d);
  }

  lemma StillFresh(a: SyncNode, b: SyncNode, x: SyncNode, y: SyncNode, d: Draws)
    requires FreshFor(a, b, d)
    requires forall nonce :: nonce in Nonces(d) ==>
               (Unused(a.seen, nonce) ==> Unused(x.seen, nonce)) && (Unused(b.seen, nonce) ==> Unused(y.seen, nonce))
    ensures FreshFor(x, y, d)
  {
    hide Unused, Nonces;
  }

  /** Over rounds at any instants, what the neighbor lacks never grows, and shrinks
      with every round until it is nothing or a round finds the neighbor full. */
  lemma {:induction false} LackingShrinks(a: SyncNode, b: SyncNode, ends: Ends, lengths: Lengths, ms: seq<Moment>)
    requires Setting(a.relay, b.relay, ends, lengths) && FreshRounds(a, b, ms)
    ensures var (x, y) := Rounds(a, b, ends, lengths, ms);
            && Setting(x.relay, y.relay, ends, lengths)
            && Lacking(x.relay, y.relay) <= Lacking(a.relay, b.relay)
            && (EverFull(a, b, ends, lengths, ms) || Lacking(x.relay, y.relay) == {} ||
                |Lacking(x.relay, y.relay)| + |ms| <= |Lacking(a.relay, b.relay)|)
    decreases |ms|
  {
    hide Q.Purged, Round, NoRoom, Setting, EverFull, Lacking, FreshRounds, FreshFor, Settled;
    if ms != [] {
      var before, last := ms[..|ms| - 1], |ms| - 1;
      FreshPrefix(a, b, ms);
      LackingShrinks(a, b, ends, lengths, before);
      var (x, y) := Rounds(a, b, ends, lengths, before);
      NextIsFresh(a, b, ends, lengths, ms);
      RoundProgress(x, y, ends, lengths, ms[last]);
      FullNow(a, b, ends, lengths, ms);
    }
  }

  /** Rounds at any instants: if none of them finds the neighbor's queue full, then
      after as many rounds as there are envelopes the neighbor lacks, it holds every
      envelope the sender still has. */
  lemma SyncConverges(a: SyncNode, b: SyncNode, ends: Ends, lengths: Lengths, ms: seq<Moment>)
    requires Setting(a.relay, b.relay, ends, lengths) && FreshRounds(a, b, ms)
    requires |ms| >= |Lacking(a.relay, b.relay)| && !EverFull(a, b, ends, lengths, ms)
    ensures var (x, y) := Rounds(a, b, ends, lengths, ms);
            x.relay.queue.at.Keys <= y.relay.queue.at.Keys
  {
    hide Rounds, Setting, EverFull, FreshRounds;
    LackingShrinks(a, b, ends, lengths, ms);
    var (x, y) := Rounds(a, b, ends, lengths, ms);
    forall k | k in x.relay.queue.at.Keys ensures k in y.relay.queue.at.Keys {
      assert k !in Lacking(x.relay, y.relay);
    }
  }

  // ----- One entry that cannot be listed stops it all -----

  /** Whatever else the queues hold: a summary is refused exactly when the sender
      holds something unexpired that cannot be listed, an id that is not 16 bytes
      long or a TTL beyond the safe integers, and then the round transfers nothing. */
  lemma UnlistableStopsRound(a: SyncNode, b: SyncNode, ends: Ends, lengths: Lengths, m: Moment)
    requires Q.QueueInv(a.relay.queue) && Linked(a.relay, b.relay, ends) && FreshFor(a, b, m.draws)
    ensures ReceivePacket(b, SummaryPacket(a, ends, m), Some(ends.sender), lengths, m.now,
                          Answers(true, m.draws.request, [])).outcome
         == if Sendable(Q.Purged(a.relay.queue, m.now)) then Accepted else Refused(InvalidSummary)
    ensures !Sendable(Q.Purged(a.relay.queue, m.now)) ==>
              Round(a, b, ends, lengths, m) == (Reading(a, m.now), Asking(a, b, ends, m)) &&
              Asking(a, b, ends, m).relay == PurgeRoutingState(b.relay, m.now)
  {
    hide InitiateSync, ReceivePacket, SummaryPacket, RequestPacket, TransferPacket, Reading, Missing, SummaryOf,
        Q.Purged, Q.QueueInv, Sendable, FreshFor, PurgeRoutingState, Noted;
    StartedIs(a, ends, m);
    AskedIs(a, b, ends, lengths, m);
  }

  /** The entry k cannot be listed, and stays within the age limit. */
  ghost predicate Stuck(q: Q.Queue, k: MessageId, ms: seq<Moment>) {
    && k in q.at && !Listable(SummaryEntry(k, q.at[k].envelope.header.ttl))
    && forall i :: 0 <= i < |ms| ==> ValidHeader(q.at[k].envelope.header, ms[i].now)
  }

  lemma StuckStays(q: Q.Queue, k: MessageId, now: nat)
    requires k in q.at && ValidHeader(q.at[k].envelope.header, now)
    ensures k in Q.Purged(q, now).at && Q.Purged(q, now).at[k] == q.at[k]
  {
    hide ValidHeader, Only;
  }

  /** As long as it does, no number of rounds transfers anything. */
  lemma {:induction false} UnlistableStopsAll(a: SyncNode, b: SyncNode, ends: Ends, lengths: Lengths, ms: seq<Moment>,
          k: MessageId, nonce: Bytes)
    requires Q.QueueInv(a.relay.queue) && Linked(a.relay, b.relay, ends) && FreshRounds(a, b, ms)
    requires Stuck(a.relay.queue, k, ms)
    ensures var (x, y) := Rounds(a, b, ends, lengths, ms);
            && y.relay.queue == b.relay.queue && x.seen == a.seen
            && Q.QueueInv(x.relay.queue) && Linked(x.relay, y.relay, ends)
            && k in x.relay.queue.at && x.relay.queue.at[k] == a.relay.queue.at[k]
            && (!Drawn(ms, nonce) && Unused(b.seen, nonce) ==> Unused(y.seen, nonce))
    decreases |ms|
  {
    hide Round, Q.QueueInv, FreshRounds, FreshFor, Nonces, Unused, Drawn, Q.Purged, Linked, Listable, ValidHeader;
    if ms != [] {
      var before, last := ms[..|ms| - 1], ms[|ms| - 1];
      var (x, y) := Rounds(a, b, ends, lengths, before);
      assert Stuck(a.relay.queue, k, before) by {
        forall i | 0 <= i < |before| ensures ValidHeader(a.relay.queue.at[k].envelope.header, before[i].now) {
          assert before[i] == ms[i];
        }
      }
      FreshPrefix(a, b, ms);
      UnlistableStopsAll(a, b, ends, lengths, before, k, nonce);
      forall other | other in Nonces(last.draws) ensures Unused(b.seen, other) ==> Unused(y.seen, other) {
        DrawnOnce(ms, other);
        UnlistableStopsAll(a, b, ends, lengths, before, k, other);
      }
      StillFresh(a, b, x, y, last.draws);
      DrawnOnce(ms, nonce);
      StoppedRound(x, y, ends, lengths, last, k, nonce);
    }
  }

  lemma StoppedRound(a: SyncNode, b: SyncNode, ends: Ends, lengths: Lengths, m: Moment, k: MessageId, nonce: Bytes)
    requires Q.QueueInv(a.relay.queue) && Linked(a.relay, b.relay, ends) && FreshFor(a, b, m.draws)
    requires Stuck(a.relay.queue, k, [m])
    ensures var (x, y) := Round(a, b, ends, lengths, m);
            && y.relay.queue == b.relay.queue && x.seen == a.seen
            && Q.QueueInv(x.relay.queue) && Linked(x.relay, y.relay, ends)
            && k in x.relay.queue.at && x.relay.queue.at[k] == a.relay.queue.at[k]
            && (nonce !in Nonces(m.draws) && Unused(b.seen, nonce) ==> Unused(y.seen, nonce))
  {
    hide Round, Q.QueueInv, FreshFor, Unused, Q.Purged, Listable, ValidHeader, PurgeRoutingState, Noted, ReceivePacket,
        SummaryOf;
    assert ValidHeader(a.relay.queue.at[k].envelope.header, [m][0].now);
    StuckStays(a.relay.queue, k, m.now);
    assert !Sendable(Q.Purged(a.relay.queue, m.now));
    UnlistableStopsRound(a, b, ends, lengths, m);
    Q.PurgedInv(a.relay.queue, m.now);
    PurgingKeepsQueue(b.relay, m.now);
    LinkedAside(a.relay, b.relay, ends, m.now, Reading(a, m.now).relay, Asking(a, b, ends, m).relay);
    if Unused(b.seen, nonce) && nonce !in Nonces(m.draws) {
      NotedKeepsUnused(b.seen, a.relay.identity, SummaryPacket(a, ends, m).sealedPayload, m.now, nonce);
    }
  }

  /** Relays queue what no summary can list: any Data envelope to be passed on. */
  lemma UnlistableIsQueued(identity: nat, e: Envelope, from: NeighborId, now: nat, up: bool)
    requires e.header.packetType == DATA && ValidHeader(e.header, now)
    requires e.header.destinationHint != HintOf(identity) && |e.header.messageId.bytes| != MESSAGE_ID_LENGTH
    ensures var q := Receive(NewNode(identity), e, Some(from), now, up).node.queue;
            Stuck(q, e.header.messageId, [])
  {
    hide ValidHeader, U64;
    var node := NewNode(identity);
    assert e.header.ttl > 0 by { ValidIsAlive(e.header, now); }
    assert PurgeRoutingState(node, now) == node by { NothingToPurge(identity, now); }
    assert Q.FromNeighbor(Q.EMPTY, from) == {};
    assert Q.Purged(Q.EMPTY, now) == Q.EMPTY;
  }

  lemma ValidIsAlive(h: Header, now: nat)
    requires ValidHeader(h, now)
    ensures h.ttl > 0
  {
  }

  lemma NothingToPurge(identity: nat, now: int)
    ensures PurgeRoutingState(NewNode(identity), now) == NewNode(identity)
  {
  }
}
