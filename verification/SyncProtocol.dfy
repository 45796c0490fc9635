/**
  The store and forward synchronisation of src/routing/routing.ts: initiateSync
  and handleSyncPacket with its three kinds of packet, sealed under the session
  keys of src/sync/session-sync.ts.
 */
module SyncProtocol {
  import opened Basics
  import opened OrderedMaps
  import opened Envelopes
  import opened RouteTable
  import opened Relay
  import opened RelayTrust
  import Q = ForwardQueue

  const MAX_SEEN_SYNC_PACKETS: nat := 2048
  const SYNC_REPLAY_TTL_MS: int := 10 * 60 * 1000
  const MAX_SYNC_ENTRIES: nat := 512
  const MAX_SYNC_REQUESTS: nat := 512
  const MAX_SYNC_TRANSFER_ENVELOPES: nat := 128
  const MAX_SYNC_TRANSFER_BYTES: nat := 512 * 1024
  const MESSAGE_ID_LENGTH: nat := 16
  const NONCE_LENGTH: nat := 24
  const MAX_SAFE_INTEGER: int := 0x1F_FFFF_FFFF_FFFF
  const NO_HINT: Hint := [0, 0, 0, 0, 0, 0, 0, 0]

  /** The sync packets handled before, by sender and payload. */
  type SeenSync = OrderedMap<(nat, Payload), int>

  /** A relay with its record of sync packets. */
  datatype SyncNode = SyncNode(relay: Node, seen: SeenSync)

  /** The random values of a packet: its message id and its nonce. */
  datatype Random = Random(id: MessageId, nonce: Bytes)

  /** What the environment answers while a packet is handled: whether the transport
      accepts what is sent, random values for a reply, and the same for each of
      the envelopes a transfer brings. */
  datatype Answers = Answers(up: bool, random: Random, nested: seq<Answers>)

  datatype SyncRefusal =
    | UnauthenticatedPeer | SessionUnavailable | InvalidAuthentication | Replayed
    | SummaryTooLarge | InvalidSummary | RequestTooLarge | InvalidRequest
    | TransferTooLarge | TransferBytesExceeded | MalformedTransfer

  datatype SyncOutcome = Routed(outcome: Outcome) | Accepted | Refused(reason: SyncRefusal)

  datatype SyncStep = SyncStep(node: SyncNode, effects: Effects, outcome: SyncOutcome)

  /** The lengths of encoded envelopes. */
  type Lengths = map<MessageId, nat>

  // ----- Sealing -----

  function SessionIn(peers: Peers, n: NeighborId): Option<Session> {
    match Find(peers, n)
    case None => None
    case Some(peer) => peer.session
  }

  function SessionWith(node: Node, n: NeighborId): Option<Session> {
    SessionIn(node.peers, n)
  }

  /** encodeEncryptedSync */
  function SealSync(identity: nat, session: Session, nonce: Bytes, message: SyncMessage): Payload {
    SyncPayload(session.sessionId, nonce,
                SyncSealed(session.sendKey, nonce, session.sessionId, SyncContent(identity, message)))
  }

  /** decodeEncryptedSync */
  function OpenSync(p: Payload, session: Session): (r: Option<SyncContent>)
    ensures r.Some? ==> r.value.SyncContent?
  {
    if !p.SyncPayload? || p.sessionId != session.sessionId || |p.nonce| != NONCE_LENGTH then None
    else
      match p.syncCiphertext
      case SyncSealed(key, nonce, sessionId, content) =>
        if key == session.receiveKey && nonce == p.nonce && sessionId == p.sessionId && content.SyncContent?
        then Some(content) else None
      case SyncGarbage(_) => None
  }

  /** createSyncEnvelope around the sealed message. */
  function SyncEnvelopeOf(identity: nat, session: Session, random: Random, message: SyncMessage, now: nat): Envelope {
    Envelope(Header(PROTOCOL_VERSION, STORE_FORWARD_SYNC, random.id, DEFAULT_TTL, NO_HINT, CoarseTimestamp(now)),
             SealSync(identity, session, random.nonce, message))
  }

  function SyncEnvelope(node: Node, session: Session, random: Random, message: SyncMessage, now: nat): Envelope {
    SyncEnvelopeOf(node.identity, session, random, message, now)
  }

  // ----- What is asked and answered -----

  function Take<T>(s: seq<T>, n: nat): seq<T> {
    if |s| <= n then s else s[..n]
  }

  /** getSummary() on a purged queue: the ids and hops left of the first i stored. */
  function Entries(q: Q.Queue, i: nat): seq<SummaryEntry>
    requires i <= |q.order|
  {
    if i == 0 then []
    else
      var k := q.order[i - 1];
      Entries(q, i - 1) +
      if k in q.at then [SummaryEntry(q.at[k].envelope.header.messageId, q.at[k].envelope.header.ttl)] else []
  }

  function SummaryOf(q: Q.Queue): seq<SummaryEntry> {
    Take(Entries(q, |q.order|), MAX_SYNC_ENTRIES)
  }

  /** Can this entry be listed, or asked for? */
  predicate Listable(entry: SummaryEntry) {
    |entry.id.bytes| == MESSAGE_ID_LENGTH && 0 <= entry.ttl <= MAX_SAFE_INTEGER
  }

  /** The listed ids a queue lacks. */
  function NotHeld(q: Q.Queue, entries: seq<SummaryEntry>): seq<MessageId> {
    if entries == [] then []
    else
      var last := entries[|entries| - 1].id;
      NotHeld(q, entries[..|entries| - 1]) + if last in q.at then [] else [last]
  }

  function Missing(q: Q.Queue, entries: seq<SummaryEntry>): seq<MessageId> {
    Take(NotHeld(q, entries), MAX_SYNC_REQUESTS)
  }

  function LengthOf(lengths: Lengths, e: Envelope): nat {
    if e.header.messageId in lengths then lengths[e.header.messageId] else 0
  }

  /** The longest prefix whose encodings fit the transfer limit. */
  function WithinLimit(envelopes: seq<Envelope>, lengths: Lengths, used: nat): seq<Envelope> {
    if envelopes == [] || used + LengthOf(lengths, envelopes[0]) > MAX_SYNC_TRANSFER_BYTES then []
    else [envelopes[0]] + WithinLimit(envelopes[1..], lengths, used + LengthOf(lengths, envelopes[0]))
  }

  /** What is sent in answer to a request. */
  function Supplied(q: Q.Queue, ids: seq<MessageId>, lengths: Lengths): seq<Envelope> {
    var requested := set id | id in ids;
    WithinLimit(Take(Q.WithIds(q, requested, |q.order|), MAX_SYNC_TRANSFER_ENVELOPES), lengths, 0)
  }

  function Wires(envelopes: seq<Envelope>, lengths: Lengths): seq<Wire> {
    seq(|envelopes|, i requires 0 <= i < |envelopes| => Encoded(LengthOf(lengths, envelopes[i]), envelopes[i]))
  }

  // ----- The handlers -----

  /** A relay whose queue was read. */
  function Reading(node: SyncNode, now: nat): SyncNode {
    node.(relay := PurgeQueue(node.relay, now).0)
  }

  /** A packet on its way, if the transport accepts it. */
  function Sending(up: bool, to: NeighborId, packet: Envelope, lost: seq<Envelope>): Effects {
    Effects(if up then [Transmission(to, packet)] else [], [], lost)
  }

  /** initiateSync: without a session nothing happens. */
  function InitiateSync(node: SyncNode, n: NeighborId, random: Random, now: nat, up: bool): (SyncNode, Effects, bool) {
    match SessionWith(node.relay, n)
    case None => (node, NOTHING, false)
    case Some(session) =>
      var (relay, purged) := PurgeQueue(node.relay, now);
      var packet := SyncEnvelope(relay, session, random, Summary(SummaryOf(relay.queue)), now);
      (node.(relay := relay), Sending(up, n, packet, purged.dropped), up)
  }

  /** A summary is answered with a request for what is missing, if anything is. The
      queue is only read when the summary lists something. */
  function AnswerSummary(node: SyncNode, n: NeighborId, session: Session, entries: seq<SummaryEntry>, now: nat,
          answers: Answers): SyncStep {
    if |entries| > MAX_SYNC_ENTRIES then SyncStep(node, NOTHING, Refused(SummaryTooLarge))
    else if exists entry :: entry in entries && !Listable(entry) then SyncStep(node, NOTHING, Refused(InvalidSummary))
    else
      var (relay, purged) := if entries == [] then (node.relay, NOTHING) else PurgeQueue(node.relay, now);
      var missing := Missing(relay.queue, entries);
      SyncStep(node.(relay := relay),
               if missing == [] then purged
               else Sending(answers.up, n, SyncEnvelope(relay, session, answers.random, Request(missing), now),
                            purged.dropped),
               Accepted)
  }

  /** A request is answered with the envelopes held, in the queue's order. */
  function AnswerRequest(node: SyncNode, n: NeighborId, session: Session, ids: seq<MessageId>, lengths: Lengths,
          now: nat, answers: Answers): SyncStep {
    if |ids| > MAX_SYNC_REQUESTS then SyncStep(node, NOTHING, Refused(RequestTooLarge))
    else if exists id :: id in ids && |id.bytes| != MESSAGE_ID_LENGTH
      then SyncStep(node, NOTHING, Refused(InvalidRequest))
    else
      var (relay, purged) := PurgeQueue(node.relay, now);
      var wires := Wires(Supplied(relay.queue, ids, lengths), lengths);
      SyncStep(node.(relay := relay),
               Sending(answers.up, n, SyncEnvelope(relay, session, answers.random, Transfer(wires), now),
                       purged.dropped),
               Accepted)
  }

  /** The wires of the transfer an envelope holds. */
  function WiresOf(e: Envelope): seq<Wire> {
    if e.sealedPayload.SyncPayload? && e.sealedPayload.syncCiphertext.SyncSealed?
       && e.sealedPayload.syncCiphertext.content.SyncContent?
       && e.sealedPayload.syncCiphertext.content.inner.Transfer?
    then e.sealedPayload.syncCiphertext.content.inner.wires
    else []
  }

  /** The envelopes of e's transfer from number i on are received one by one; what
      was received before a refusal stays received. */
  function AcceptWires(node: SyncNode, e: Envelope, i: nat, total: nat, from: NeighborId, lengths: Lengths, now: nat,
          nested: seq<Answers>): SyncStep
    requires i <= |WiresOf(e)|
    decreases e, 0, |WiresOf(e)| - i
  {
    var wires := WiresOf(e);
    if i == |wires| then SyncStep(node, NOTHING, Accepted)
    else if total + wires[i].length > MAX_SYNC_TRANSFER_BYTES
      then SyncStep(node, NOTHING, Refused(TransferBytesExceeded))
    else
      match wires[i]
      case NoEnvelope(_) => SyncStep(node, NOTHING, Refused(MalformedTransfer))
      case Encoded(length, envelope) =>
        var first := ReceivePacket(node, envelope, Some(from), lengths, now, AnswerAt(nested, i));
        var rest := AcceptWires(first.node, e, i + 1, total + length, from, lengths, now, nested);
        SyncStep(rest.node, Plus(first.effects, rest.effects), rest.outcome)
  }

  /** The three kinds of packet; e holds the message. */
  function HandleMessage(node: SyncNode, e: Envelope, n: NeighborId, session: Session, message: SyncMessage,
          lengths: Lengths, now: nat, answers: Answers): SyncStep
    decreases e, 0, |WiresOf(e)| + 1
  {
    if message.Summary? then AnswerSummary(node, n, session, message.entries, now, answers)
    else if message.Request? then AnswerRequest(node, n, session, message.ids, lengths, now, answers)
    else if |message.wires| > MAX_SYNC_TRANSFER_ENVELOPES then SyncStep(node, NOTHING, Refused(TransferTooLarge))
    else AcceptWires(node, e, 0, 0, n, lengths, now, answers.nested)
  }

  /** Beyond the answers given, nothing is accepted by the transport. */
  function AnswerAt(nested: seq<Answers>, i: nat): Answers {
    if i < |nested| then nested[i] else Answers(false, Random(MessageId([]), []), [])
  }

  /** purgeStaleSyncReplayRecords */
  function SeenWithin(seen: SeenSync, maxAgeMs: int, now: int): SeenSync {
    Restrict(seen, set k | k in seen.at && now - seen.at[k] <= maxAgeMs)
  }

  /** The same with the default age limit. */
  function SeenRecently(seen: SeenSync, now: int): SeenSync {
    SeenWithin(seen, SYNC_REPLAY_TTL_MS, now)
  }

  function Remembered(seen: SeenSync, key: (nat, Payload), now: int): SeenSync {
    PutWithin(seen, key, now, MAX_SEEN_SYNC_PACKETS)
  }

  predicate PeerAuthorized(node: Node, n: NeighborId, sender: nat) {
    n in node.peers.at && node.peers.at[n].identity == sender
  }

  /** handleSyncPacket */
  function HandleSyncPacket(node: SyncNode, e: Envelope, from: Option<NeighborId>, lengths: Lengths, now: nat,
          answers: Answers): SyncStep
    decreases e, 1, 0
  {
    match from
    case None => SyncStep(node, NOTHING, Refused(UnauthenticatedPeer))
    case Some(n) =>
      match SessionWith(node.relay, n)
      case None => SyncStep(node, NOTHING, Refused(SessionUnavailable))
      case Some(session) =>
        var recent := node.(seen := SeenRecently(node.seen, now));
        match OpenSync(e.sealedPayload, session)
        case None => SyncStep(recent, NOTHING, Refused(InvalidAuthentication))
        case Some(content) =>
          var key := (content.sender, e.sealedPayload);
          if !PeerAuthorized(node.relay, n, content.sender)
          then SyncStep(recent, NOTHING, Refused(InvalidAuthentication))
          else if key in recent.seen.at then SyncStep(recent, NOTHING, Refused(Replayed))
          else
            HandleMessage(recent.(seen := Remembered(recent.seen, key, now)), e, n, session, content.inner, lengths,
                          now, answers)
  }

  /** receiveEnvelope, with sync packets handled. */
  function ReceivePacket(node: SyncNode, e: Envelope, from: Option<NeighborId>, lengths: Lengths, now: nat,
          answers: Answers): SyncStep
    decreases e, 2, 0
  {
    if ValidHeader(e.header, now) && e.header.packetType == STORE_FORWARD_SYNC
    then HandleSyncPacket(node.(relay := PurgeRoutingState(node.relay, now)), e, from, lengths, now, answers)
    else
      var s := Receive(node.relay, e, from, now, answers.up);
      SyncStep(node.(relay := s.node), s.effects, Routed(s.outcome))
  }

  // ----- To the relay, a sync packet is a sequence of its own calls -----

  /** What calls did together with envelopes besides keeping them. */
  function EffectsFrom(start: Node, calls: seq<Timed>): Effects {
    if calls == [] then NOTHING
    else
      var last := calls[|calls| - 1];
      var before := calls[..|calls| - 1];
      Plus(EffectsFrom(start, before), NodeStep(RunFrom(start, before).0, last.event, last.now).1)
  }

  /** What was sent besides sync packets. */
  function WithoutSync(sent: seq<Transmission>): seq<Transmission> {
    if sent == [] then []
    else
      var t := sent[|sent| - 1];
      WithoutSync(sent[..|sent| - 1]) + if t.envelope.header.packetType == STORE_FORWARD_SYNC then [] else [t]
  }

  /** Alike in everything but the sync packets sent. */
  predicate SameEffects(a: Effects, b: Effects) {
    WithoutSync(a.sent) == WithoutSync(b.sent) && a.delivered == b.delivered && a.dropped == b.dropped
  }

  /** A relay is `next` after these calls, and they did what `effects` says. */
  ghost predicate Follows(relay: Node, calls: seq<Timed>, next: Node, effects: Effects) {
    RunFrom(relay, calls).0 == next && SameEffects(EffectsFrom(relay, calls), effects)
  }

  /** x is e, or is inside the transfer e holds. */
  predicate Inside(e: Envelope, x: Envelope)
    decreases e
  {
    x == e || exists i :: 0 <= i < |WiresOf(e)| && WiresOf(e)[i].Encoded? && Inside(WiresOf(e)[i].envelope, x)
  }

  /** The call is a purge, or the reception of e or of an envelope inside it. */
  predicate Brought(call: Timed, e: Envelope, from: Option<NeighborId>, now: nat) {
    call.now == now &&
    match call.event
    case Receives(x, sender, _) => sender == from && Inside(e, x)
    case PurgesRouting => true
    case ReadsQueue => true
    case _ => false
  }

  ghost predicate AllBrought(calls: seq<Timed>, e: Envelope, from: Option<NeighborId>, now: nat) {
    forall i :: 0 <= i < |calls| ==> Brought(calls[i], e, from, now)
  }

  lemma NoCalls(relay: Node)
    ensures Follows(relay, [], relay, NOTHING)
  {
  }

  lemma {:induction false} RunFromAppend(start: Node, a: seq<Timed>, b: seq<Timed>)
    ensures RunFrom(start, a + b).0 == RunFrom(RunFrom(start, a).0, b).0
    ensures RunFrom(start, a + b).1 == RunFrom(start, a).1 + RunFrom(RunFrom(start, a).0, b).1
    decreases |b|
  {
    hide NodeStep;
    if b == [] {
      assert a + b == a;
    } else {
      RunFromAppend(start, a, b[..|b| - 1]);
      assert (a + b)[..|a + b| - 1] == a + b[..|b| - 1];
    }
  }

  lemma {:induction false} EffectsAppend(start: Node, a: seq<Timed>, b: seq<Timed>)
    ensures EffectsFrom(start, a + b) == Plus(EffectsFrom(start, a), EffectsFrom(RunFrom(start, a).0, b))
    decreases |b|
  {
    hide NodeStep, RunFrom;
    if b == [] {
      assert a + b == a;
      assert Plus(EffectsFrom(start, a), NOTHING) == EffectsFrom(start, a);
    } else {
      var before := b[..|b| - 1];
      EffectsAppend(start, a, before);
      RunFromAppend(start, a, before);
      assert (a + b)[..|a + b| - 1] == a + before;
      PlusAssociates(EffectsFrom(start, a), EffectsFrom(RunFrom(start, a).0, before),
                     NodeStep(RunFrom(start, a + before).0, b[|b| - 1].event, b[|b| - 1].now).1);
    }
  }

  lemma PlusAssociates(a: Effects, b: Effects, c: Effects)
    ensures Plus(Plus(a, b), c) == Plus(a, Plus(b, c))
  {
  }

  lemma {:induction false} SentInAll(start: Node, calls: seq<Timed>)
    ensures EffectsFrom(start, calls).sent == RunFrom(start, calls).1
  {
    hide NodeStep;
    if calls != [] { SentInAll(start, calls[..|calls| - 1]); }
  }

  lemma {:induction false} WithoutSyncAppend(a: seq<Transmission>, b: seq<Transmission>)
    ensures WithoutSync(a + b) == WithoutSync(a) + WithoutSync(b)
  {
    if b == [] {
      assert a + b == a;
    } else {
      WithoutSyncAppend(a, b[..|b| - 1]);
      assert (a + b)[..|a + b| - 1] == a + b[..|b| - 1];
    }
  }

  /** Sync packets hand nothing over that is awaited. */
  lemma {:induction false} SyncIsNoData(sent: seq<Transmission>)
    ensures DataIn(WithoutSync(sent)) == DataIn(sent)
  {
    if sent != [] {
      var last := sent[|sent| - 1];
      var before := WithoutSync(sent[..|sent| - 1]);
      SyncIsNoData(sent[..|sent| - 1]);
      DataInOne(last);
      DataAppend(before, [last]);
      assert before + [] == before;
    }
  }

  lemma FollowsThen(a: Node, b: Node, c: Node, x: seq<Timed>, y: seq<Timed>, s: Effects, t: Effects)
    requires Follows(a, x, b, s) && Follows(b, y, c, t)
    ensures Follows(a, x + y, c, Plus(s, t))
  {
    hide RunFrom, EffectsFrom, WithoutSync;
    RunFromAppend(a, x, y);
    EffectsAppend(a, x, y);
    WithoutSyncAppend(s.sent, t.sent);
    WithoutSyncAppend(EffectsFrom(a, x).sent, EffectsFrom(b, y).sent);
  }

  lemma OneCall(relay: Node, event: NodeEvent, now: nat, effects: Effects)
    requires SameEffects(NodeStep(relay, event, now).1, effects)
    ensures Follows(relay, [Timed(event, now)], NodeStep(relay, event, now).0, effects)
  {
    hide NodeStep, WithoutSync;
    var calls := [Timed(event, now)];
    assert calls[..0] == [];
    assert RunFrom(relay, []).0 == relay && EffectsFrom(relay, []) == NOTHING;
    NothingPlus(NodeStep(relay, event, now).1);
  }

  lemma NothingPlus(effects: Effects)
    ensures Plus(NOTHING, effects) == effects
  {
  }

  /** Sending one sync packet besides losing what expired is reading the queue. */
  lemma SendingIsReading(up: bool, to: NeighborId, packet: Envelope, purged: Effects)
    requires packet.header.packetType == STORE_FORWARD_SYNC && purged.sent == [] && purged.delivered == []
    ensures SameEffects(purged, Sending(up, to, packet, purged.dropped))
  {
    assert [Transmission(to, packet)][..0] == [];
  }

  lemma NothingMissing(q: Q.Queue)
    ensures Missing(q, []) == []
  {
  }

  lemma AnswerCalls(node: SyncNode, n: NeighborId, session: Session, message: SyncMessage, lengths: Lengths, now: nat,
          answers: Answers) returns (calls: seq<Timed>)
    requires !message.Transfer?
    ensures var s := if message.Summary? then AnswerSummary(node, n, session, message.entries, now, answers)
                     else AnswerRequest(node, n, session, message.ids, lengths, now, answers);
            Follows(node.relay, calls, s.node.relay, s.effects)
    ensures calls == [] || calls == [Timed(ReadsQueue, now)]
  {
    NothingMissing(node.relay.queue);
    hide Follows, SummaryOf, Supplied, Missing, Q.Purged, ExpiredIn, Listable, Wires, WithoutSync;
    var (relay, purged) := PurgeQueue(node.relay, now);
    if message.Summary? {
      SendingIsReading(answers.up, n, SyncEnvelope(relay, session, answers.random,
                                                   Request(Missing(relay.queue, message.entries)), now), purged);
    } else {
      var wires := Wires(Supplied(relay.queue, message.ids, lengths), lengths);
      SendingIsReading(answers.up, n, SyncEnvelope(relay, session, answers.random, Transfer(wires), now), purged);
    }
    var s := if message.Summary? then AnswerSummary(node, n, session, message.entries, now, answers)
        else AnswerRequest(node, n, session, message.ids, lengths, now, answers);
    if s.node == node && s.effects == NOTHING {
      calls := [];
      NoCalls(node.relay);
    } else {
      calls := [Timed(ReadsQueue, now)];
      OneCall(node.relay, ReadsQueue, now, s.effects);
    }
  }

  /** An envelope inside a transfer is smaller than the one that holds it. */
  lemma WireSmaller(e: Envelope, i: nat)
    requires i < |WiresOf(e)| && WiresOf(e)[i].Encoded?
    ensures WiresOf(e)[i].envelope < e
  {
  }

  lemma BroughtInside(calls: seq<Timed>, e: Envelope, i: nat, from: Option<NeighborId>, now: nat)
    requires i < |WiresOf(e)| && WiresOf(e)[i].Encoded? && AllBrought(calls, WiresOf(e)[i].envelope, from, now)
    ensures AllBrought(calls, e, from, now)
  {
  }

  lemma AcceptCalls(node: SyncNode, e: Envelope, i: nat, total: nat, from: NeighborId, lengths: Lengths, now: nat,
          nested: seq<Answers>) returns (calls: seq<Timed>)
    requires i <= |WiresOf(e)|
    ensures var s := AcceptWires(node, e, i, total, from, lengths, now, nested);
            Follows(node.relay, calls, s.node.relay, s.effects)
    ensures AllBrought(calls, e, Some(from), now)
    decreases e, 0, |WiresOf(e)| - i
  {
    hide Follows, ReceivePacket, WiresOf, RunFrom, Inside;
    var wires := WiresOf(e);
    calls := [];
    NoCalls(node.relay);
    if i < |wires| && total + wires[i].length <= MAX_SYNC_TRANSFER_BYTES && wires[i].Encoded? {
      var first := ReceivePacket(node, wires[i].envelope, Some(from), lengths, now, AnswerAt(nested, i));
      WireSmaller(e, i);
      var x := SyncIsCalls(node, wires[i].envelope, Some(from), lengths, now, AnswerAt(nested, i));
      BroughtInside(x, e, i, Some(from), now);
      var y := AcceptCalls(first.node, e, i + 1, total + wires[i].length, from, lengths, now, nested);
      var rest := AcceptWires(first.node, e, i + 1, total + wires[i].length, from, lengths, now, nested);
      FollowsThen(node.relay, first.node.relay, rest.node.relay, x, y, first.effects, rest.effects);
      calls := x + y;
    }
  }

  lemma HandleCalls(node: SyncNode, e: Envelope, from: Option<NeighborId>, lengths: Lengths, now: nat,
          answers: Answers) returns (calls: seq<Timed>)
    ensures var s := HandleSyncPacket(node, e, from, lengths, now, answers);
            Follows(node.relay, calls, s.node.relay, s.effects)
    ensures AllBrought(calls, e, from, now)
    decreases e, 1, 0
  {
    hide Follows, AnswerSummary, AnswerRequest, SeenWithin, Remembered, Listable, Inside;
    var s := HandleSyncPacket(node, e, from, lengths, now, answers);
    calls := [];
    NoCalls(node.relay);
    if s.outcome.Accepted? || s.node.relay != node.relay || s.effects != NOTHING {
      var session := SessionWith(node.relay, from.value).value;
      var content := OpenSync(e.sealedPayload, session).value;
      var noted := node.(seen := Remembered(SeenRecently(node.seen, now), (content.sender, e.sealedPayload), now));
      if content.inner.Transfer? {
        assert content.inner.wires == WiresOf(e);
        calls := AcceptCalls(noted, e, 0, 0, from.value, lengths, now, answers.nested);
      } else {
        calls := AnswerCalls(noted, from.value, session, content.inner, lengths, now, answers);
      }
    }
  }

  /** Receiving any packet, sync packets and whatever they carry included, does to
      the relay what a sequence of its other calls does: purges, and the reception
      from the same neighbor of the packet or of envelopes inside it. They send the
      same but for sync packets, deliver the same and lose the same. */
  lemma SyncIsCalls(node: SyncNode, e: Envelope, from: Option<NeighborId>, lengths: Lengths, now: nat,
          answers: Answers) returns (calls: seq<Timed>)
    ensures var s := ReceivePacket(node, e, from, lengths, now, answers);
            Follows(node.relay, calls, s.node.relay, s.effects)
    ensures AllBrought(calls, e, from, now)
    ensures calls != [] && (calls[0].event.PurgesRouting? || calls[0].event.Receives?)
    decreases e, 2, 0
  {
    hide Follows, Receive, ValidHeader, PurgeRoutingState, HandleSyncPacket, WithoutSync;
    if ValidHeader(e.header, now) && e.header.packetType == STORE_FORWARD_SYNC {
      var live := node.(relay := PurgeRoutingState(node.relay, now));
      var x := HandleCalls(live, e, from, lengths, now, answers);
      var s := HandleSyncPacket(live, e, from, lengths, now, answers);
      OneCall(node.relay, PurgesRouting, now, NOTHING);
      FollowsThen(node.relay, live.relay, s.node.relay, [Timed(PurgesRouting, now)], x, NOTHING, s.effects);
      NothingPlus(s.effects);
      calls := [Timed(PurgesRouting, now)] + x;
    } else {
      var s := Receive(node.relay, e, from, now, answers.up);
      calls := [Timed(Receives(e, from, answers.up), now)];
      OneCall(node.relay, Receives(e, from, answers.up), now, s.effects);
    }
  }

  /** initiateSync only reads the queue. */
  lemma InitiateCalls(node: SyncNode, n: NeighborId, random: Random, now: nat, up: bool) returns (calls: seq<Timed>)
    ensures var (next, effects, _) := InitiateSync(node, n, random, now, up);
            Follows(node.relay, calls, next.relay, effects)
    ensures calls == [] || calls == [Timed(ReadsQueue, now)]
  {
    hide Follows, SummaryOf, Q.Purged, ExpiredIn, WithoutSync;
    calls := [];
    NoCalls(node.relay);
    var session := SessionWith(node.relay, n);
    if session.Some? {
      var (relay, purged) := PurgeQueue(node.relay, now);
      var packet := SyncEnvelope(relay, session.value, random, Summary(SummaryOf(relay.queue)), now);
      SendingIsReading(up, n, packet, purged);
      calls := [Timed(ReadsQueue, now)];
      OneCall(node.relay, ReadsQueue, now, Sending(up, n, packet, purged.dropped));
    }
  }
}
