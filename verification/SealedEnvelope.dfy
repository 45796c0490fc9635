/**
  Data envelopes sealed by the ratchet (src/envelope/envelope.ts): the routing
  header is authenticated as associated data, all but its TTL.
 */
module SealedEnvelope {
  import opened Basics
  import opened Symbolic
  import opened Envelopes
  import opened RatchetSession
  import opened RatchetRuns
  import Ratchet
  import SignedFormats

  datatype OpenError = NotADataEnvelope | Undecryptable

  function StatementOf(h: Header): SignedFormats.Statement {
    SignedFormats.DataHeader(h.version, h.packetType, h.messageId.bytes, h.destinationHint, h.timestamp)
  }

  /** encodeDataEnvelopeAssociatedData */
  function AssociatedData(h: Header): Bytes {
    SignedFormats.Encode(StatementOf(h))
  }

  /** The header of a new data envelope; its random message id is a parameter. */
  function NewHeader(id: MessageId, destinationHint: Hint, ttl: int, nowMs: nat): Header {
    Header(PROTOCOL_VERSION, DATA, id, ttl, destinationHint, CoarseTimestamp(nowMs))
  }

  function Seal(s: Ratchet.State, h: Header, plaintext: Bytes): Result<(Ratchet.State, Envelope), Ratchet.Error> {
    match Ratchet.Encrypt(s, plaintext, AssociatedData(h))
    case Err(e) => Err(e)
    case Ok((next, packet)) => Ok((next, Envelope(h, DataPayload(packet.header, packet.ciphertext))))
  }

  function PacketOf(e: Envelope): Ratchet.Packet
    requires e.sealedPayload.DataPayload?
  {
    Ratchet.Packet(e.sealedPayload.ratchetHeader, e.sealedPayload.ciphertext, AssociatedData(e.header))
  }

  function OpenEnvelope(s: Ratchet.State, e: Envelope, newName: nat): Result<(Ratchet.State, Bytes), OpenError> {
    if e.header.packetType != DATA then Err(NotADataEnvelope)
    else if !e.sealedPayload.DataPayload? then Err(Undecryptable)
    else
      match Ratchet.Decrypt(s, PacketOf(e), newName)
      case Err(_) => Err(Undecryptable)
      case Ok(result) => Ok(result)
  }

  method CreateAuthenticatedDataEnvelope(ratchet: Ratchet.DoubleRatchet, id: MessageId, destinationHint: Hint, ttl: int,
          plaintext: Bytes, nowMs: nat)
    returns (r: Result<Envelope, Ratchet.Error>)
    modifies ratchet
    ensures match Seal(old(ratchet.GetState()), NewHeader(id, destinationHint, ttl, nowMs), plaintext)
            case Ok((next, envelope)) => r == Ok(envelope) && ratchet.GetState() == next
            case Err(error) => r == Err(error) && ratchet.GetState() == old(ratchet.GetState())
  {
    hide Ratchet.Encrypt;
    var header := NewHeader(id, destinationHint, ttl, nowMs);
    var packet := ratchet.EncryptMessage(plaintext, AssociatedData(header));
    if packet.Err? { return Err(packet.error); }
    return Ok(Envelope(header, DataPayload(packet.value.header, packet.value.ciphertext)));
  }

  method OpenAuthenticatedDataEnvelope(ratchet: Ratchet.DoubleRatchet, e: Envelope, newName: nat)
    returns (r: Result<Bytes, OpenError>)
    modifies ratchet
    ensures match OpenEnvelope(old(ratchet.GetState()), e, newName)
            case Ok((next, plaintext)) => r == Ok(plaintext) && ratchet.GetState() == next
            case Err(error) => r == Err(error) && ratchet.GetState() == old(ratchet.GetState())
  {
    hide Ratchet.Decrypt;
    if e.header.packetType != DATA { return Err(NotADataEnvelope); }
    if !e.sealedPayload.DataPayload? { return Err(Undecryptable); }
    var plaintext := ratchet.DecryptMessage(PacketOf(e), newName);
    if plaintext.Err? { return Err(Undecryptable); }
    return Ok(plaintext.value);
  }

  // ----- What may be changed on the way -----

  /** What the associated data of two headers says about them. */
  predicate SameAuthenticated(a: Header, b: Header) {
    && a.version % 256 == b.version % 256 && a.packetType % 256 == b.packetType % 256
    && a.messageId.bytes + a.destinationHint == b.messageId.bytes + b.destinationHint
    && a.timestamp % TWO_TO_THE_64 == b.timestamp % TWO_TO_THE_64
  }

  /** Envelope e holds message m of a session under its own headers. */
  ghost predicate Carries(e: Envelope, m: Message) {
    e.sealedPayload.DataPayload? && m.packet == PacketOf(e)
  }

  lemma SameAssociatedData(a: Header, b: Header)
    ensures AssociatedData(a) == AssociatedData(b) <==> SameAuthenticated(a, b)
  {
    hide SignedFormats.Encode;
    SignedFormats.HeaderShares(StatementOf(a), StatementOf(b));
  }

  /** In any run of a session, the ciphertext of a sealed envelope that has not been
      opened, under whatever routing header and ratchet header: it opens to its
      plaintext exactly when the routing header is of a data envelope and has the
      same version and type byte, the same timestamp and the same id and hint end
      to end, the ratchet header is the same on the wire and accepted for the
      message, and the message's chain was not left before it. */
  lemma OpensExactly(root: Key, responderKey: nat, initiatorKey: nat, es: seq<Event>, j: nat, role: Role, m: Message,
                     e: Envelope, other: Envelope, newName: nat)
    requires responderKey != initiatorKey
    requires Possible(Start(root, responderKey, initiatorKey), es)
    requires SentAt(es, StepsOf(Start(root, responderKey, initiatorKey), es).1, j, role, m)
    requires forall i: nat ::
               !OpenedAt(es, StepsOf(Start(root, responderKey, initiatorKey), es).1, i, m.packet.ciphertext)
    requires Carries(e, m)
    requires other.sealedPayload.DataPayload? && other.sealedPayload.ciphertext == m.packet.ciphertext
    ensures m.packet.header.messageNumber >= 0
    ensures var w := StepsOf(Start(root, responderKey, initiatorKey), es).0;
            var s, h := w.Party(Peer(role)), other.sealedPayload.ratchetHeader;
            var result := OpenEnvelope(s, other, newName);
            && (result.Ok? <==>
                  && other.header.packetType == DATA && SameAuthenticated(e.header, other.header)
                  && SameOnWire(h, m.packet.header) && Accepts(s, h, m.packet.header.messageNumber)
                  && !IsLost(w, m))
            && (result.Ok? ==> result.value.1 == m.plaintext)
  {
    hide Ratchet.Decrypt, StepsOf, Possible, Accepts, IsLost, AssociatedData, SameAuthenticated, SameOnWire;
    FirstDelivery(root, responderKey, initiatorKey, es, j, role, m, PacketOf(other), newName);
    SameAssociatedData(e.header, other.header);
  }

  /** With ids of one length, changing any authenticated field is noticed. */
  lemma FieldsAuthenticated(a: Header, b: Header)
    requires |a.messageId.bytes| == |b.messageId.bytes|
    ensures SameAuthenticated(a, b) <==>
              && a.version % 256 == b.version % 256 && a.packetType % 256 == b.packetType % 256
              && a.messageId == b.messageId && a.destinationHint == b.destinationHint
              && a.timestamp % TWO_TO_THE_64 == b.timestamp % TWO_TO_THE_64
  {
    if SameAuthenticated(a, b) {
      SignedFormats.SplitAt(a.messageId.bytes, a.destinationHint, b.messageId.bytes, b.destinationHint);
    }
  }

  /** An envelope whose hint starts with a byte moved to the end of its id. */
  function Moved(e: Envelope): Envelope
    requires e.header.destinationHint != []
  {
    var hint := e.header.destinationHint;
    e.(header := e.header.(messageId := MessageId(e.header.messageId.bytes + [hint[0]]), destinationHint := hint[1..]))
  }

  /** Without that, a byte moved from the hint to the id goes unnoticed: the envelope
      is under another id, for another destination, and opens as the original would. */
  lemma MovedByteOpens(root: Key, responderKey: nat, initiatorKey: nat, es: seq<Event>, j: nat, role: Role, m: Message,
                       e: Envelope, newName: nat)
    requires responderKey != initiatorKey
    requires Possible(Start(root, responderKey, initiatorKey), es)
    requires SentAt(es, StepsOf(Start(root, responderKey, initiatorKey), es).1, j, role, m)
    requires forall i: nat ::
               !OpenedAt(es, StepsOf(Start(root, responderKey, initiatorKey), es).1, i, m.packet.ciphertext)
    requires Carries(e, m) && e.header.packetType == DATA && e.header.destinationHint != []
    ensures Moved(e).header.messageId != e.header.messageId
    ensures Moved(e).header.destinationHint != e.header.destinationHint
    ensures var w, number := StepsOf(Start(root, responderKey, initiatorKey), es).0, m.packet.header.messageNumber;
            number >= 0 && (Accepts(w.Party(Peer(role)), m.packet.header, number) && !IsLost(w, m) ==>
              var result := OpenEnvelope(w.Party(Peer(role)), Moved(e), newName);
              result.Ok? && result.value.1 == m.plaintext)
  {
    hide StepsOf, Possible, Accepts, IsLost, OpenEnvelope, AssociatedData;
    var h, moved := e.header, Moved(e).header;
    assert h.messageId.bytes + h.destinationHint == moved.messageId.bytes + moved.destinationHint;
    assert |moved.messageId.bytes| != |h.messageId.bytes|;
    assert |moved.destinationHint| != |h.destinationHint|;
    OpensExactly(root, responderKey, initiatorKey, es, j, role, m, e, Moved(e), newName);
  }
}
