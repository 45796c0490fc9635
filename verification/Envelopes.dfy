/** Envelopes, routing headers and delivery acknowledgements of src/envelope/envelope.ts. */
module Envelopes {
  import opened Basics
  import opened Symbolic
  import Ratchet

  const PROTOCOL_VERSION: int := 1
  const DEFAULT_TTL: int := 16
  const TIMESTAMP_GRANULARITY_SECONDS: int := 60
  const MAX_AGE_SECONDS: int := 3600

  /** The packet types in use; a header may carry any other number. */
  const DATA: int := 1
  const ACK: int := 2
  const STORE_FORWARD_SYNC: int := 4
  const EMERGENCY_BROADCAST: int := 5

  type Hint = Bytes

  /** computeDestinationHint: eight bytes of an identity, which like the first
      bytes of a hash may be those of another identity too. */
  function HintOf(identity: nat): Hint { U64(identity) }

  datatype Header = Header(
    version: int, packetType: int, messageId: MessageId, ttl: int, destinationHint: Hint, timestamp: int)

  /** What an identity signs when it acknowledges a message. */
  datatype AckStatement = AckStatement(signerHint: Hint, acknowledged: MessageId, signer: nat)

  datatype AckSignature = AckSigned(key: nat, statement: AckStatement) | NotASignature(bytes: Bytes)

  datatype Payload =
    | AckPayload(acknowledged: MessageId, signer: nat, signature: AckSignature)
    | DataPayload(ratchetHeader: Ratchet.Header, ciphertext: Cipher<Ratchet.Aad, Bytes>)
    | SyncPayload(sessionId: string, nonce: Bytes, syncCiphertext: SyncCipher)
    | Opaque(bytes: Bytes)

  /** A sync packet sealed under a session key, with its session's name as
      associated data, or bytes that no key opens. */
  datatype SyncCipher =
    | SyncSealed(key: nat, nonce: Bytes, sessionId: string, content: SyncContent)
    | SyncGarbage(bytes: Bytes)

  datatype SyncContent = SyncContent(sender: nat, inner: SyncMessage) | Malformed(bytes: Bytes)

  datatype SyncMessage =
    | Summary(entries: seq<SummaryEntry>)
    | Request(ids: seq<MessageId>)
    | Transfer(wires: seq<Wire>)

  datatype SummaryEntry = SummaryEntry(id: MessageId, ttl: int)

  /** An encoded envelope, or bytes that decode to none. */
  datatype Wire = Encoded(length: nat, envelope: Envelope) | NoEnvelope(length: nat)

  datatype Envelope = Envelope(header: Header, sealedPayload: Payload)

  datatype VerifiedAck = VerifiedAck(acknowledged: MessageId, signer: nat, signerHint: Hint)

  function StatementFor(signer: nat, acknowledged: MessageId): AckStatement {
    AckStatement(HintOf(signer), acknowledged, signer)
  }

  function CoarseTimestamp(nowMs: nat): int {
    nowMs / 1000 - nowMs / 1000 % TIMESTAMP_GRANULARITY_SECONDS
  }

  /** createAckEnvelope, its random message id a parameter. */
  function CreateAck(id: MessageId, destination: Hint, acknowledged: MessageId, signer: nat, nowMs: nat): Envelope {
    Envelope(Header(PROTOCOL_VERSION, ACK, id, DEFAULT_TTL, destination, CoarseTimestamp(nowMs)),
             AckPayload(acknowledged, signer, AckSigned(signer, StatementFor(signer, acknowledged))))
  }

  function VerifyAck(e: Envelope): Option<VerifiedAck> {
    if e.header.packetType != ACK then None
    else match e.sealedPayload
      case AckPayload(acknowledged, signer, signature) =>
        if signature != AckSigned(signer, StatementFor(signer, acknowledged)) then None
        else Some(VerifiedAck(acknowledged, signer, HintOf(signer)))
      case _ => None
  }

  /** validateRoutingHeader; the clock is in milliseconds. */
  predicate ValidWithin(h: Header, nowMs: nat, maxAgeSeconds: int) {
    var now := nowMs / 1000;
    && h.version == PROTOCOL_VERSION
    && h.ttl > 0
    && h.timestamp <= now + TIMESTAMP_GRANULARITY_SECONDS
    && now - h.timestamp <= maxAgeSeconds
  }

  /** The same with the default age limit. */
  predicate ValidHeader(h: Header, nowMs: nat) {
    ValidWithin(h, nowMs, MAX_AGE_SECONDS)
  }

  /** What a relay sends on: the envelope with one hop less to live. */
  function Relayed(e: Envelope): Envelope {
    e.(header := e.header.(ttl := e.header.ttl - 1))
  }

  /** Equal in everything but the hops left. */
  predicate SameButTtl(a: Envelope, b: Envelope) {
    a == b.(header := b.header.(ttl := a.header.ttl))
  }
}
