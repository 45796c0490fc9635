/**
  The Noise IK handshake of src/crypto/handshake.ts (sections 5.2 and 7.5 of the
  Noise Protocol Framework, revision 34), over symbolic hashes: a digest is the
  list of everything mixed into it.
 */
module Handshake {
  import opened Basics
  import opened Symbolic

  /** A node introduction; an Ed25519 identity is named by a number. */
  datatype Introduction = Introduction(identity: nat, staticKey: PublicKey, capabilities: set<string>, nonce: nat)

  /** What an Ed25519 identity may sign about a session. */
  datatype Statement = SessionBinding(x25519: PublicKey, handshakeHash: Digest, role: Role)

  datatype Signature = Signed(signer: nat, statement: Statement) | NoSignature(bytes: Bytes)

  datatype Binding = Binding(identity: nat, x25519: PublicKey, handshakeHash: Digest, role: Role, signature: Signature)

  /** What travels in a handshake or identity message. */
  datatype Field =
    | Text(bytes: Bytes)
    | KeyBytes(key: PublicKey)
    | Ciphertext(under: Key, nonce: nat, ad: Digest, plaintext: Field)
    | IntroductionText(introduction: Introduction)
    | BindingBytes(binding: Binding)

  datatype Digest = ProtocolName | Mixed(h: Digest, data: Field)

  datatype Error = BadPublicKey | NotAuthentic

  /** The four fields of the symmetric state as one value. */
  datatype Symmetric = Symmetric(h: Digest, ck: Key, k: Option<Key>, n: nat)

  datatype Message1 = Message1(ephemeral: Field, encryptedStatic: Field, encryptedPayload: Field)

  datatype Message2 = Message2(ephemeral: Field, encryptedPayload: Field)

  datatype HandshakeResult = HandshakeResult(sendKey: Key, receiveKey: Key, handshakeHash: Digest, rootKey: Key)

  const PROTOCOL_CHAINING_KEY: Key := Literal(0)

  // ----- The symmetric state, as functions on values -----

  function MixHash(s: Symmetric, data: Field): Symmetric {
    s.(h := Mixed(s.h, data))
  }

  function MixKey(s: Symmetric, ikm: Ikm): Symmetric {
    s.(ck := HkdfHead(s.ck, ikm), k := Some(HkdfTail(s.ck, ikm)), n := 0)
  }

  function EncryptAndHash(s: Symmetric, plaintext: Field): (Symmetric, Field) {
    match s.k
    case None => (MixHash(s, plaintext), plaintext)
    case Some(key) =>
      var c := Ciphertext(key, s.n, s.h, plaintext);
      (MixHash(s, c).(n := s.n + 1), c)
  }

  function DecryptAndHash(s: Symmetric, c: Field): Result<(Symmetric, Field), Error> {
    match s.k
    case None => Ok((MixHash(s, c), c))
    case Some(key) =>
      if c.Ciphertext? && c.under == key && c.nonce == s.n && c.ad == s.h
      then Ok((MixHash(s, c).(n := s.n + 1), c.plaintext))
      else Err(NotAuthentic)
  }

  /** split(): the two transport keys, initiator to responder first. */
  function Split(s: Symmetric): (Key, Key) {
    (HkdfHead(s.ck, NoIkm), HkdfTail(s.ck, NoIkm))
  }

  function Initialize(responderStatic: PublicKey): Symmetric {
    MixHash(MixHash(Symmetric(ProtocolName, PROTOCOL_CHAINING_KEY, None, 0), Text([])), KeyBytes(responderStatic))
  }

  /** deriveSharedSecret on a received field: it must be a usable public key. */
  function DhField(private: nat, f: Field): Result<Ikm, Error> {
    if f.KeyBytes? && Dh(private, f.key).Some? then Ok(Dh(private, f.key).value) else Err(BadPublicKey)
  }

  // ----- The four handshake functions -----

  function InitiatorWrite1(ownStatic: nat, responderStatic: PublicKey, payload: Field, ephemeral: nat)
    : Result<(Message1, Symmetric), Error>
  {
    match (Dh(ephemeral, responderStatic), Dh(ownStatic, responderStatic))
    case (Some(es), Some(ss)) =>
      var s0 := MixHash(Initialize(responderStatic), KeyBytes(Point(ephemeral)));
      var (s1, encryptedStatic) := EncryptAndHash(MixKey(s0, es), KeyBytes(Point(ownStatic)));
      var (s2, encryptedPayload) := EncryptAndHash(MixKey(s1, ss), payload);
      Ok((Message1(KeyBytes(Point(ephemeral)), encryptedStatic, encryptedPayload), s2))
    case _ => Err(BadPublicKey)
  }

  /** The state, the initiator's static key and its payload. */
  function ResponderRead1(ownStatic: nat, m: Message1): Result<(Symmetric, Field, Field), Error> {
    var s0 := MixHash(Initialize(Point(ownStatic)), m.ephemeral);
    match DhField(ownStatic, m.ephemeral)
    case Err(e) => Err(e)
    case Ok(es) =>
      match DecryptAndHash(MixKey(s0, es), m.encryptedStatic)
      case Err(e) => Err(e)
      case Ok((s1, initiatorStatic)) =>
        match DhField(ownStatic, initiatorStatic)
        case Err(e) => Err(e)
        case Ok(ss) =>
          match DecryptAndHash(MixKey(s1, ss), m.encryptedPayload)
          case Err(e) => Err(e)
          case Ok((s2, payload)) => Ok((s2, initiatorStatic, payload))
  }

  function ResponderWrite2(s: Symmetric, initiatorEphemeral: Field, initiatorStatic: Field, payload: Field,
          ephemeral: nat)
    : Result<(Message2, HandshakeResult), Error>
  {
    var s0 := MixHash(s, KeyBytes(Point(ephemeral)));
    match (DhField(ephemeral, initiatorEphemeral), DhField(ephemeral, initiatorStatic))
    case (Ok(ee), Ok(se)) =>
      var (s1, encryptedPayload) := EncryptAndHash(MixKey(MixKey(s0, ee), se), payload);
      var (k1, k2) := Split(s1);
      Ok((Message2(KeyBytes(Point(ephemeral)), encryptedPayload), HandshakeResult(k2, k1, s1.h, s1.ck)))
    case _ => Err(BadPublicKey)
  }

  function InitiatorRead2(s: Symmetric, ownStatic: nat, ephemeral: nat, m: Message2): Result<HandshakeResult, Error> {
    var s0 := MixHash(s, m.ephemeral);
    match (DhField(ephemeral, m.ephemeral), DhField(ownStatic, m.ephemeral))
    case (Ok(ee), Ok(se)) =>
      (match DecryptAndHash(MixKey(MixKey(s0, ee), se), m.encryptedPayload)
       case Err(e) => Err(e)
       case Ok((s1, _)) =>
         var (k1, k2) := Split(s1);
         Ok(HandshakeResult(k1, k2, s1.h, s1.ck)))
    case _ => Err(BadPublicKey)
  }

  // ----- Runs of the two sides, each against an arbitrary network -----

  /** What an initiator chose and received; its first message is determined. */
  datatype InitiatorRun = InitiatorRun(ownStatic: nat, responderStatic: PublicKey, payload: Field, ephemeral: nat,
          reply: Message2)

  datatype ResponderRun = ResponderRun(ownStatic: nat, hello: Message1, payload: Field, ephemeral: nat)

  function InitiatorResult(run: InitiatorRun): Result<HandshakeResult, Error> {
    match InitiatorWrite1(run.ownStatic, run.responderStatic, run.payload, run.ephemeral)
    case Err(e) => Err(e)
    case Ok((_, s)) => InitiatorRead2(s, run.ownStatic, run.ephemeral, run.reply)
  }

  /** What the responder sends back and what it ends with. */
  function ResponderOutcome(run: ResponderRun): Result<(Message2, HandshakeResult), Error> {
    match ResponderRead1(run.ownStatic, run.hello)
    case Err(e) => Err(e)
    case Ok((s, initiatorStatic, _)) =>
      ResponderWrite2(s, run.hello.ephemeral, initiatorStatic, run.payload, run.ephemeral)
  }

  function ResponderResult(run: ResponderRun): Result<HandshakeResult, Error> {
    match ResponderOutcome(run)
    case Err(e) => Err(e)
    case Ok((_, result)) => Ok(result)
  }

  function Hello(run: InitiatorRun): Result<Message1, Error> {
    match InitiatorWrite1(run.ownStatic, run.responderStatic, run.payload, run.ephemeral)
    case Err(e) => Err(e)
    case Ok((m, _)) => Ok(m)
  }

  /** The two runs are the two ends of one handshake: the initiator addressed this
      responder, and each read exactly what the other wrote. */
  predicate SameHandshake(i: InitiatorRun, r: ResponderRun)
    requires Hello(i).Ok? && ResponderOutcome(r).Ok?
  {
    && i.responderStatic == Point(r.ownStatic)
    && r.hello == Hello(i).value
    && i.reply == ResponderOutcome(r).value.0
  }

  predicate CrossedKeys(a: HandshakeResult, b: HandshakeResult) {
    && a.rootKey == b.rootKey
    && a.sendKey == b.receiveKey
    && a.receiveKey == b.sendKey
    && a.sendKey != a.receiveKey
  }

  /** Both sides know the same static keys, ephemeral keys and payloads. */
  predicate SameView(i: InitiatorRun, r: ResponderRun) {
    && i.responderStatic == Point(r.ownStatic)
    && ResponderRead1(r.ownStatic, r.hello).Ok?
    && ResponderRead1(r.ownStatic, r.hello).value.1 == KeyBytes(Point(i.ownStatic))
    && ResponderRead1(r.ownStatic, r.hello).value.2 == i.payload
    && r.hello.ephemeral == KeyBytes(Point(i.ephemeral))
    && i.reply.ephemeral == KeyBytes(Point(r.ephemeral))
    && i.reply.encryptedPayload.Ciphertext? && i.reply.encryptedPayload.plaintext == r.payload
  }

  /** Noise IK agreement: two completed runs have the same handshake hash exactly
      when they are the two ends of one handshake, whatever the network did; they
      then know the same keys and payloads and hold the same root key and crossed
      transport keys. */
  lemma Agreement(i: InitiatorRun, r: ResponderRun)
    requires InitiatorResult(i).Ok? && ResponderResult(r).Ok?
    ensures var a, b := InitiatorResult(i).value, ResponderResult(r).value;
            && (a.handshakeHash == b.handshakeHash <==> SameHandshake(i, r))
            && (SameHandshake(i, r) ==> SameView(i, r) && CrossedKeys(a, b))
  {
    var a, b := InitiatorResult(i).value, ResponderResult(r).value;
    if a.handshakeHash == b.handshakeHash || SameHandshake(i, r) {
      SharedSecretAgreement(i.ephemeral, r.ownStatic, 0);
      SharedSecretAgreement(i.ownStatic, r.ownStatic, 0);
      SharedSecretAgreement(i.ephemeral, r.ephemeral, 0);
      SharedSecretAgreement(i.ownStatic, r.ephemeral, 0);
    }
  }

  /** Honest runs complete at both ends with the same hash. */
  lemma HonestRunsComplete(i: InitiatorRun, r: ResponderRun)
    requires i.responderStatic == Point(r.ownStatic)
    requires Hello(i).Ok? && r.hello == Hello(i).value
    ensures ResponderOutcome(r).Ok?
    ensures i.reply == ResponderOutcome(r).value.0 ==>
              && InitiatorResult(i).Ok?
              && InitiatorResult(i).value.handshakeHash == ResponderResult(r).value.handshakeHash
  {
    SharedSecretAgreement(i.ephemeral, r.ownStatic, 0);
    SharedSecretAgreement(i.ownStatic, r.ownStatic, 0);
    SharedSecretAgreement(i.ephemeral, r.ephemeral, 0);
    SharedSecretAgreement(i.ownStatic, r.ephemeral, 0);
  }

  // ----- The same state as the object the source updates in place -----

  class SymmetricState {
    var h: Digest
    var ck: Key
    var k: Option<Key>
    var n: nat

    function View(): Symmetric
      reads this
    {
      Symmetric(h, ck, k, n)
    }

    constructor (h: Digest, ck: Key)
      ensures View() == Symmetric(h, ck, None, 0)
    {
      this.h, this.ck, this.k, this.n := h, ck, None, 0;
    }

    method Absorb(data: Field)
      modifies this`h
      ensures View() == MixHash(old(View()), data)
    {
      h := Mixed(h, data);
    }

    method Rekey(ikm: Ikm)
      modifies this
      ensures View() == MixKey(old(View()), ikm)
    {
      var chainingKey, key := HkdfHead(ck, ikm), HkdfTail(ck, ikm);
      ck := chainingKey;
      k := Some(key);
      n := 0;
    }

    method Seal(plaintext: Field) returns (c: Field)
      modifies this
      ensures (View(), c) == EncryptAndHash(old(View()), plaintext)
    {
      if k.None? {
        Absorb(plaintext);
        return plaintext;
      }
      c := Ciphertext(k.value, n, h, plaintext);
      Absorb(c);
      n := n + 1;
    }

    method Unseal(c: Field) returns (r: Result<Field, Error>)
      modifies this
      ensures match DecryptAndHash(old(View()), c)
              case Ok((next, plaintext)) => r == Ok(plaintext) && View() == next
              case Err(e) => r == Err(e) && View() == old(View())
    {
      if k.None? {
        Absorb(c);
        return Ok(c);
      }
      if !(c.Ciphertext? && c.under == k.value && c.nonce == n && c.ad == h) { return Err(NotAuthentic); }
      Absorb(c);
      n := n + 1;
      return Ok(c.plaintext);
    }
  }

  method NewState(responderStatic: PublicKey) returns (s: SymmetricState)
    ensures fresh(s) && s.View() == Initialize(responderStatic)
  {
    s := new SymmetricState(ProtocolName, PROTOCOL_CHAINING_KEY);
    s.Absorb(Text([]));
    s.Absorb(KeyBytes(responderStatic));
  }

  method InitiatorWriteMessage1(ownStatic: nat, responderStatic: PublicKey, payload: Field, ephemeral: nat)
    returns (r: Result<Message1, Error>, s: SymmetricState)
    ensures fresh(s)
    ensures match InitiatorWrite1(ownStatic, responderStatic, payload, ephemeral)
            case Ok((m, state)) => r == Ok(m) && s.View() == state
            case Err(e) => r == Err(e)
  {
    s := NewState(responderStatic);
    s.Absorb(KeyBytes(Point(ephemeral)));
    var es := Dh(ephemeral, responderStatic);
    if es.None? { return Err(BadPublicKey), s; }
    s.Rekey(es.value);
    var encryptedStatic := s.Seal(KeyBytes(Point(ownStatic)));
    var ss := Dh(ownStatic, responderStatic);
    if ss.None? { return Err(BadPublicKey), s; }
    s.Rekey(ss.value);
    var encryptedPayload := s.Seal(payload);
    r := Ok(Message1(KeyBytes(Point(ephemeral)), encryptedStatic, encryptedPayload));
  }

  method ResponderReadMessage1(ownStatic: nat, m: Message1)
    returns (r: Result<(Field, Field), Error>, s: SymmetricState)
    ensures fresh(s)
    ensures match ResponderRead1(ownStatic, m)
            case Ok((state, initiatorStatic, payload)) => r == Ok((initiatorStatic, payload)) && s.View() == state
            case Err(e) => r == Err(e)
  {
    s := NewState(Point(ownStatic));
    s.Absorb(m.ephemeral);
    var es := DhField(ownStatic, m.ephemeral);
    if es.Err? { return Err(es.error), s; }
    s.Rekey(es.value);
    var initiatorStatic := s.Unseal(m.encryptedStatic);
    if initiatorStatic.Err? { return Err(initiatorStatic.error), s; }
    var ss := DhField(ownStatic, initiatorStatic.value);
    if ss.Err? { return Err(ss.error), s; }
    s.Rekey(ss.value);
    var payload := s.Unseal(m.encryptedPayload);
    if payload.Err? { return Err(payload.error), s; }
    r := Ok((initiatorStatic.value, payload.value));
  }

  method ResponderWriteMessage2(s: SymmetricState, initiatorEphemeral: Field, initiatorStatic: Field, payload: Field,
          ephemeral: nat)
    returns (r: Result<(Message2, HandshakeResult), Error>)
    modifies s
    ensures r == ResponderWrite2(old(s.View()), initiatorEphemeral, initiatorStatic, payload, ephemeral)
  {
    s.Absorb(KeyBytes(Point(ephemeral)));
    var ee := DhField(ephemeral, initiatorEphemeral);
    if ee.Err? { return Err(BadPublicKey); }
    s.Rekey(ee.value);
    var se := DhField(ephemeral, initiatorStatic);
    if se.Err? { return Err(BadPublicKey); }
    s.Rekey(se.value);
    var encryptedPayload := s.Seal(payload);
    var (k1, k2) := Split(s.View());
    r := Ok((Message2(KeyBytes(Point(ephemeral)), encryptedPayload), HandshakeResult(k2, k1, s.h, s.ck)));
  }

  method InitiatorReadMessage2(s: SymmetricState, ownStatic: nat, ephemeral: nat, m: Message2)
    returns (r: Result<HandshakeResult, Error>)
    modifies s
    ensures r == InitiatorRead2(old(s.View()), ownStatic, ephemeral, m)
  {
    s.Absorb(m.ephemeral);
    var ee := DhField(ephemeral, m.ephemeral);
    if ee.Err? { return Err(BadPublicKey); }
    s.Rekey(ee.value);
    var se := DhField(ownStatic, m.ephemeral);
    if se.Err? { return Err(BadPublicKey); }
    s.Rekey(se.value);
    var payload := s.Unseal(m.encryptedPayload);
    if payload.Err? { return Err(payload.error); }
    var (k1, k2) := Split(s.View());
    r := Ok(HandshakeResult(k1, k2, s.h, s.ck));
  }
}
