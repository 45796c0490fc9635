/**
  Two ratchets started from one root key, and everything the network may do
  between them: lose, reorder, replay, alter and forge. Chain number i of a
  session is the messages sent under the i-th ratchet key generated in it;
  chain 0 belongs to the responder's handshake key and stays empty.
 */
module RatchetSession {
  import opened Basics
  import opened Symbolic
  import opened Ratchet

  datatype Message = Message(packet: Packet, plaintext: Bytes)

  /** names[i] is the i-th ratchet key generated, chains[i] the messages sent
      under it, consumed the ciphertexts that have been opened; closed[i] is how
      many keys of chain i its receiver had derived when it went on to the next. */
  datatype World = World(
    root: Key,
    names: seq<nat>,
    chains: seq<seq<Message>>,
    initiator: State,
    responder: State,
    consumed: set<Cipher<Aad, Bytes>>,
    closed: map<nat, nat>)
  {
    function Party(role: Role): State {
      if role == Initiator then initiator else responder
    }

    function With(role: Role, s: State): World {
      if role == Initiator then this.(initiator := s) else this.(responder := s)
    }
  }

  /** A session right after the handshake handed both sides `root`. */
  function Start(root: Key, responderKey: nat, initiatorKey: nat): World {
    var initiator := InitAsInitiator(root, Point(responderKey), initiatorKey);
    World(root, [responderKey, initiatorKey], [[], []], initiator.value, InitAsResponder(root, responderKey), {},
          map[])
  }

  // ----- Steps -----

  datatype Event =
    | Send(role: Role, plaintext: Bytes, associatedData: Bytes)
    | Deliver(role: Role, packet: Packet, newName: nat)

  datatype Outcome = Sent(packet: Packet) | SendRefused | Opened(plaintext: Bytes) | Rejected

  /** The index of the ratchet key a role currently sends under. */
  function Epoch(w: World, role: Role): nat
    requires |w.names| >= 2
  {
    var last := |w.names| - 1;
    if (role == Initiator) == (last % 2 == 1) then last else last - 1
  }

  /** The record of closed chains once a role leaves its receiving chain at `number`. */
  function Closing(w: World, role: Role, number: nat): map<nat, nat>
    requires |w.names| >= 2
  {
    if Epoch(w, role) > 1 then w.closed[Epoch(w, role) - 1 := number] else w.closed
  }

  function Step(w: World, e: Event): (World, Outcome)
    requires 2 <= |w.names| == |w.chains|
  {
    match e
    case Send(role, plaintext, associatedData) =>
      (match Encrypt(w.Party(role), plaintext, associatedData)
       case Err(_) => (w, SendRefused)
       case Ok((s, packet)) =>
         var i := Epoch(w, role);
         (w.With(role, s).(chains := w.chains[i := w.chains[i] + [Message(packet, plaintext)]]), Sent(packet)))
    case Deliver(role, packet, newName) =>
      (match Decrypt(w.Party(role), packet, newName)
       case Err(_) => (w, Rejected)
       case Ok((s, plaintext)) =>
         var before, w' := w.Party(role), w.With(role, s).(consumed := w.consumed + {packet.ciphertext});
         if s.dhSelf == before.dhSelf then (w', Opened(plaintext))
         else
           var left := Max(before.receiveMessageNumber, packet.header.previousChainLength);
           (w'.(names := w.names + [newName], chains := w.chains + [[]], closed := Closing(w, role, left)),
            Opened(plaintext)))
  }

  /** A message somewhere in a session. */
  ghost predicate IsSent(w: World, m: Message) {
    exists i: nat, n: nat :: i < |w.chains| && n < |w.chains[i]| && w.chains[i][n] == m
  }

  /** What the network may inject: any header, any associated data, and any
      ciphertext that was sent, or that is not sealed under a key derived from
      the session's root. */
  ghost predicate Injectable(w: World, p: Packet) {
    p.ciphertext.Sealed? && DerivedFrom(w.root, p.ciphertext.key) ==>
      exists m :: IsSent(w, m) && m.packet.ciphertext == p.ciphertext
  }

  /** Events the environment can cause: injectable packets and new key names. */
  ghost predicate Admissible(w: World, e: Event) {
    e.Deliver? ==> Injectable(w, e.packet) && e.newName !in w.names
  }

  // ----- The key schedule of a whole session -----

  function RootAt(root: Key, names: seq<nat>, i: nat): Key
    requires i < |names|
  {
    if i == 0 then root else HkdfHead(RootAt(root, names, i - 1), SharedSecret(names[i - 1], names[i]))
  }

  function ChainKey(root: Key, names: seq<nat>, i: nat): Key
    requires 0 < i < |names|
  {
    HkdfTail(RootAt(root, names, i - 1), SharedSecret(names[i - 1], names[i]))
  }

  function MessageKeyAt(w: World, i: nat, n: nat): Key
    requires 0 < i < |w.names|
  {
    KeyAt(ChainKey(w.root, w.names, i), n)
  }

  // ----- The invariant -----

  function ChainLength(w: World, i: int): nat
    requires i < |w.chains|
  {
    if i < 0 then 0 else |w.chains[i]|
  }

  /** How many keys of chain j its receiver has derived: for a chain it has left,
      it will derive no more. */
  function Derived(w: World, role: Role, j: nat): nat
    requires 2 <= |w.names| == |w.chains|
    requires j < |w.chains|
  {
    var e := Epoch(w, role);
    if j + 1 < e then (if j in w.closed then w.closed[j] else 0)
    else if j + 1 == e then w.Party(role).receiveMessageNumber
    else 0
  }

  /** Headers that seal the same: the numbers agree as far as they are encoded. */
  predicate SameOnWire(a: Header, b: Header) {
    EncodeHeader(a) == EncodeHeader(b) && Nonce(a.messageNumber) == Nonce(b.messageNumber)
  }

  /** Packet p is message m, up to what the numbers of the header do not show on the wire. */
  predicate Copies(p: Packet, m: Message) {
    && p.ciphertext == m.packet.ciphertext && p.associatedData == m.packet.associatedData
    && SameOnWire(p.header, m.packet.header)
  }

  predicate FromPeer(role: Role, i: nat) {
    (role == Initiator) == (i % 2 == 0)
  }

  predicate Names(w: World) {
    && 2 <= |w.names| == |w.chains|
    && w.chains[0] == []
    && forall i: nat, j: nat :: i < j < |w.names| ==> w.names[i] != w.names[j]
  }

  /** The n-th message of chain i is the one the key schedule prescribes. */
  predicate WellFormed(w: World, i: nat, n: nat)
    requires |w.names| == |w.chains|
    requires 0 < i < |w.names| && n < |w.chains[i]|
  {
    var m := w.chains[i][n];
    var header := Header(Point(w.names[i]), ChainLength(w, i - 2), n);
    && m.packet.header == header
    && m.packet.ciphertext == Sealed(MessageKeyAt(w, i, n), Nonce(n),
                                     Aad(EncodeHeader(header), m.packet.associatedData), m.plaintext)
  }

  ghost predicate Transcript(w: World)
    requires Names(w)
  {
    forall i: nat, n: nat {:trigger WellFormed(w, i, n)} ::
      0 < i < |w.chains| && n < |w.chains[i]| ==> WellFormed(w, i, n)
  }

  /** The undelivered message a cache entry belongs to. */
  predicate Owed(w: World, role: Role, j: nat, k: CacheKey)
    requires 2 <= |w.names| == |w.chains|
    requires j < |w.chains|
  {
    && FromPeer(role, j)
    && k.0 == Point(w.names[j])
    && k.1 < Derived(w, role, j)
    && k.1 < |w.chains[j]|
    && w.chains[j][k.1].packet.ciphertext !in w.consumed
  }

  /** The cache of skipped keys is exactly the keys of undelivered messages the
      receiver has gone past, in the current chain or left in closed ones. */
  ghost predicate CacheExact(w: World, role: Role)
    requires Names(w)
  {
    var cache := w.Party(role).skippedMessageKeys;
    && (forall k: CacheKey :: k in cache ==> exists j: nat :: j < |w.chains| && Owed(w, role, j, k))
    && (forall j: nat, k: CacheKey :: j < |w.chains| && Owed(w, role, j, k) ==>
          0 < j && k in cache && cache[k] == MessageKeyAt(w, j, k.1))
  }

  /** A role is in step with the session: its keys and counters are the ones the
      schedule prescribes at its epoch, and its remote key is the peer's current
      ratchet key or the one just before it. */
  predicate InStep(w: World, role: Role)
    requires Names(w)
  {
    var s, e := w.Party(role), Epoch(w, role);
    && s.dhSelf == w.names[e]
    && s.rootKey == RootAt(w.root, w.names, e)
    && s.dhRemote == (if e == 0 then None else Some(Point(w.names[e - 1])))
    && s.sendMessageNumber == |w.chains[e]|
    && s.previousSendingChainLength == ChainLength(w, e - 2)
    && s.sendingChainKey ==
         (if e == 0 then None else Some(ChainAt(ChainKey(w.root, w.names, e), |w.chains[e]|)))
    && (if e <= 1 then s.receivingChainKey == None && s.receiveMessageNumber == 0
        else s.receiveMessageNumber <= |w.chains[e - 1]| &&
             s.receivingChainKey == Some(ChainAt(ChainKey(w.root, w.names, e - 1), s.receiveMessageNumber)))
  }

  /** Ciphertext c belongs to a sent message whose key the receiver has derived. */
  ghost predicate Accounted(w: World, c: Cipher<Aad, Bytes>)
    requires Names(w)
  {
    exists j: nat, n: nat, role ::
      j < |w.chains| && n < |w.chains[j]| && FromPeer(role, j) &&
      w.chains[j][n].packet.ciphertext == c && n < Derived(w, role, j)
  }

  ghost predicate ConsumedExact(w: World)
    requires Names(w)
  {
    forall c :: c in w.consumed ==> Accounted(w, c)
  }

  ghost predicate Inv(w: World) {
    && Names(w)
    && Transcript(w)
    && InStep(w, Initiator) && InStep(w, Responder)
    && CacheExact(w, Initiator) && CacheExact(w, Responder)
    && ConsumedExact(w)
  }

  lemma StartInv(root: Key, responderKey: nat, initiatorKey: nat)
    requires responderKey != initiatorKey
    ensures Inv(Start(root, responderKey, initiatorKey))
  {
    var w := Start(root, responderKey, initiatorKey);
    SharedSecretAgreement(initiatorKey, responderKey, responderKey);
    assert RootAt(root, w.names, 1) == w.initiator.rootKey;
  }
}
