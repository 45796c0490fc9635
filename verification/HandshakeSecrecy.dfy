/**
  What the handshake's keys depend on: which private keys somebody must know to
  compute them, and so whose messages each side accepts.
 */
module HandshakeSecrecy {
  import opened Basics
  import opened Symbolic
  import opened Handshake

  /** Can somebody who knows these private keys, and all that is public, compute k? */
  predicate Derives(known: set<nat>, k: Key) {
    Derivable(known, {PROTOCOL_CHAINING_KEY}, k)
  }

  lemma DerivesMixed(known: set<nat>, salt: Key, a: nat, b: nat)
    ensures var can := Derives(known, salt) && (a in known || b in known);
            && Derives(known, HkdfHead(salt, SharedSecret(a, b))) == can
            && Derives(known, HkdfTail(salt, SharedSecret(a, b))) == can
  {
  }

  lemma StartIsPublic(known: set<nat>)
    ensures Derives(known, PROTOCOL_CHAINING_KEY)
  {
  }

  // ----- The first message -----

  /** The responder accepts the message, whose public keys have these private keys. */
  predicate Speakers(r: nat, m: Message1, ephemeral: nat, sender: nat) {
    && m.ephemeral == KeyBytes(Point(ephemeral))
    && ResponderRead1(r, m).Ok?
    && ResponderRead1(r, m).value.1 == KeyBytes(Point(sender))
  }

  /** Every message that is accepted has them. */
  lemma HasSpeakers(r: nat, m: Message1) returns (ephemeral: nat, sender: nat)
    requires ResponderRead1(r, m).Ok?
    ensures Speakers(r, m, ephemeral, sender)
  {
    ephemeral, sender := m.ephemeral.key.name, ResponderRead1(r, m).value.1.key.name;
  }

  /** The key of an accepted payload can be computed by the responder, and otherwise
      only with the private keys of both the ephemeral key and the static key the
      message names: it authenticates its sender, but not to a responder whose own
      key is known. The static key it names is hidden from all others. */
  lemma FirstPayloadKey(r: nat, m: Message1, ephemeral: nat, sender: nat, known: set<nat>)
    requires Speakers(r, m, ephemeral, sender)
    ensures m.encryptedStatic.Ciphertext? && m.encryptedPayload.Ciphertext?
    ensures Derives(known, m.encryptedStatic.under) <==> r in known || ephemeral in known
    ensures Derives(known, m.encryptedPayload.under) <==> r in known || (ephemeral in known && sender in known)
  {
    hide Derives;
    var es := SharedSecret(r, ephemeral);
    assert m.encryptedStatic.under == HkdfTail(PROTOCOL_CHAINING_KEY, es);
    assert m.encryptedPayload.under == HkdfTail(HkdfHead(PROTOCOL_CHAINING_KEY, es), SharedSecret(r, sender));
    StartIsPublic(known);
    DerivesMixed(known, PROTOCOL_CHAINING_KEY, r, ephemeral);
    DerivesMixed(known, HkdfHead(PROTOCOL_CHAINING_KEY, es), r, sender);
  }

  // ----- The session's keys -----

  /** Whoever knows both private keys of one side. */
  predicate KnowsASide(known: set<nat>, i: (nat, nat), r: (nat, nat)) {
    (i.0 in known && i.1 in known) || (r.0 in known && r.1 in known)
  }

  /** The chaining key once all four secrets are mixed in; a side is the name of its
      static and that of its ephemeral key. */
  function LastChainingKey(i: (nat, nat), r: (nat, nat)): Key {
    var first := HkdfHead(HkdfHead(PROTOCOL_CHAINING_KEY, SharedSecret(r.0, i.1)), SharedSecret(r.0, i.0));
    HkdfHead(HkdfHead(first, SharedSecret(r.1, i.1)), SharedSecret(r.1, i.0))
  }

  function LastKey(i: (nat, nat), r: (nat, nat)): Key {
    var first := HkdfHead(HkdfHead(PROTOCOL_CHAINING_KEY, SharedSecret(r.0, i.1)), SharedSecret(r.0, i.0));
    HkdfTail(HkdfHead(first, SharedSecret(r.1, i.1)), SharedSecret(r.1, i.0))
  }

  lemma LastKeyDerives(known: set<nat>, i: (nat, nat), r: (nat, nat))
    ensures Derives(known, LastChainingKey(i, r)) == KnowsASide(known, i, r)
    ensures Derives(known, LastKey(i, r)) == KnowsASide(known, i, r)
  {
    hide Derives, SharedSecret;
    var k1 := HkdfHead(PROTOCOL_CHAINING_KEY, SharedSecret(r.0, i.1));
    var k2 := HkdfHead(k1, SharedSecret(r.0, i.0));
    var k3 := HkdfHead(k2, SharedSecret(r.1, i.1));
    StartIsPublic(known);
    DerivesMixed(known, PROTOCOL_CHAINING_KEY, r.0, i.1);
    DerivesMixed(known, k1, r.0, i.0);
    DerivesMixed(known, k2, r.1, i.1);
    DerivesMixed(known, k3, r.1, i.0);
  }

  lemma SplitDerives(known: set<nat>, ck: Key)
    ensures Derives(known, HkdfHead(ck, NoIkm)) == Derives(known, HkdfTail(ck, NoIkm)) == Derives(known, ck)
  {
  }

  /** The keys of a completed handshake. */
  predicate DerivesAll(known: set<nat>, keys: HandshakeResult, payload: Field) {
    && Derives(known, keys.rootKey) && Derives(known, keys.sendKey) && Derives(known, keys.receiveKey)
    && payload.Ciphertext? && Derives(known, payload.under)
  }

  predicate DerivesNone(known: set<nat>, keys: HandshakeResult, payload: Field) {
    && !Derives(known, keys.rootKey) && !Derives(known, keys.sendKey) && !Derives(known, keys.receiveKey)
    && payload.Ciphertext? && !Derives(known, payload.under)
  }

  /** The initiator's keys, and the one that opens the reply, can be computed exactly
      by whoever knows both private keys of one side: neither from both static keys
      nor from both ephemeral keys, nor from one side's static and the other's
      ephemeral key. */
  lemma InitiatorKeys(run: InitiatorRun, responder: (nat, nat), known: set<nat>)
    requires InitiatorResult(run).Ok?
    requires run.responderStatic == Point(responder.0) && run.reply.ephemeral == KeyBytes(Point(responder.1))
    ensures var keys, payload := InitiatorResult(run).value, run.reply.encryptedPayload;
            if KnowsASide(known, (run.ownStatic, run.ephemeral), responder) then DerivesAll(known, keys, payload)
            else DerivesNone(known, keys, payload)
  {
    var i := (run.ownStatic, run.ephemeral);
    var keys := InitiatorResult(run).value;
    InitiatorMixes(run, responder);
    LastKeyDerives(known, i, responder);
    hide Derives, KnowsASide, LastChainingKey, LastKey;
    SplitDerives(known, keys.rootKey);
  }

  lemma InitiatorMixes(run: InitiatorRun, responder: (nat, nat))
    requires InitiatorResult(run).Ok?
    requires run.responderStatic == Point(responder.0) && run.reply.ephemeral == KeyBytes(Point(responder.1))
    ensures var i, keys := (run.ownStatic, run.ephemeral), InitiatorResult(run).value;
            && keys.rootKey == LastChainingKey(i, responder)
            && keys.sendKey == HkdfHead(keys.rootKey, NoIkm) && keys.receiveKey == HkdfTail(keys.rootKey, NoIkm)
            && run.reply.encryptedPayload.Ciphertext? && run.reply.encryptedPayload.under == LastKey(i, responder)
  {
    SharedSecretAgreement(run.ephemeral, responder.0, 0);
    SharedSecretAgreement(run.ownStatic, responder.0, 0);
    SharedSecretAgreement(run.ephemeral, responder.1, 0);
    SharedSecretAgreement(run.ownStatic, responder.1, 0);
    hide SharedSecret;
  }

  /** The same of the responder's keys. */
  lemma ResponderKeys(run: ResponderRun, ephemeral: nat, sender: nat, known: set<nat>)
    requires ResponderOutcome(run).Ok? && Speakers(run.ownStatic, run.hello, ephemeral, sender)
    ensures var (reply, keys) := ResponderOutcome(run).value;
            if KnowsASide(known, (sender, ephemeral), (run.ownStatic, run.ephemeral))
            then DerivesAll(known, keys, reply.encryptedPayload) else DerivesNone(known, keys, reply.encryptedPayload)
  {
    var (reply, keys) := ResponderOutcome(run).value;
    ResponderMixes(run, ephemeral, sender);
    LastKeyDerives(known, (sender, ephemeral), (run.ownStatic, run.ephemeral));
    hide Derives, KnowsASide, LastChainingKey, LastKey;
    SplitDerives(known, keys.rootKey);
  }

  lemma ResponderMixes(run: ResponderRun, ephemeral: nat, sender: nat)
    requires ResponderOutcome(run).Ok? && Speakers(run.ownStatic, run.hello, ephemeral, sender)
    ensures var i, r := (sender, ephemeral), (run.ownStatic, run.ephemeral);
            var (reply, keys) := ResponderOutcome(run).value;
            && keys.rootKey == LastChainingKey(i, r)
            && keys.sendKey == HkdfTail(keys.rootKey, NoIkm) && keys.receiveKey == HkdfHead(keys.rootKey, NoIkm)
            && reply.encryptedPayload.Ciphertext? && reply.encryptedPayload.under == LastKey(i, r)
  {
    hide SharedSecret;
  }

  // ----- Whose messages are accepted -----

  /** The initiator's first message, or the responder's reply, holds this ciphertext. */
  predicate SealedByInitiator(run: InitiatorRun, c: Field) {
    Hello(run).Ok? && (c == Hello(run).value.encryptedStatic || c == Hello(run).value.encryptedPayload)
  }

  predicate SealedByResponder(run: ResponderRun, c: Field) {
    ResponderOutcome(run).Ok? && c == ResponderOutcome(run).value.0.encryptedPayload
  }

  /** What somebody who knows these private keys can send where these honest runs take
      place: ciphertexts under keys he can compute, and those he has seen. */
  ghost predicate Obtainable(known: set<nat>, starts: set<InitiatorRun>, answers: set<ResponderRun>, c: Field) {
    c.Ciphertext? ==>
      || Derives(known, c.under)
      || (exists run :: run in starts && SealedByInitiator(run, c))
      || (exists run :: run in answers && SealedByResponder(run, c))
  }

  lemma HelloOf(run: InitiatorRun)
    requires Hello(run).Ok?
    ensures run.responderStatic.Point?
    ensures var m, r := Hello(run).value, run.responderStatic.name;
            var h := Mixed(Initialize(run.responderStatic).h, KeyBytes(Point(run.ephemeral)));
            var k1 := HkdfHead(PROTOCOL_CHAINING_KEY, SharedSecret(r, run.ephemeral));
            && m.ephemeral == KeyBytes(Point(run.ephemeral))
            && m.encryptedStatic == Ciphertext(HkdfTail(PROTOCOL_CHAINING_KEY, SharedSecret(r, run.ephemeral)), 0, h,
                                               KeyBytes(Point(run.ownStatic)))
            && m.encryptedPayload == Ciphertext(HkdfTail(k1, SharedSecret(r, run.ownStatic)), 0,
                                                Mixed(h, m.encryptedStatic), run.payload)
  {
    SharedSecretAgreement(run.ephemeral, run.responderStatic.name, 0);
    SharedSecretAgreement(run.ownStatic, run.responderStatic.name, 0);
    hide SharedSecret;
  }

  lemma AcceptedFirst(r: nat, m: Message1, ephemeral: nat, sender: nat)
    requires Speakers(r, m, ephemeral, sender)
    ensures var h := Mixed(Initialize(Point(r)).h, KeyBytes(Point(ephemeral)));
            var k1 := HkdfHead(PROTOCOL_CHAINING_KEY, SharedSecret(r, ephemeral));
            && m.encryptedStatic == Ciphertext(HkdfTail(PROTOCOL_CHAINING_KEY, SharedSecret(r, ephemeral)), 0, h,
                                               KeyBytes(Point(sender)))
            && m.encryptedPayload == Ciphertext(HkdfTail(k1, SharedSecret(r, sender)), 0,
                                                Mixed(h, m.encryptedStatic), ResponderRead1(r, m).value.2)
  {
    hide SharedSecret;
  }

  /** A first message that a responder accepts was written by an honest initiator with
      the static key it names, to this responder and with this payload, unless the
      responder's private key is known, or both the sender's static and the ephemeral
      one. */
  lemma FirstMessageIsAuthentic(r: nat, m: Message1, ephemeral: nat, sender: nat, known: set<nat>,
          starts: set<InitiatorRun>, answers: set<ResponderRun>)
    requires Speakers(r, m, ephemeral, sender) && Obtainable(known, starts, answers, m.encryptedPayload)
    requires r !in known && (sender !in known || ephemeral !in known)
    ensures exists run :: run in starts && Hello(run) == Ok(m) && run.ownStatic == sender
                          && run.ephemeral == ephemeral && run.responderStatic == Point(r)
                          && run.payload == ResponderRead1(r, m).value.2
  {
    FirstPayloadKey(r, m, ephemeral, sender, known);
    AcceptedFirst(r, m, ephemeral, sender);
    hide SharedSecret, Derives;
    var c := m.encryptedPayload;
    if run :| run in answers && SealedByResponder(run, c) {
      var e, s := HasSpeakers(run.ownStatic, run.hello);
      ResponderMixes(run, e, s);
      assert false;
    }
    var run :| run in starts && SealedByInitiator(run, c);
    HelloOf(run);
    assert Hello(run) == Ok(m);
  }

  /** The transcript hash of either side ends with the reply's payload. */
  lemma HashEndsWithReply(i: InitiatorRun, r: ResponderRun)
    ensures InitiatorResult(i).Ok? ==>
              var c := i.reply.encryptedPayload;
              c.Ciphertext? && InitiatorResult(i).value.handshakeHash == Mixed(c.ad, c)
    ensures ResponderOutcome(r).Ok? ==>
              var c := ResponderOutcome(r).value.0.encryptedPayload;
              c.Ciphertext? && ResponderOutcome(r).value.1.handshakeHash == Mixed(c.ad, c)
  {
    hide SharedSecret;
  }

  /** A reply that an initiator accepts was written by an honest responder that holds
      the addressed static key, in answer to this first message, unless both private
      keys of one side are known. */
  lemma ReplyIsAuthentic(run: InitiatorRun, responder: (nat, nat), known: set<nat>, starts: set<InitiatorRun>,
          answers: set<ResponderRun>)
    requires InitiatorResult(run).Ok? && Obtainable(known, starts, answers, run.reply.encryptedPayload)
    requires run.responderStatic == Point(responder.0) && run.reply.ephemeral == KeyBytes(Point(responder.1))
    requires !KnowsASide(known, (run.ownStatic, run.ephemeral), responder)
    ensures exists answer :: answer in answers && ResponderOutcome(answer).Ok? && SameHandshake(run, answer)
  {
    InitiatorKeys(run, responder, known);
    InitiatorMixes(run, responder);
    hide SharedSecret, Derives, SameHandshake;
    var c := run.reply.encryptedPayload;
    if start :| start in starts && SealedByInitiator(start, c) {
      HelloOf(start);
      assert false;
    }
    var answer :| answer in answers && SealedByResponder(answer, c);
    HashEndsWithReply(run, answer);
    Agreement(run, answer);
  }

  // ----- Nonces -----

  /** What a side does to its symmetric state. */
  datatype Operation = Mixes(data: Field) | Rekeys(ikm: Ikm) | Seals(plaintext: Field)

  /** The state after some operations, and the keys and nonces it has sealed under. */
  function After(start: Symmetric, done: seq<Operation>): (Symmetric, seq<(Key, nat)>) {
    if done == [] then (start, [])
    else
      var (s, used) := After(start, done[..|done| - 1]);
      match done[|done| - 1]
      case Mixes(data) => (MixHash(s, data), used)
      case Rekeys(ikm) => (MixKey(s, ikm), used)
      case Seals(plaintext) =>
        var (next, c) := EncryptAndHash(s, plaintext);
        (next, if c.Ciphertext? && s.k.Some? then used + [(c.under, c.nonce)] else used)
  }

  predicate Older(s: Symmetric, u: (Key, nat)) {
    && Depth(u.0) <= Depth(s.ck)
    && (s.k == Some(u.0) ==> u.1 < s.n)
    && (Depth(u.0) == Depth(s.ck) ==> s.k == Some(u.0))
  }

  /** What was used is older than the state's next key and nonce. */
  predicate Used(s: Symmetric, used: seq<(Key, nat)>) {
    && (s.k.Some? ==> Depth(s.k.value) == Depth(s.ck))
    && (forall i :: 0 <= i < |used| ==> Older(s, used[i]))
    && (forall i, j :: 0 <= i < j < |used| ==> used[i] != used[j])
  }

  /** No state ever seals twice under the same key and nonce, whatever is done to it. */
  lemma {:induction false} NoNonceTwice(h: Digest, ck: Key, done: seq<Operation>)
    ensures var (s, used) := After(Symmetric(h, ck, None, 0), done);
            Used(s, used) && forall i, j :: 0 <= i < j < |used| ==> used[i] != used[j]
  {
    if done != [] { NoNonceTwice(h, ck, done[..|done| - 1]); }
  }
}
