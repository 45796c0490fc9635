/** What one decrypt does to a session in step: exactly the due messages open. */
module RatchetDelivery {
  import opened Basics
  import opened Symbolic
  import opened Ratchet
  import opened RatchetSession
  import opened RatchetKeys

  /** A header leads the receiver to number n of chain i: its key is cached, or
      every range of keys to skip on the way is at most MAX_SKIP long. */
  predicate Reaches(w: World, role: Role, h: Header, i: nat, n: nat)
    requires Names(w)
  {
    var s, e := w.Party(role), Epoch(w, role);
    if IsCached(s, h) then h.messageNumber == n
    else if i + 1 == e then Max(s.receiveMessageNumber, h.messageNumber) == n <= s.receiveMessageNumber + MAX_SKIP
    else i == e + 1 && Max(0, h.messageNumber) == n <= MAX_SKIP &&
         (e > 1 ==> h.previousChainLength - s.receiveMessageNumber <= MAX_SKIP)
  }

  /** Packet p is a copy of message n of chain i, sent by the peer and not opened
      yet, under a header that leads there. */
  predicate Due(w: World, role: Role, p: Packet, i: nat, n: nat)
    requires Names(w)
  {
    && FromPeer(role, i)
    && i < |w.chains| && n < |w.chains[i]|
    && Copies(p, w.chains[i][n])
    && p.ciphertext !in w.consumed
    && Reaches(w, role, p.header, i, n)
  }

  lemma EpochBounds(w: World, role: Role)
    requires Names(w)
    ensures var e := Epoch(w, role);
            && 0 <= e <= |w.names| - 1 <= e + 1
            && (FromPeer(role, e) <==> false)
            && Epoch(w, Peer(role)) == (if e == |w.names| - 1 then e - 1 else e + 1)
  {
  }

  /** A message the receiver has gone past was consumed or is still cached. */
  lemma ConsumedMeansDerived(w: World, role: Role, i: nat, n: nat)
    requires Inv(w)
    requires FromPeer(role, i) && i < |w.chains| && n < |w.chains[i]|
    requires w.chains[i][n].packet.ciphertext in w.consumed
    ensures n < Derived(w, role, i)
  {
    var c := w.chains[i][n].packet.ciphertext;
    var j: nat, m: nat, r :| j < |w.chains| && m < |w.chains[j]| && FromPeer(r, j) &&
      w.chains[j][m].packet.ciphertext == c && m < Derived(w, r, j);
    SentOnce(w, i, n, j, m);
  }

  lemma CachedMeansOwed(w: World, role: Role, i: nat, n: nat)
    requires Names(w) && CacheExact(w, role)
    requires i < |w.names|
    requires (Point(w.names[i]), n) in w.Party(role).skippedMessageKeys
    ensures Owed(w, role, i, (Point(w.names[i]), n))
  {
    var j: nat :| j < |w.chains| && Owed(w, role, j, (Point(w.names[i]), n));
    assert w.names[i] == w.names[j];
  }

  // ----- Which key decrypt tries -----

  /** The key comes from the cache. */
  lemma TryCached(w: World, role: Role, p: Packet, newName: nat) returns (i: nat, n: nat)
    requires Inv(w) && Injectable(w, p)
    requires IsCached(w.Party(role), p.header)
    requires Decrypt(w.Party(role), p, newName).Ok?
    ensures Due(w, role, p, i, n) && n == p.header.messageNumber && 0 < i
    ensures Decrypt(w.Party(role), p, newName).value.1 == w.chains[i][n].plaintext
    ensures n < Derived(w, role, i) && p.header.dhPublicKey == Point(w.names[i])
  {
    var s, k := w.Party(role), (p.header.dhPublicKey, p.header.messageNumber);
    assert CacheExact(w, role);
    var j: nat :| j < |w.chains| && Owed(w, role, j, k);
    MessageKeyDerived(w, j, k.1);
    i, n := OpensOnlyIfSent(w, p, s.skippedMessageKeys[k]);
    MessageKeysDistinct(w, i, n, j, k.1);
    assert WellFormed(w, i, n);
  }

  /** The state a receiver reaches by deriving number `to` of its current chain. */
  function Advanced(s: State, chainKey: Key, to: nat): State
    requires s.dhRemote.Some?
  {
    s.(receivingChainKey := Some(ChainAt(chainKey, to + 1)),
       receiveMessageNumber := to + 1,
       skippedMessageKeys := s.skippedMessageKeys +
         SkippedRange(s.dhRemote.value, ChainAt(chainKey, s.receiveMessageNumber), s.receiveMessageNumber, to))
  }

  /** What the chain part of decrypt yields from number received on. */
  lemma ChainStep(s: State, chainKey: Key, number: int)
    requires s.dhRemote.Some?
    requires s.receivingChainKey == Some(ChainAt(chainKey, s.receiveMessageNumber))
    ensures SkipUntil(s, number).Ok? <==> number - s.receiveMessageNumber <= MAX_SKIP
    ensures SkipUntil(s, number).Ok? ==>
              var ready := SkipUntil(s, number).value;
              var to := Max(s.receiveMessageNumber, number);
              && ready.receivingChainKey == Some(ChainAt(chainKey, to))
              && ready.receiveMessageNumber == to
              && ready.(receivingChainKey := Some(NextChainKey(ChainAt(chainKey, to))),
                        receiveMessageNumber := to + 1) == Advanced(s, chainKey, to)
  {
    if s.receiveMessageNumber < number {
      ChainAtAdds(chainKey, s.receiveMessageNumber, number - s.receiveMessageNumber);
    } else {
      var range := SkippedRange(s.dhRemote.value, ChainAt(chainKey, s.receiveMessageNumber),
                                s.receiveMessageNumber, s.receiveMessageNumber);
      assert range == map[];
      assert s.skippedMessageKeys + range == s.skippedMessageKeys;
    }
  }

  /** The key comes from the current receiving chain. */
  lemma TryCurrent(w: World, role: Role, h: Header, newName: nat)
    requires Names(w) && InStep(w, role)
    requires !IsCached(w.Party(role), h)
    requires w.Party(role).dhRemote == Some(h.dhPublicKey)
    ensures var s, e := w.Party(role), Epoch(w, role);
            var to := Max(s.receiveMessageNumber, h.messageNumber);
            if e <= 1 then KeyFor(s, h, newName).Err?
            else if h.messageNumber - s.receiveMessageNumber > MAX_SKIP then KeyFor(s, h, newName).Err?
            else KeyFor(s, h, newName)
                 == Ok((Advanced(s, ChainKey(w.root, w.names, e - 1), to), MessageKeyAt(w, e - 1, to)))
  {
    var s, e := w.Party(role), Epoch(w, role);
    if e > 1 {
      ChainStep(s, ChainKey(w.root, w.names, e - 1), h.messageNumber);
    }
  }

  /** The state after a DH ratchet step to a peer key x, before any of the new
      chain's keys are used. */
  function Stepped(w: World, role: Role, x: nat, newName: nat): State
    requires Names(w)
  {
    var s, e := w.Party(role), Epoch(w, role);
    var receive, send := SharedSecret(w.names[e], x), SharedSecret(newName, x);
    var middle := HkdfHead(RootAt(w.root, w.names, e), receive);
    State(HkdfHead(middle, send), newName, Some(Point(x)), Some(HkdfTail(middle, send)),
          Some(HkdfTail(RootAt(w.root, w.names, e), receive)), 0, 0, s.sendMessageNumber, s.skippedMessageKeys)
  }

  /** The cache once the old receiving chain is left at number `left`. */
  function Closed(w: World, role: Role, left: nat): map<CacheKey, Key>
    requires Names(w)
  {
    var s, e := w.Party(role), Epoch(w, role);
    if e <= 1 then s.skippedMessageKeys
    else s.skippedMessageKeys +
         SkippedRange(Point(w.names[e - 1]), ChainAt(ChainKey(w.root, w.names, e - 1), s.receiveMessageNumber),
                      s.receiveMessageNumber, left)
  }

  /** The number at which a DH ratchet step on header h leaves the old chain. */
  function Left(w: World, role: Role, h: Header): nat {
    Max(w.Party(role).receiveMessageNumber, h.previousChainLength)
  }

  /** Catching up on a new key closes the old chain and steps, or is refused. */
  lemma CatchesUp(w: World, role: Role, h: Header, newName: nat)
    requires Names(w) && InStep(w, role)
    requires w.Party(role).dhRemote != Some(h.dhPublicKey)
    ensures var s, e := w.Party(role), Epoch(w, role);
            CatchUp(s, h, newName).Ok? <==>
              h.dhPublicKey.Point? && (e > 1 ==> h.previousChainLength - s.receiveMessageNumber <= MAX_SKIP)
    ensures CatchUp(w.Party(role), h, newName).Ok? ==>
              CatchUp(w.Party(role), h, newName).value ==
              Stepped(w, role, h.dhPublicKey.name, newName).(skippedMessageKeys := Closed(w, role, Left(w, role, h)))
  {
    var s, e := w.Party(role), Epoch(w, role);
    if e > 1 { ChainStep(s, ChainKey(w.root, w.names, e - 1), h.previousChainLength); }
  }

  /** The key comes from a new chain, after a DH ratchet step. */
  lemma TryNext(w: World, role: Role, h: Header, newName: nat)
    requires Names(w) && InStep(w, role)
    requires !IsCached(w.Party(role), h)
    requires w.Party(role).dhRemote != Some(h.dhPublicKey)
    ensures var s, e := w.Party(role), Epoch(w, role);
            if h.dhPublicKey.Unusable? || h.messageNumber > MAX_SKIP ||
               (e > 1 && h.previousChainLength - s.receiveMessageNumber > MAX_SKIP)
            then KeyFor(s, h, newName).Err?
            else
              var x, number := h.dhPublicKey.name, Max(0, h.messageNumber);
              var chain := HkdfTail(RootAt(w.root, w.names, e), SharedSecret(w.names[e], x));
              var open := Stepped(w, role, x, newName).(skippedMessageKeys := Closed(w, role, Left(w, role, h)));
              KeyFor(s, h, newName) == Ok((Advanced(open, chain, number), KeyAt(chain, number)))
  {
    CatchesUp(w, role, h, newName);
    hide InStep, Closed, Names;
    var caughtUp := CatchUp(w.Party(role), h, newName);
    if caughtUp.Ok? {
      var e := Epoch(w, role);
      ChainStep(caughtUp.value, HkdfTail(RootAt(w.root, w.names, e), SharedSecret(w.names[e], h.dhPublicKey.name)),
                h.messageNumber);
    }
  }

  // ----- Exactly the due messages open -----

  lemma SentOnCurrent(w: World, role: Role, p: Packet, to: nat)
    requires Names(w) && Transcript(w) && Injectable(w, p) && Epoch(w, role) > 1
    requires Open(MessageKeyAt(w, Epoch(w, role) - 1, to), Nonce(p.header.messageNumber),
                  Aad(EncodeHeader(p.header), p.associatedData), p.ciphertext).Some?
    ensures to < |w.chains[Epoch(w, role) - 1]| && Copies(p, w.chains[Epoch(w, role) - 1][to])
    ensures w.chains[Epoch(w, role) - 1][to].plaintext == p.ciphertext.plaintext
  {
    var e := Epoch(w, role);
    MessageKeyDerived(w, e - 1, to);
    var i, m := OpensOnlyIfSent(w, p, MessageKeyAt(w, e - 1, to));
    MessageKeysDistinct(w, i, m, e - 1, to);
  }

  lemma OpenedOnCurrent(w: World, role: Role, p: Packet, newName: nat) returns (n: nat)
    requires Inv(w) && Injectable(w, p)
    requires !IsCached(w.Party(role), p.header)
    requires w.Party(role).dhRemote == Some(p.header.dhPublicKey)
    requires Decrypt(w.Party(role), p, newName).Ok?
    ensures Epoch(w, role) > 1 && Due(w, role, p, Epoch(w, role) - 1, n)
    ensures n == Max(w.Party(role).receiveMessageNumber, p.header.messageNumber)
    ensures Decrypt(w.Party(role), p, newName).value.1 == w.chains[Epoch(w, role) - 1][n].plaintext
  {
    hide CacheExact, ConsumedExact;
    TryCurrent(w, role, p.header, newName);
    n := Max(w.Party(role).receiveMessageNumber, p.header.messageNumber);
    hide InStep;
    SentOnCurrent(w, role, p, n);
    BeyondReceivedIsNew(w, role, n);
  }

  lemma BeyondReceivedIsNew(w: World, role: Role, n: nat)
    requires Inv(w) && Epoch(w, role) > 1
    requires w.Party(role).receiveMessageNumber <= n < |w.chains[Epoch(w, role) - 1]|
    ensures FromPeer(role, Epoch(w, role) - 1)
    ensures w.chains[Epoch(w, role) - 1][n].packet.ciphertext !in w.consumed
  {
    hide CacheExact, ConsumedExact;
    EpochBounds(w, role);
    if w.chains[Epoch(w, role) - 1][n].packet.ciphertext in w.consumed {
      ConsumedMeansDerived(w, role, Epoch(w, role) - 1, n);
    }
  }

  lemma OpenedOnNext(w: World, role: Role, p: Packet, newName: nat) returns (n: nat)
    requires Inv(w) && Injectable(w, p)
    requires !IsCached(w.Party(role), p.header)
    requires w.Party(role).dhRemote != Some(p.header.dhPublicKey)
    requires Decrypt(w.Party(role), p, newName).Ok?
    ensures Epoch(w, role) + 1 < |w.chains| && Due(w, role, p, Epoch(w, role) + 1, n)
    ensures n == Max(0, p.header.messageNumber) && p.header.dhPublicKey == Point(w.names[Epoch(w, role) + 1])
    ensures Decrypt(w.Party(role), p, newName).value.1 == w.chains[Epoch(w, role) + 1][n].plaintext
  {
    hide CacheExact, ConsumedExact, InStep;
    var e, h := Epoch(w, role), p.header;
    EpochBounds(w, role);
    TryNext(w, role, h, newName);
    n := Max(0, h.messageNumber);
    var chain := HkdfTail(RootAt(w.root, w.names, e), SharedSecret(w.names[e], h.dhPublicKey.name));
    assert DerivedFrom(w.root, KeyAt(chain, n)) by {
      RootDerived(w.root, w.names, e);
      ChainDerived(w.root, chain, n);
    }
    var i, m := OpensOnlyIfSent(w, p, KeyAt(chain, n));
    NextChainKeyIsUnique(w, e, h.dhPublicKey.name, n, i, m);
    if p.ciphertext in w.consumed { ConsumedMeansDerived(w, role, i, n); }
  }

  /** Whatever packet opens is a due message of the peer, and opens to the
      plaintext that was encrypted. */
  lemma OpenedIsDue(w: World, role: Role, p: Packet, newName: nat) returns (i: nat, n: nat)
    requires Inv(w) && Injectable(w, p)
    requires Decrypt(w.Party(role), p, newName).Ok?
    ensures Due(w, role, p, i, n)
    ensures Decrypt(w.Party(role), p, newName).value.1 == w.chains[i][n].plaintext
  {
    if IsCached(w.Party(role), p.header) {
      i, n := TryCached(w, role, p, newName);
    } else if w.Party(role).dhRemote == Some(p.header.dhPublicKey) {
      n := OpenedOnCurrent(w, role, p, newName);
      i := Epoch(w, role) - 1;
    } else {
      n := OpenedOnNext(w, role, p, newName);
      i := Epoch(w, role) + 1;
    }
  }

  /** A due message whose key is not cached is in the current chain or the next one. */
  lemma DueAhead(w: World, role: Role, p: Packet, i: nat, n: nat)
    requires Inv(w) && Due(w, role, p, i, n)
    requires !IsCached(w.Party(role), p.header)
    ensures var e := Epoch(w, role);
            && 0 < i && (i + 1 == e || i == e + 1)
            && (i + 1 == e <==> w.Party(role).dhRemote == Some(p.header.dhPublicKey))
            && p.header.dhPublicKey == Point(w.names[i])
  {
    hide ConsumedExact, CacheExact;
    EpochBounds(w, role);
    assert i > 0 && WellFormed(w, i, n);
    if i == Epoch(w, role) + 1 {
      assert Epoch(w, role) > 0 ==> w.names[Epoch(w, role) - 1] != w.names[i];
    }
  }

  /** Every due message opens. */
  lemma DueOpens(w: World, role: Role, p: Packet, newName: nat, i: nat, n: nat)
    requires Inv(w)
    requires Due(w, role, p, i, n)
    ensures Decrypt(w.Party(role), p, newName).Ok?
    ensures Decrypt(w.Party(role), p, newName).value.1 == w.chains[i][n].plaintext
  {
    hide ConsumedExact, InStep, CacheExact;
    var e := Epoch(w, role);
    EpochBounds(w, role);
    assert i > 0 && WellFormed(w, i, n);
    if IsCached(w.Party(role), p.header) {
      DueCachedKey(w, role, i, n);
    } else {
      DueAhead(w, role, p, i, n);
      if i + 1 == e {
        TryCurrent(w, role, p.header, newName);
      } else {
        TryNext(w, role, p.header, newName);
        NextChainKeyIsUnique(w, e, w.names[i], n, i, n);
      }
    }
  }

  /** A cached key of a message is that message's key. */
  lemma DueCachedKey(w: World, role: Role, i: nat, n: nat)
    requires Names(w) && CacheExact(w, role) && i < |w.names|
    requires (Point(w.names[i]), n) in w.Party(role).skippedMessageKeys
    ensures i > 0 && w.Party(role).skippedMessageKeys[(Point(w.names[i]), n)] == MessageKeyAt(w, i, n)
  {
    CachedMeansOwed(w, role, i, n);
  }

  /** A packet, whatever the network made of it, opens if and only if it is a
      copy of a message of the peer that has not been opened, under a header that
      leads the receiver to that message; it then opens to the plaintext encrypted. */
  lemma DecryptExact(w: World, role: Role, p: Packet, newName: nat)
    requires Inv(w) && Injectable(w, p)
    ensures var d := Decrypt(w.Party(role), p, newName);
            && (d.Ok? <==> exists i: nat, n: nat :: Due(w, role, p, i, n))
            && forall i: nat, n: nat :: Due(w, role, p, i, n) ==> d.Ok? && d.value.1 == w.chains[i][n].plaintext
  {
    if Decrypt(w.Party(role), p, newName).Ok? {
      var i, n := OpenedIsDue(w, role, p, newName);
    }
    forall i: nat, n: nat | Due(w, role, p, i, n)
      ensures Decrypt(w.Party(role), p, newName).Ok?
      ensures Decrypt(w.Party(role), p, newName).value.1 == w.chains[i][n].plaintext
    {
      DueOpens(w, role, p, newName, i, n);
    }
  }
}
