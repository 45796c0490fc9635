/** Every step of a session keeps both sides in step. */
module RatchetInvariant {
  import opened Basics
  import opened Symbolic
  import opened Ratchet
  import opened RatchetSession
  import opened RatchetKeys
  import opened RatchetDelivery

  // ----- Sending -----

  lemma SendKeepsInv(w: World, role: Role, plaintext: Bytes, associatedData: Bytes)
    requires Inv(w)
    ensures Inv(Step(w, Send(role, plaintext, associatedData)).0)
  {
    if Epoch(w, role) > 0 {
      var w' := Step(w, Send(role, plaintext, associatedData)).0;
      SendAppends(w, role, plaintext, associatedData);
      SendKeepsTranscript(w, role, plaintext, associatedData);
      SendKeepsInStep(w, role, plaintext, associatedData);
      SendKeepsPeerInStep(w, role, plaintext, associatedData);
      SendKeepsCache(w, w', role);
      SendKeepsCache(w, w', Peer(role));
      SendKeepsConsumed(w, w');
    }
  }

  lemma SendAppends(w: World, role: Role, plaintext: Bytes, associatedData: Bytes)
    requires Names(w) && InStep(w, role) && Epoch(w, role) > 0
    ensures var w' := Step(w, Send(role, plaintext, associatedData)).0;
            Names(w') && Appended(w, w', Epoch(w, role))
  {
    EpochBounds(w, role);
  }

  lemma SendKeepsTranscript(w: World, role: Role, plaintext: Bytes, associatedData: Bytes)
    requires Names(w) && Transcript(w) && InStep(w, role) && Epoch(w, role) > 0
    ensures Transcript(Step(w, Send(role, plaintext, associatedData)).0)
  {
    var e, w' := Epoch(w, role), Step(w, Send(role, plaintext, associatedData)).0;
    EpochBounds(w, role);
    forall i: nat, n: nat | 0 < i < |w'.chains| && n < |w'.chains[i]|
      ensures WellFormed(w', i, n)
    {
      if !(i == e && n == |w.chains[e]|) { assert WellFormed(w, i, n); }
    }
  }

  lemma SendKeepsInStep(w: World, role: Role, plaintext: Bytes, associatedData: Bytes)
    requires Names(w) && InStep(w, role) && Epoch(w, role) > 0
    ensures InStep(Step(w, Send(role, plaintext, associatedData)).0, role)
  {
    EpochBounds(w, role);
  }

  lemma SendKeepsPeerInStep(w: World, role: Role, plaintext: Bytes, associatedData: Bytes)
    requires Names(w) && InStep(w, role) && InStep(w, Peer(role)) && Epoch(w, role) > 0
    ensures InStep(Step(w, Send(role, plaintext, associatedData)).0, Peer(role))
  {
    EpochBounds(w, role);
  }

  /** The two worlds differ in one message appended to one chain. */
  predicate Appended(w: World, w': World, e: nat)
    requires Names(w) && Names(w')
  {
    && w'.names == w.names && w'.root == w.root && w'.consumed == w.consumed && w'.closed == w.closed
    && e < |w.chains| == |w'.chains|
    && (forall i: nat :: i < |w.chains| && i != e ==> w'.chains[i] == w.chains[i])
    && |w'.chains[e]| == |w.chains[e]| + 1 && w'.chains[e][..|w.chains[e]|] == w.chains[e]
    && (forall r :: w'.Party(r).skippedMessageKeys == w.Party(r).skippedMessageKeys)
    && (forall r :: w'.Party(r).receiveMessageNumber == w.Party(r).receiveMessageNumber)
    && (forall r :: Epoch(w', r) <= e + 1)
  }

  lemma OwedAfterSend(w: World, w': World, role: Role, e: nat, j: nat, k: CacheKey)
    requires Names(w) && InStep(w, role) && Names(w') && Appended(w, w', e)
    requires j < |w.chains|
    ensures Owed(w', role, j, k) <==> Owed(w, role, j, k)
    ensures 0 < j ==> MessageKeyAt(w', j, k.1) == MessageKeyAt(w, j, k.1)
  {
    if j == e && k.1 < |w.chains[e]| {
      assert w'.chains[e][k.1] == w.chains[e][k.1];
    }
  }

  lemma SendKeepsCache(w: World, w': World, role: Role)
    requires Inv(w) && Names(w')
    requires exists e :: Appended(w, w', e)
    ensures CacheExact(w', role)
  {
    var e :| Appended(w, w', e);
    assert CacheExact(w, role);
    forall j: nat, k: CacheKey | j < |w.chains|
      ensures Owed(w', role, j, k) <==> Owed(w, role, j, k)
      ensures 0 < j ==> MessageKeyAt(w', j, k.1) == MessageKeyAt(w, j, k.1)
    {
      OwedAfterSend(w, w', role, e, j, k);
    }
  }

  lemma SendKeepsConsumed(w: World, w': World)
    requires Inv(w) && Names(w')
    requires exists e :: Appended(w, w', e)
    ensures ConsumedExact(w')
  {
    hide CacheExact, Transcript, InStep;
    var e :| Appended(w, w', e);
    forall c | c in w'.consumed
      ensures Accounted(w', c)
    {
      var j: nat, n: nat, role :| j < |w.chains| && n < |w.chains[j]| && FromPeer(role, j) &&
        w.chains[j][n].packet.ciphertext == c && n < Derived(w, role, j);
      assert w'.chains[j][n] == w.chains[j][n];
      assert n < Derived(w', role, j);
    }
  }

  // ----- Opening a message -----

  /** Opening message n of chain i changed nothing but the receiver, and every key
      the receiver had derived stays derived. */
  predicate OpenedBy(w: World, w': World, role: Role, i: nat, n: nat)
    requires Names(w)
  {
    && FromPeer(role, i) && i < |w.chains| && n < |w.chains[i]|
    && w' == w.With(role, w'.Party(role)).(consumed := w.consumed + {w.chains[i][n].packet.ciphertext})
    && (forall j: nat :: j < |w.chains| && FromPeer(role, j) ==> Derived(w, role, j) <= Derived(w', role, j))
    && n < Derived(w', role, i)
  }

  lemma OpenKeepsConsumed(w: World, w': World, role: Role, i: nat, n: nat)
    requires Names(w) && ConsumedExact(w) && OpenedBy(w, w', role, i, n)
    ensures Names(w') && ConsumedExact(w')
  {
    forall c | c in w'.consumed
      ensures Accounted(w', c)
    {
      if c in w.consumed {
        StaysAccounted(w, w', role, i, n, c);
      } else {
        assert w'.chains[i][n].packet.ciphertext == c;
      }
    }
  }

  lemma StaysAccounted(w: World, w': World, role: Role, i: nat, n: nat, c: Cipher<Aad, Bytes>)
    requires Names(w) && Accounted(w, c) && OpenedBy(w, w', role, i, n)
    ensures Names(w') && Accounted(w', c)
  {
    var j: nat, m: nat, r :| j < |w.chains| && m < |w.chains[j]| && FromPeer(r, j) &&
      w.chains[j][m].packet.ciphertext == c && m < Derived(w, r, j);
    assert r != role ==> Derived(w', r, j) == Derived(w, r, j);
    assert m < Derived(w', r, j);
  }

  lemma {:induction false} RootPrefix(root: Key, names: seq<nat>, names': seq<nat>, i: nat)
    requires |names| <= |names'| && names'[..|names|] == names
    requires i < |names|
    ensures RootAt(root, names', i) == RootAt(root, names, i)
    decreases i
  {
    if i > 0 {
      assert names'[i - 1] == names[i - 1] && names'[i] == names[i];
      RootPrefix(root, names, names', i - 1);
    }
  }

  lemma ChainKeyPrefix(root: Key, names: seq<nat>, names': seq<nat>, i: nat)
    requires |names| <= |names'| && names'[..|names|] == names
    requires 0 < i < |names|
    ensures ChainKey(root, names', i) == ChainKey(root, names, i)
  {
    RootPrefix(root, names, names', i - 1);
    assert names'[i - 1] == names[i - 1] && names'[i] == names[i];
  }

  lemma OpenKeepsTranscript(w: World, w': World, role: Role, i: nat, n: nat)
    requires Names(w) && Transcript(w) && OpenedBy(w, w', role, i, n)
    ensures Names(w') && Transcript(w')
  {
    forall j: nat, m: nat | 0 < j < |w'.chains| && m < |w'.chains[j]|
      ensures WellFormed(w', j, m)
    {
      assert WellFormed(w, j, m);
    }
  }

  lemma OpenKeepsPeerInStep(w: World, w': World, role: Role, i: nat, n: nat)
    requires Names(w) && InStep(w, Peer(role)) && OpenedBy(w, w', role, i, n)
    ensures Names(w') && InStep(w', Peer(role))
  {
    assert w'.Party(Peer(role)) == w.Party(Peer(role));
  }

  lemma OpenKeepsPeerCache(w: World, w': World, role: Role, i: nat, n: nat)
    requires Names(w) && Transcript(w) && CacheExact(w, Peer(role)) && OpenedBy(w, w', role, i, n)
    ensures Names(w') && CacheExact(w', Peer(role))
  {
    var peer := Peer(role);
    forall k: CacheKey ensures CacheExactAt(w', peer, k)
    {
      forall j: nat | j < |w.chains|
        ensures Owed(w', peer, j, k) <==> Owed(w, peer, j, k)
      {
        PeerOwedUnchanged(w, w', role, i, n, j, k);
      }
      assert CacheExactAt(w, peer, k);
      SameEntry(w, w', peer, k);
    }
    CacheFromEntries(w', peer);
  }

  lemma PeerOwedUnchanged(w: World, w': World, role: Role, i: nat, n: nat, j: nat, k: CacheKey)
    requires Names(w) && Transcript(w) && OpenedBy(w, w', role, i, n)
    requires j < |w.chains|
    ensures Owed(w', Peer(role), j, k) <==> Owed(w, Peer(role), j, k)
  {
    if FromPeer(Peer(role), j) && k.1 < |w.chains[j]| {
      if w.chains[j][k.1].packet.ciphertext == w.chains[i][n].packet.ciphertext {
        SentOnce(w, j, k.1, i, n);
      }
    }
  }

  // ----- The receiver's own cache -----

  /** The cache with its skipped keys, seen from one message. */
  ghost predicate CacheExactAt(w: World, role: Role, k: CacheKey)
    requires Names(w)
  {
    var cache := w.Party(role).skippedMessageKeys;
    && (k in cache ==> exists j: nat :: j < |w.chains| && Owed(w, role, j, k))
    && (forall j: nat :: j < |w.chains| && Owed(w, role, j, k) ==>
          0 < j && k in cache && cache[k] == MessageKeyAt(w, j, k.1))
  }

  /** What opening a cached message commits. */
  lemma CachedStepShape(w: World, role: Role, p: Packet, newName: nat)
    requires 2 <= |w.names| == |w.chains|
    requires IsCached(w.Party(role), p.header)
    requires Decrypt(w.Party(role), p, newName).Ok?
    ensures var s, k := w.Party(role), (p.header.dhPublicKey, p.header.messageNumber as nat);
            Step(w, Deliver(role, p, newName)).0 ==
            w.With(role, s.(skippedMessageKeys := s.skippedMessageKeys - {k}))
            .(consumed := w.consumed + {p.ciphertext})
  {
  }

  /** The world after message n of chain i is taken from the cache. */
  function Uncached(w: World, role: Role, i: nat, n: nat): World
    requires i < |w.names| == |w.chains| && n < |w.chains[i]|
  {
    var s := w.Party(role);
    w.With(role, s.(skippedMessageKeys := s.skippedMessageKeys - {(Point(w.names[i]), n)}))
    .(consumed := w.consumed + {w.chains[i][n].packet.ciphertext})
  }

  /** A cached message is used up. */
  lemma CachedStep(w: World, role: Role, p: Packet, newName: nat)
    requires Inv(w) && Injectable(w, p)
    requires IsCached(w.Party(role), p.header)
    requires Decrypt(w.Party(role), p, newName).Ok?
    ensures Inv(Step(w, Deliver(role, p, newName)).0)
  {
    var i, n := TryCached(w, role, p, newName);
    CachedStepShape(w, role, p, newName);
    UncachedKeepsInv(w, role, i, n);
  }

  lemma UncachedKeepsInv(w: World, role: Role, i: nat, n: nat)
    requires Inv(w) && FromPeer(role, i) && 0 < i < |w.chains| && n < |w.chains[i]| && n < Derived(w, role, i)
    ensures Inv(Uncached(w, role, i, n))
  {
    UncachedOpens(w, role, i, n);
    UncachedInStep(w, role, i, n);
    OpenKeepsRest(w, Uncached(w, role, i, n), role, i, n);
    CachedStepCache(w, Uncached(w, role, i, n), role, i, n);
  }

  lemma UncachedOpens(w: World, role: Role, i: nat, n: nat)
    requires Names(w)
    requires FromPeer(role, i) && i < |w.chains| && n < |w.chains[i]| && n < Derived(w, role, i)
    ensures var w' := Uncached(w, role, i, n);
            && OpenedBy(w, w', role, i, n)
            && w'.Party(role).receiveMessageNumber == w.Party(role).receiveMessageNumber
            && w'.Party(role).skippedMessageKeys == w.Party(role).skippedMessageKeys - {(Point(w.names[i]), n)}
  {
  }

  lemma UncachedInStep(w: World, role: Role, i: nat, n: nat)
    requires Names(w) && InStep(w, role) && i < |w.chains| && n < |w.chains[i]|
    ensures Names(Uncached(w, role, i, n)) && InStep(Uncached(w, role, i, n), role)
  {
  }

  lemma CachedStepCache(w: World, w': World, role: Role, i: nat, n: nat)
    requires Names(w) && Transcript(w) && CacheExact(w, role)
    requires OpenedBy(w, w', role, i, n)
    requires 0 < i
    requires w'.Party(role).receiveMessageNumber == w.Party(role).receiveMessageNumber
    requires w'.Party(role).skippedMessageKeys == w.Party(role).skippedMessageKeys - {(Point(w.names[i]), n)}
    ensures CacheExact(w', role)
  {
    var used := (Point(w.names[i]), n);
    forall k: CacheKey ensures CacheExactAt(w', role, k)
    {
      forall j: nat | j < |w.chains|
        ensures Owed(w', role, j, k) <==> Owed(w, role, j, k) && k != used
      {
        OwedUnlessUsed(w, w', role, i, n, j, k);
      }
      assert CacheExactAt(w, role, k);
      RemoveEntry(w, w', role, used, k);
    }
    CacheFromEntries(w', role);
  }

  lemma RemoveEntry(w: World, w': World, role: Role, used: CacheKey, k: CacheKey)
    requires Names(w) && Names(w') && CacheExactAt(w, role, k)
    requires w'.root == w.root && w'.names == w.names && w'.chains == w.chains
    requires w'.Party(role).skippedMessageKeys == w.Party(role).skippedMessageKeys - {used}
    requires forall j: nat :: j < |w.chains| ==> (Owed(w', role, j, k) <==> Owed(w, role, j, k) && k != used)
    ensures CacheExactAt(w', role, k)
  {
    var cache, cache' := w.Party(role).skippedMessageKeys, w'.Party(role).skippedMessageKeys;
    if k in cache' {
      var j: nat :| j < |w.chains| && Owed(w, role, j, k);
      assert Owed(w', role, j, k);
    }
    forall j: nat | j < |w'.chains| && Owed(w', role, j, k)
      ensures 0 < j && k in cache' && cache'[k] == MessageKeyAt(w', j, k.1)
    {
      assert Owed(w, role, j, k);
    }
  }

  /** Everything in the invariant but the receiver's own state. */
  lemma OpenKeepsRest(w: World, w': World, role: Role, i: nat, n: nat)
    requires Inv(w) && OpenedBy(w, w', role, i, n)
    ensures Names(w') && ConsumedExact(w') && Transcript(w') && InStep(w', Peer(role)) && CacheExact(w', Peer(role))
  {
    OpenKeepsConsumed(w, w', role, i, n);
    OpenKeepsTranscript(w, w', role, i, n);
    OpenKeepsPeerInStep(w, w', role, i, n);
    OpenKeepsPeerCache(w, w', role, i, n);
  }

  lemma CacheFromEntries(w: World, role: Role)
    requires Names(w)
    requires forall k: CacheKey :: CacheExactAt(w, role, k)
    ensures CacheExact(w, role)
  {
    forall j: nat, k: CacheKey | j < |w.chains| && Owed(w, role, j, k)
      ensures var cache := w.Party(role).skippedMessageKeys;
              0 < j && k in cache && cache[k] == MessageKeyAt(w, j, k.1)
    {
      assert CacheExactAt(w, role, k);
    }
    forall k: CacheKey | k in w.Party(role).skippedMessageKeys
      ensures exists j: nat :: j < |w.chains| && Owed(w, role, j, k)
    {
      assert CacheExactAt(w, role, k);
    }
  }

  lemma OwedUnlessUsed(w: World, w': World, role: Role, i: nat, n: nat, j: nat, k: CacheKey)
    requires Names(w) && Transcript(w) && OpenedBy(w, w', role, i, n)
    requires w'.Party(role).receiveMessageNumber == w.Party(role).receiveMessageNumber
    requires 0 < i && j < |w.chains|
    ensures Owed(w', role, j, k) <==> Owed(w, role, j, k) && k != (Point(w.names[i]), n)
  {
    if Owed(w, role, j, k) {
      if w.chains[j][k.1].packet.ciphertext == w.chains[i][n].packet.ciphertext {
        SentOnce(w, j, k.1, i, n);
      }
      if k == (Point(w.names[i]), n) {
        assert w.names[j] == w.names[i];
      }
    }
  }

  // ----- The three moves a decrypt is made of -----

  /** Deriving and caching the keys of the current chain up to number `to`. */
  function Skip(w: World, role: Role, to: nat): World
    requires Names(w) && InStep(w, role) && Epoch(w, role) > 1
  {
    var s, e := w.Party(role), Epoch(w, role);
    var chain := ChainKey(w.root, w.names, e - 1);
    w.With(role, s.(receivingChainKey := Some(ChainAt(chain, to)),
                    receiveMessageNumber := to,
                    skippedMessageKeys := s.skippedMessageKeys +
                      SkippedRange(Point(w.names[e - 1]), ChainAt(chain, s.receiveMessageNumber),
                                   s.receiveMessageNumber, to)))
  }

  /** Deriving the next key of the current chain and opening its message. */
  function Take(w: World, role: Role): World
    requires Names(w) && InStep(w, role) && Epoch(w, role) > 1
    requires w.Party(role).receiveMessageNumber < |w.chains[Epoch(w, role) - 1]|
  {
    var s, e := w.Party(role), Epoch(w, role);
    var r := s.receiveMessageNumber;
    w.With(role, s.(receivingChainKey := Some(ChainAt(ChainKey(w.root, w.names, e - 1), r + 1)),
                    receiveMessageNumber := r + 1))
    .(consumed := w.consumed + {w.chains[e - 1][r].packet.ciphertext})
  }

  /** The DH ratchet step to the peer's next key. */
  function Turn(w: World, role: Role, newName: nat): World
    requires Names(w) && Epoch(w, role) + 1 < |w.names|
  {
    w.With(role, Stepped(w, role, w.names[Epoch(w, role) + 1], newName))
    .(names := w.names + [newName], chains := w.chains + [[]],
      closed := Closing(w, role, w.Party(role).receiveMessageNumber))
  }

  /** No message of chain i from number r on has been opened. */
  predicate Unopened(w: World, i: nat, r: nat)
    requires i < |w.chains|
  {
    var chain := w.chains[i];
    forall n: nat :: r <= n < |chain| ==> chain[n].packet.ciphertext !in w.consumed
  }

  lemma BeyondReceivedUnopened(w: World, role: Role)
    requires Inv(w) && Epoch(w, role) > 1
    ensures Unopened(w, Epoch(w, role) - 1, w.Party(role).receiveMessageNumber)
  {
    var chain := w.chains[Epoch(w, role) - 1];
    forall n: nat | w.Party(role).receiveMessageNumber <= n < |chain|
      ensures chain[n].packet.ciphertext !in w.consumed
    {
      BeyondReceivedIsNew(w, role, n);
    }
  }

  lemma SkipKeepsInv(w: World, role: Role, to: nat)
    requires Inv(w) && Epoch(w, role) > 1
    requires w.Party(role).receiveMessageNumber <= to <= |w.chains[Epoch(w, role) - 1]|
    ensures Inv(Skip(w, role, to))
  {
    SkipShape(w, role, to);
    BeyondReceivedUnopened(w, role);
    SkipKeepsConsumed(w, role, to);
    SkipKeepsInStep(w, role, to);
    SkipKeepsPeerInStep(w, role, to);
    SkipKeepsTranscript(w, role, to);
    SkipKeepsCache(w, role, to);
    WithKeepsPeerCache(w, role, Skip(w, role, to).Party(role));
  }

  lemma SkipShape(w: World, role: Role, to: nat)
    requires Names(w) && InStep(w, role) && Epoch(w, role) > 1
    ensures var w' := Skip(w, role, to);
            && w' == w.With(role, w'.Party(role))
            && Epoch(w', role) == Epoch(w, role) && w'.Party(role).receiveMessageNumber == to
  {
  }

  lemma SkipKeepsInStep(w: World, role: Role, to: nat)
    requires Names(w) && InStep(w, role) && Epoch(w, role) > 1
    requires to <= |w.chains[Epoch(w, role) - 1]|
    ensures Names(Skip(w, role, to)) && InStep(Skip(w, role, to), role)
  {
  }

  lemma SkipKeepsPeerInStep(w: World, role: Role, to: nat)
    requires Names(w) && InStep(w, role) && InStep(w, Peer(role)) && Epoch(w, role) > 1
    ensures InStep(Skip(w, role, to), Peer(role))
  {
    var w' := Skip(w, role, to);
    assert w'.Party(Peer(role)) == w.Party(Peer(role));
  }

  lemma SkipKeepsTranscript(w: World, role: Role, to: nat)
    requires Names(w) && Transcript(w) && InStep(w, role) && Epoch(w, role) > 1
    ensures Transcript(Skip(w, role, to))
  {
    var w' := Skip(w, role, to);
    forall i: nat, n: nat | 0 < i < |w'.chains| && n < |w'.chains[i]|
      ensures WellFormed(w', i, n)
    {
      assert WellFormed(w, i, n);
    }
  }

  lemma SkipKeepsCache(w: World, role: Role, to: nat)
    requires Names(w) && InStep(w, role) && CacheExact(w, role) && Epoch(w, role) > 1
    requires w.Party(role).receiveMessageNumber <= to <= |w.chains[Epoch(w, role) - 1]|
    requires Unopened(w, Epoch(w, role) - 1, w.Party(role).receiveMessageNumber)
    ensures CacheExact(Skip(w, role, to), role)
  {
    forall k: CacheKey ensures CacheExactAt(Skip(w, role, to), role, k)
    {
      assert CacheExactAt(w, role, k);
      SkipEntry(w, role, to, k);
    }
    CacheFromEntries(Skip(w, role, to), role);
  }

  lemma WithKeepsPeerCache(w: World, role: Role, s: State)
    requires Names(w) && CacheExact(w, Peer(role))
    ensures CacheExact(w.With(role, s), Peer(role))
  {
    var w', peer := w.With(role, s), Peer(role);
    forall k: CacheKey ensures CacheExactAt(w', peer, k)
    {
      assert CacheExactAt(w, peer, k);
      forall j: nat | j < |w.chains| ensures Owed(w', peer, j, k) <==> Owed(w, peer, j, k) {
        assert Derived(w', peer, j) == Derived(w, peer, j);
      }
      SameEntry(w, w', peer, k);
    }
    CacheFromEntries(w', peer);
  }

  lemma SkipKeepsConsumed(w: World, role: Role, to: nat)
    requires Names(w) && InStep(w, role) && ConsumedExact(w) && Epoch(w, role) > 1
    requires w.Party(role).receiveMessageNumber <= to
    ensures ConsumedExact(Skip(w, role, to))
  {
    var w' := Skip(w, role, to);
    forall c | c in w'.consumed
      ensures Accounted(w', c)
    {
      var j: nat, n: nat, r :| j < |w.chains| && n < |w.chains[j]| && FromPeer(r, j) &&
        w.chains[j][n].packet.ciphertext == c && n < Derived(w, r, j);
      assert n < Derived(w', r, j);
    }
  }

  lemma SkipEntry(w: World, role: Role, to: nat, k: CacheKey)
    requires Names(w) && InStep(w, role) && Epoch(w, role) > 1
    requires w.Party(role).receiveMessageNumber <= to <= |w.chains[Epoch(w, role) - 1]|
    requires CacheExactAt(w, role, k)
    requires Unopened(w, Epoch(w, role) - 1, w.Party(role).receiveMessageNumber)
    ensures CacheExactAt(Skip(w, role, to), role, k)
  {
    var w', e, r := Skip(w, role, to), Epoch(w, role), w.Party(role).receiveMessageNumber;
    forall j: nat | j < |w.chains|
      ensures Owed(w', role, j, k) <==> Owed(w, role, j, k) || (j == e - 1 && InRange(w, e - 1, r, to, k))
    {
      SkipOwed(w, role, to, j, k);
    }
    SkipCached(w, role, to, k);
    SkipShape(w, role, to);
    hide InStep, Skip;
    AddEntry(w, w', role, e - 1, r, to, k);
  }

  /** The entry of one of the messages from..until-1 of chain i. */
  predicate InRange(w: World, i: nat, from: nat, until: nat, k: CacheKey)
    requires i < |w.names|
  {
    k.0 == Point(w.names[i]) && from <= k.1 < until
  }

  /** Skipping owes exactly the skipped messages in addition. */
  lemma SkipOwed(w: World, role: Role, to: nat, j: nat, k: CacheKey)
    requires Names(w) && InStep(w, role) && Epoch(w, role) > 1 && j < |w.chains|
    requires w.Party(role).receiveMessageNumber <= to <= |w.chains[Epoch(w, role) - 1]|
    requires Unopened(w, Epoch(w, role) - 1, w.Party(role).receiveMessageNumber)
    ensures var e, r := Epoch(w, role), w.Party(role).receiveMessageNumber;
            Owed(Skip(w, role, to), role, j, k) <==>
            Owed(w, role, j, k) || (j == e - 1 && InRange(w, e - 1, r, to, k))
  {
    SkipShape(w, role, to);
    hide Skip, InStep;
    EpochBounds(w, role);
    var w', e := Skip(w, role, to), Epoch(w, role);
    assert Derived(w', role, j) == if j == e - 1 then to else Derived(w, role, j);
  }

  /** Skipping caches exactly the keys of the skipped messages in addition. */
  lemma SkipCached(w: World, role: Role, to: nat, k: CacheKey)
    requires Names(w) && InStep(w, role) && Epoch(w, role) > 1
    ensures var e, r := Epoch(w, role), w.Party(role).receiveMessageNumber;
            var cache, cache' := w.Party(role).skippedMessageKeys, Skip(w, role, to).Party(role).skippedMessageKeys;
            && (k in cache' <==> k in cache || InRange(w, e - 1, r, to, k))
            && (k in cache' ==>
                  cache'[k] == if InRange(w, e - 1, r, to, k) then MessageKeyAt(w, e - 1, k.1) else cache[k])
  {
    var s, e := w.Party(role), Epoch(w, role);
    var chain, r := ChainKey(w.root, w.names, e - 1), s.receiveMessageNumber;
    RangeEntry(Point(w.names[e - 1]), ChainAt(chain, r), r, to, k);
    if r <= k.1 { ChainAtAdds(chain, r, k.1 - r); }
  }

  /** An exact entry stays exact when the messages from..until-1 of chain i come
      to be owed and cached. */
  lemma AddEntry(w: World, w': World, role: Role, i: nat, from: nat, until: nat, k: CacheKey)
    requires Names(w) && CacheExactAt(w, role, k) && 0 < i < |w.chains|
    requires w' == w.With(role, w'.Party(role))
    requires forall j: nat :: j < |w.chains| && Owed(w, role, j, k) && k.0 == Point(w.names[i]) ==> j == i
    requires forall j: nat :: j < |w.chains| ==>
               (Owed(w', role, j, k) <==> Owed(w, role, j, k) || (j == i && InRange(w, i, from, until, k)))
    requires var cache, cache' := w.Party(role).skippedMessageKeys, w'.Party(role).skippedMessageKeys;
             && (k in cache' <==> k in cache || InRange(w, i, from, until, k))
             && (k in cache' ==>
                   cache'[k] == if InRange(w, i, from, until, k) then MessageKeyAt(w, i, k.1) else cache[k])
    ensures CacheExactAt(w', role, k)
  {
    var cache' := w'.Party(role).skippedMessageKeys;
    if k in cache' && k in w.Party(role).skippedMessageKeys {
      var j: nat :| j < |w.chains| && Owed(w, role, j, k);
      assert Owed(w', role, j, k);
    } else if k in cache' {
      assert Owed(w', role, i, k);
    }
    forall j: nat | j < |w'.chains| && Owed(w', role, j, k)
      ensures 0 < j && k in cache' && cache'[k] == MessageKeyAt(w', j, k.1)
    {
      assert MessageKeyAt(w', i, k.1) == MessageKeyAt(w, i, k.1);
    }
  }

  lemma TakeKeepsInv(w: World, role: Role)
    requires Inv(w) && Epoch(w, role) > 1
    requires w.Party(role).receiveMessageNumber < |w.chains[Epoch(w, role) - 1]|
    ensures Inv(Take(w, role))
  {
    TakeOpens(w, role);
    OpenKeepsRest(w, Take(w, role), role, Epoch(w, role) - 1, w.Party(role).receiveMessageNumber);
    TakeKeepsCache(w, role);
  }

  lemma TakeOpens(w: World, role: Role)
    requires Names(w) && InStep(w, role) && Epoch(w, role) > 1
    requires w.Party(role).receiveMessageNumber < |w.chains[Epoch(w, role) - 1]|
    ensures var w' := Take(w, role);
            && Names(w') && InStep(w', role)
            && OpenedBy(w, w', role, Epoch(w, role) - 1, w.Party(role).receiveMessageNumber)
  {
    hide CacheExact, Transcript, ConsumedExact;
    EpochBounds(w, role);
  }

  lemma TakeKeepsCache(w: World, role: Role)
    requires Names(w) && Transcript(w) && InStep(w, role) && CacheExact(w, role) && Epoch(w, role) > 1
    requires w.Party(role).receiveMessageNumber < |w.chains[Epoch(w, role) - 1]|
    ensures CacheExact(Take(w, role), role)
  {
    var w' := Take(w, role);
    assert Names(w') && w'.root == w.root && w'.names == w.names && w'.chains == w.chains;
    assert w'.Party(role).skippedMessageKeys == w.Party(role).skippedMessageKeys;
    forall k: CacheKey ensures CacheExactAt(w', role, k)
    {
      TakeEntry(w, role, k);
    }
    CacheFromEntries(w', role);
  }

  lemma TakeEntry(w: World, role: Role, k: CacheKey)
    requires Names(w) && Transcript(w) && InStep(w, role) && CacheExact(w, role) && Epoch(w, role) > 1
    requires w.Party(role).receiveMessageNumber < |w.chains[Epoch(w, role) - 1]|
    requires var w' := Take(w, role);
             Names(w') && w'.root == w.root && w'.names == w.names && w'.chains == w.chains &&
             w'.Party(role).skippedMessageKeys == w.Party(role).skippedMessageKeys
    ensures CacheExactAt(Take(w, role), role, k)
  {
    assert CacheExactAt(w, role, k);
    hide Take, InStep, Transcript, CacheExact;
    forall j: nat | j < |w.chains|
      ensures Owed(Take(w, role), role, j, k) <==> Owed(w, role, j, k)
    {
      TakeOwed(w, role, j, k);
    }
    SameEntry(w, Take(w, role), role, k);
  }

  lemma TakeOwed(w: World, role: Role, j: nat, k: CacheKey)
    requires Names(w) && Transcript(w) && InStep(w, role) && Epoch(w, role) > 1
    requires w.Party(role).receiveMessageNumber < |w.chains[Epoch(w, role) - 1]|
    requires j < |w.chains|
    ensures Owed(Take(w, role), role, j, k) <==> Owed(w, role, j, k)
  {
    var w', e, r := Take(w, role), Epoch(w, role), w.Party(role).receiveMessageNumber;
    if k.1 < |w.chains[j]| && w.chains[j][k.1].packet.ciphertext == w.chains[e - 1][r].packet.ciphertext {
      SentOnce(w, j, k.1, e - 1, r);
    }
  }

  lemma SameEntry(w: World, w': World, role: Role, k: CacheKey)
    requires Names(w) && Names(w') && CacheExactAt(w, role, k)
    requires w'.root == w.root && w'.names == w.names && w'.chains == w.chains
    requires w'.Party(role).skippedMessageKeys == w.Party(role).skippedMessageKeys
    requires forall j: nat :: j < |w.chains| ==> (Owed(w', role, j, k) <==> Owed(w, role, j, k))
    ensures CacheExactAt(w', role, k)
  {
    var cache := w'.Party(role).skippedMessageKeys;
    forall j: nat | j < |w'.chains| && Owed(w', role, j, k)
      ensures 0 < j && k in cache && cache[k] == MessageKeyAt(w', j, k.1)
    {
      assert Owed(w, role, j, k);
    }
    if k in cache {
      var j: nat :| j < |w.chains| && Owed(w, role, j, k);
      assert Owed(w', role, j, k);
    }
  }

  lemma TurnKeepsInv(w: World, role: Role, newName: nat)
    requires Inv(w) && Epoch(w, role) + 1 < |w.names| && newName !in w.names
    ensures Inv(Turn(w, role, newName))
  {
    TurnShape(w, role, newName);
    TurnKeepsInStep(w, role, newName);
    TurnKeepsPeerInStep(w, role, newName);
    TurnKeepsTranscript(w, role, newName);
    TurnKeepsConsumed(w, role, newName);
    TurnKeepsCache(w, role, newName, Initiator);
    TurnKeepsCache(w, role, newName, Responder);
  }

  lemma TurnShape(w: World, role: Role, newName: nat)
    requires Names(w) && Epoch(w, role) + 1 < |w.names| && newName !in w.names
    ensures var w' := Turn(w, role, newName);
            && Names(w') && w'.root == w.root
            && Epoch(w', role) == Epoch(w, role) + 2 && Epoch(w', Peer(role)) == Epoch(w, role) + 1
            && w'.Party(role) == Stepped(w, role, w.names[Epoch(w, role) + 1], newName)
  {
    EpochBounds(w, role);
  }

  lemma TurnKeepsInStep(w: World, role: Role, newName: nat)
    requires Names(w) && InStep(w, role) && Epoch(w, role) + 1 < |w.names| && newName !in w.names
    ensures Names(Turn(w, role, newName)) && InStep(Turn(w, role, newName), role)
  {
    var w', e := Turn(w, role, newName), Epoch(w, role);
    EpochBounds(w, role);
    TurnShape(w, role, newName);
    var x := w.names[e + 1];
    TurnRoots(w, role, newName);
    assert w'.names[e + 1] == x && w'.names[e + 2] == newName;
    assert w'.chains[e + 2] == [] && w'.chains[e] == w.chains[e];
  }

  /** The root keys a DH ratchet step derives are the next two of the schedule. */
  lemma TurnRoots(w: World, role: Role, newName: nat)
    requires Names(w) && Epoch(w, role) + 1 < |w.names|
    requires |Turn(w, role, newName).names| == |w.names| + 1 && Epoch(w, role) + 2 == |w.names|
    ensures var e, names := Epoch(w, role), Turn(w, role, newName).names;
            var x, middle := w.names[e + 1], RootAt(w.root, names, e + 1);
            && RootAt(w.root, names, e) == RootAt(w.root, w.names, e)
            && middle == HkdfHead(RootAt(w.root, w.names, e), SharedSecret(w.names[e], x))
            && RootAt(w.root, names, e + 2) == HkdfHead(middle, SharedSecret(newName, x))
            && ChainKey(w.root, names, e + 2) == HkdfTail(middle, SharedSecret(newName, x))
            && ChainKey(w.root, names, e + 1) == HkdfTail(RootAt(w.root, w.names, e), SharedSecret(w.names[e], x))
  {
    var e, names := Epoch(w, role), Turn(w, role, newName).names;
    var x := w.names[e + 1];
    SharedSecretAgreement(newName, x, x);
    RootPrefix(w.root, w.names, names, e);
    assert names[e] == w.names[e] && names[e + 1] == x && names[e + 2] == newName;
  }

  lemma TurnKeepsPeerInStep(w: World, role: Role, newName: nat)
    requires Names(w) && InStep(w, Peer(role)) && Epoch(w, role) + 1 < |w.names| && newName !in w.names
    requires Names(Turn(w, role, newName)) && Epoch(Turn(w, role, newName), Peer(role)) == Epoch(w, role) + 1
    ensures InStep(Turn(w, role, newName), Peer(role))
  {
    var w', peer := Turn(w, role, newName), Peer(role);
    var e := Epoch(w, peer);
    EpochBounds(w, role);
    RootPrefix(w.root, w.names, w'.names, e);
    if e >= 1 { ChainKeyPrefix(w.root, w.names, w'.names, e); }
    if e >= 2 { ChainKeyPrefix(w.root, w.names, w'.names, e - 1); }
  }

  lemma TurnKeepsTranscript(w: World, role: Role, newName: nat)
    requires Names(w) && Transcript(w) && Epoch(w, role) + 1 < |w.names|
    requires Names(Turn(w, role, newName))
    ensures Transcript(Turn(w, role, newName))
  {
    var w' := Turn(w, role, newName);
    forall i: nat, n: nat | 0 < i < |w'.chains| && n < |w'.chains[i]|
      ensures WellFormed(w', i, n)
    {
      assert WellFormed(w, i, n);
      ChainKeyPrefix(w.root, w.names, w'.names, i);
    }
  }

  lemma TurnDerived(w: World, role: Role, newName: nat, r: Role, j: nat)
    requires Names(w) && InStep(w, role) && Epoch(w, role) + 1 < |w.names| && newName !in w.names
    requires 0 < j < |w.chains| && FromPeer(r, j)
    ensures Derived(Turn(w, role, newName), r, j) == Derived(w, r, j)
  {
    EpochBounds(w, role);
  }

  lemma TurnKeepsConsumed(w: World, role: Role, newName: nat)
    requires Names(w) && InStep(w, role) && ConsumedExact(w) && Epoch(w, role) + 1 < |w.names| && newName !in w.names
    requires Names(Turn(w, role, newName))
    ensures ConsumedExact(Turn(w, role, newName))
  {
    var w' := Turn(w, role, newName);
    forall c | c in w'.consumed
      ensures Accounted(w', c)
    {
      var j: nat, n: nat, r :| j < |w.chains| && n < |w.chains[j]| && FromPeer(r, j) &&
        w.chains[j][n].packet.ciphertext == c && n < Derived(w, r, j);
      TurnDerived(w, role, newName, r, j);
      assert w'.chains[j] == w.chains[j];
    }
  }

  lemma TurnKeepsCache(w: World, role: Role, newName: nat, r: Role)
    requires Names(w) && InStep(w, role) && CacheExact(w, r) && Epoch(w, role) + 1 < |w.names| && newName !in w.names
    requires Names(Turn(w, role, newName))
    ensures CacheExact(Turn(w, role, newName), r)
  {
    var w' := Turn(w, role, newName);
    forall k: CacheKey ensures CacheExactAt(w', r, k)
    {
      assert CacheExactAt(w, r, k);
      TurnEntry(w, role, newName, r, k);
    }
    CacheFromEntries(w', r);
  }

  lemma TurnEntry(w: World, role: Role, newName: nat, r: Role, k: CacheKey)
    requires Names(w) && InStep(w, role) && CacheExactAt(w, r, k) && Epoch(w, role) + 1 < |w.names|
        && newName !in w.names
    requires Names(Turn(w, role, newName))
    ensures CacheExactAt(Turn(w, role, newName), r, k)
  {
    var w' := Turn(w, role, newName);
    var cache := w'.Party(r).skippedMessageKeys;
    assert cache == w.Party(r).skippedMessageKeys;
    if k in cache {
      var j: nat :| j < |w.chains| && Owed(w, r, j, k);
      TurnDerived(w, role, newName, r, j);
      assert w'.chains[j] == w.chains[j];
      assert Owed(w', r, j, k);
    }
    forall j: nat | j < |w'.chains| && Owed(w', r, j, k)
      ensures 0 < j && k in cache && cache[k] == MessageKeyAt(w', j, k.1)
    {
      assert j < |w.chains|;
      TurnDerived(w, role, newName, r, j);
      assert w'.chains[j] == w.chains[j];
      assert Owed(w, r, j, k);
      ChainKeyPrefix(w.root, w.names, w'.names, j);
    }
  }

  // ----- A decrypt is a sequence of moves -----

  /** Skipping to number n of the current chain and opening it. */
  function SkipTake(w: World, role: Role, n: nat): World
    requires Names(w) && InStep(w, role) && Epoch(w, role) > 1
    requires w.Party(role).receiveMessageNumber <= n < |w.chains[Epoch(w, role) - 1]|
  {
    SkipKeepsInStep(w, role, n);
    Take(Skip(w, role, n), role)
  }

  lemma SkipTakeKeepsInv(w: World, role: Role, n: nat)
    requires Inv(w) && Epoch(w, role) > 1
    requires w.Party(role).receiveMessageNumber <= n < |w.chains[Epoch(w, role) - 1]|
    ensures Inv(SkipTake(w, role, n))
  {
    hide CacheExact, Transcript, ConsumedExact;
    SkipShape(w, role, n);
    SkipKeepsInv(w, role, n);
    var w1 := Skip(w, role, n);
    assert Epoch(w1, role) > 1;
    assert w1.Party(role).receiveMessageNumber < |w1.chains[Epoch(w1, role) - 1]|;
    TakeKeepsInv(w1, role);
  }

  lemma SkipTakeParty(w: World, role: Role, n: nat)
    requires Names(w) && InStep(w, role) && Epoch(w, role) > 1
    requires w.Party(role).receiveMessageNumber <= n < |w.chains[Epoch(w, role) - 1]|
    ensures SkipTake(w, role, n) ==
            w.With(role, Advanced(w.Party(role), ChainKey(w.root, w.names, Epoch(w, role) - 1), n))
            .(consumed := w.consumed + {w.chains[Epoch(w, role) - 1][n].packet.ciphertext})
  {
  }

  lemma CurrentStep(w: World, role: Role, p: Packet, newName: nat)
    requires Inv(w) && Injectable(w, p)
    requires !IsCached(w.Party(role), p.header)
    requires w.Party(role).dhRemote == Some(p.header.dhPublicKey)
    requires Decrypt(w.Party(role), p, newName).Ok?
    ensures Inv(Step(w, Deliver(role, p, newName)).0)
  {
    var n := OpenedOnCurrent(w, role, p, newName);
    CurrentIsSkipTake(w, role, p, newName, n);
    SkipTakeKeepsInv(w, role, n);
  }

  lemma CurrentIsSkipTake(w: World, role: Role, p: Packet, newName: nat, n: nat)
    requires Names(w) && InStep(w, role) && Epoch(w, role) > 1
    requires !IsCached(w.Party(role), p.header)
    requires w.Party(role).dhRemote == Some(p.header.dhPublicKey)
    requires w.Party(role).receiveMessageNumber <= n < |w.chains[Epoch(w, role) - 1]|
    requires w.chains[Epoch(w, role) - 1][n].packet.ciphertext == p.ciphertext
    requires n == Max(w.Party(role).receiveMessageNumber, p.header.messageNumber)
    requires Decrypt(w.Party(role), p, newName).Ok?
    ensures Step(w, Deliver(role, p, newName)).0 == SkipTake(w, role, n)
  {
    TryCurrent(w, role, p.header, newName);
    SkipTakeParty(w, role, n);
    assert Decrypt(w.Party(role), p, newName).value.0
        == Advanced(w.Party(role), ChainKey(w.root, w.names, Epoch(w, role) - 1), n);
  }

  /** A number at which a role can leave its receiving chain. */
  predicate CanLeaveAt(w: World, role: Role, left: nat)
    requires Names(w)
  {
    Epoch(w, role) > 1 ==> w.Party(role).receiveMessageNumber <= left <= |w.chains[Epoch(w, role) - 1]|
  }

  /** The receiver's chain before the step, its keys derived up to `left`. */
  function ClosedWorld(w: World, role: Role, left: nat): World
    requires Names(w) && InStep(w, role)
  {
    if Epoch(w, role) > 1 then Skip(w, role, left) else w
  }

  lemma ClosedShape(w: World, role: Role, left: nat)
    requires Names(w) && InStep(w, role) && CanLeaveAt(w, role, left)
    ensures var w' := ClosedWorld(w, role, left);
            && w' == w.With(role, w'.Party(role))
            && Names(w') && InStep(w', role) && Epoch(w', role) == Epoch(w, role)
            && (Epoch(w, role) > 1 ==> w'.Party(role).receiveMessageNumber == left)
            && w'.Party(role).sendMessageNumber == w.Party(role).sendMessageNumber
            && w'.Party(role).skippedMessageKeys == Closed(w, role, left)
  {
  }

  lemma ClosedKeepsInv(w: World, role: Role, left: nat)
    requires Inv(w) && CanLeaveAt(w, role, left)
    ensures Inv(ClosedWorld(w, role, left))
  {
    hide InStep, CacheExact, ConsumedExact, Transcript, Skip;
    if Epoch(w, role) > 1 { SkipKeepsInv(w, role, left); }
  }

  /** Leaving the old chain at number `left` and turning to the peer's next key. */
  function Turned(w: World, role: Role, newName: nat, left: nat): World
    requires Names(w) && InStep(w, role) && Epoch(w, role) + 1 < |w.names|
  {
    var e := Epoch(w, role);
    var stepped := Stepped(w, role, w.names[e + 1], newName);
    w.With(role, stepped.(skippedMessageKeys := Closed(w, role, left)))
    .(names := w.names + [newName], chains := w.chains + [[]], closed := Closing(w, role, left))
  }

  lemma TurnedIsTurn(w: World, role: Role, newName: nat, left: nat)
    requires Names(w) && InStep(w, role) && Epoch(w, role) + 1 < |w.names| && CanLeaveAt(w, role, left)
    ensures var w' := ClosedWorld(w, role, left);
            && Names(w') && Epoch(w', role) + 1 < |w'.names|
            && Turned(w, role, newName, left) == Turn(w', role, newName)
  {
    ClosedShape(w, role, left);
  }

  lemma TurnedKeepsInv(w: World, role: Role, newName: nat, left: nat)
    requires Inv(w) && Epoch(w, role) + 1 < |w.names| && newName !in w.names && CanLeaveAt(w, role, left)
    ensures Inv(Turned(w, role, newName, left))
  {
    hide CacheExact, ConsumedExact, Transcript, InStep;
    ClosedKeepsInv(w, role, left);
    ClosedShape(w, role, left);
    TurnKeepsInv(ClosedWorld(w, role, left), role, newName);
    TurnedIsTurn(w, role, newName, left);
  }

  lemma TurnedShape(w: World, role: Role, newName: nat, left: nat)
    requires Names(w) && InStep(w, role) && Epoch(w, role) + 1 < |w.names|
    ensures var w2, e := Turned(w, role, newName, left), Epoch(w, role);
            && |w2.names| == |w2.chains| == |w.names| + 1
            && Epoch(w2, role) == e + 2 && w2.chains[e + 1] == w.chains[e + 1] && w2.root == w.root
            && w2.Party(role).receiveMessageNumber == 0
            && ChainKey(w.root, w2.names, e + 1) ==
                HkdfTail(RootAt(w.root, w.names, e), SharedSecret(w.names[e], w.names[e + 1]))
  {
    EpochBounds(w, role);
    ChainKeyPrefix(w.root, w.names, Turned(w, role, newName, left).names, Epoch(w, role) + 1);
  }

  /** A copy of a due message of the next chain leaves the old chain within what
      was sent of it: its length of the old chain is right modulo 2^32, and no
      more than MAX_SKIP ahead. */
  lemma LeavesWithin(w: World, role: Role, p: Packet, n: nat)
    requires Names(w) && Transcript(w) && InStep(w, role) && Epoch(w, role) + 1 < |w.names|
    requires Due(w, role, p, Epoch(w, role) + 1, n) && !IsCached(w.Party(role), p.header)
    ensures CanLeaveAt(w, role, Left(w, role, p.header))
  {
    var e := Epoch(w, role);
    assert WellFormed(w, e + 1, n);
    if e > 1 {
      assert p.header.previousChainLength % TWO_TO_THE_32 == |w.chains[e - 1]| % TWO_TO_THE_32;
      SmallerOfCongruent(p.header.previousChainLength, |w.chains[e - 1]|);
    }
  }

  lemma SmallerOfCongruent(a: int, b: int)
    requires a % TWO_TO_THE_32 == b % TWO_TO_THE_32 && a < b + TWO_TO_THE_32
    ensures a <= b
  {
  }

  lemma NextStep(w: World, role: Role, p: Packet, newName: nat)
    requires Inv(w) && Injectable(w, p) && newName !in w.names
    requires !IsCached(w.Party(role), p.header)
    requires w.Party(role).dhRemote != Some(p.header.dhPublicKey)
    requires Decrypt(w.Party(role), p, newName).Ok?
    ensures Inv(Step(w, Deliver(role, p, newName)).0)
  {
    hide CacheExact, ConsumedExact, Transcript, InStep, Turned, SkipTake;
    var n := OpenedOnNext(w, role, p, newName);
    var left := Left(w, role, p.header);
    LeavesWithin(w, role, p, n);
    TurnedSkipTake(w, role, newName, left, n);
    NextKey(w, role, p, newName, n);
    NextWorld(w, role, p, newName, n);
    SameWorld(w, Turned(w, role, newName, left), role, n, p.ciphertext);
  }

  lemma SameWorld(w: World, w2: World, role: Role, n: nat, c: Cipher<Aad, Bytes>)
    requires Names(w2) && InStep(w2, role) && Epoch(w2, role) > 1 && w2.consumed == w.consumed
    requires w2.Party(role).receiveMessageNumber <= n < |w2.chains[Epoch(w2, role) - 1]|
    requires w2.chains[Epoch(w2, role) - 1][n].packet.ciphertext == c
    ensures SkipTake(w2, role, n)
         == w2.With(role, Advanced(w2.Party(role), ChainKey(w2.root, w2.names, Epoch(w2, role) - 1), n))
            .(consumed := w.consumed + {c})
  {
    SkipTakeParty(w2, role, n);
  }

  lemma TurnedSkipTake(w: World, role: Role, newName: nat, left: nat, n: nat)
    requires Inv(w) && Epoch(w, role) + 1 < |w.names| && newName !in w.names && CanLeaveAt(w, role, left)
    requires n < |w.chains[Epoch(w, role) + 1]|
    ensures var w2 := Turned(w, role, newName, left);
            && Names(w2) && InStep(w2, role) && Epoch(w2, role) == Epoch(w, role) + 2
            && w2.Party(role).receiveMessageNumber == 0
            && w2.chains[Epoch(w, role) + 1] == w.chains[Epoch(w, role) + 1]
            && w2.root == w.root && w2.consumed == w.consumed
            && Inv(SkipTake(w2, role, n))
  {
    hide CacheExact, ConsumedExact, Transcript;
    TurnedKeepsInv(w, role, newName, left);
    TurnedShape(w, role, newName, left);
    var w2 := Turned(w, role, newName, left);
    assert w2.chains[Epoch(w2, role) - 1] == w.chains[Epoch(w, role) + 1];
    SkipTakeKeepsInv(w2, role, n);
  }

  /** The state a decrypt on the next chain commits. */
  lemma NextKey(w: World, role: Role, p: Packet, newName: nat, n: nat)
    requires Names(w) && InStep(w, role) && Epoch(w, role) + 1 < |w.names|
    requires !IsCached(w.Party(role), p.header)
    requires w.Party(role).dhRemote != Some(p.header.dhPublicKey)
    requires p.header.dhPublicKey == Point(w.names[Epoch(w, role) + 1]) && n == Max(0, p.header.messageNumber)
    requires Decrypt(w.Party(role), p, newName).Ok?
    ensures var w2 := Turned(w, role, newName, Left(w, role, p.header));
            && |w2.names| > Epoch(w, role) + 1
            && Decrypt(w.Party(role), p, newName).value.0
               == Advanced(w2.Party(role), ChainKey(w.root, w2.names, Epoch(w, role) + 1), n)
  {
    TryNext(w, role, p.header, newName);
    TurnedShape(w, role, newName, Left(w, role, p.header));
  }

  /** The world a decrypt on the next chain leads to. */
  lemma NextWorld(w: World, role: Role, p: Packet, newName: nat, n: nat)
    requires Names(w) && InStep(w, role) && newName !in w.names && Epoch(w, role) + 1 < |w.names|
    requires Decrypt(w.Party(role), p, newName).Ok?
    requires |Turned(w, role, newName, Left(w, role, p.header)).names| > Epoch(w, role) + 1
    requires var w2 := Turned(w, role, newName, Left(w, role, p.header));
             Decrypt(w.Party(role), p, newName).value.0
             == Advanced(w2.Party(role), ChainKey(w.root, w2.names, Epoch(w, role) + 1), n)
    ensures var w2 := Turned(w, role, newName, Left(w, role, p.header));
            Step(w, Deliver(role, p, newName)).0
            == w2.With(role, Advanced(w2.Party(role), ChainKey(w.root, w2.names, Epoch(w, role) + 1), n))
               .(consumed := w.consumed + {p.ciphertext})
  {
    assert Decrypt(w.Party(role), p, newName).value.0.dhSelf == newName;
  }

  /** Every admissible step keeps the session's invariant. */
  lemma StepKeepsInv(w: World, e: Event)
    requires Inv(w) && Admissible(w, e)
    ensures Inv(Step(w, e).0)
  {
    match e
    case Send(role, plaintext, associatedData) => SendKeepsInv(w, role, plaintext, associatedData);
    case Deliver(role, p, newName) =>
      if Decrypt(w.Party(role), p, newName).Ok? {
        if IsCached(w.Party(role), p.header) {
          CachedStep(w, role, p, newName);
        } else if w.Party(role).dhRemote == Some(p.header.dhPublicKey) {
          CurrentStep(w, role, p, newName);
        } else {
          NextStep(w, role, p, newName);
        }
      }
  }
}
