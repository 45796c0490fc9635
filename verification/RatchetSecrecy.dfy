/**
  What a seized state gives away: which message keys of a session can be computed
  from everything a party holds at one moment, together with private keys.
 */
module RatchetSecrecy {
  import opened Basics
  import opened Symbolic
  import opened Ratchet
  import opened RatchetSession
  import opened RatchetKeys
  import opened RatchetInvariant
  import opened RatchetRuns

  /** Every key a party holds. */
  function KeysOf(s: State): set<Key> {
    {s.rootKey}
    + (if s.sendingChainKey.Some? then {s.sendingChainKey.value} else {})
    + (if s.receivingChainKey.Some? then {s.receivingChainKey.value} else {})
    + set k | k in s.skippedMessageKeys :: s.skippedMessageKeys[k]
  }

  /** The key of message m of chain j in a session that goes on beyond w. */
  function FutureKey(root: Key, names: seq<nat>, j: nat, m: nat): Key
    requires 0 < j < |names|
  {
    KeyAt(ChainKey(root, names, j), m)
  }

  // ----- What can be computed from which keys -----

  /** Keys deeper than k do not help to compute it. */
  lemma {:induction false} DeeperIsUseless(known: set<nat>, keys: set<Key>, k: Key)
    requires forall x :: x in keys ==> Depth(x) > Depth(k)
    ensures Derivable(known, keys, k) == Derivable(known, {}, k)
    decreases k
  {
    match k
    case Literal(_) =>
    case HkdfHead(salt, _) => DeeperIsUseless(known, keys, salt);
    case HkdfTail(salt, _) => DeeperIsUseless(known, keys, salt);
    case Mac(key, _) => DeeperIsUseless(known, keys, key);
  }

  /** One of the keys of a chain up to number n is among `keys`. */
  ghost predicate HeldUpTo(keys: set<Key>, chainKey: Key, n: nat) {
    exists i: nat :: i <= n && ChainAt(chainKey, i) in keys
  }

  /** A chain's key comes from an earlier one, or from the chain's first. */
  lemma {:induction false} ChainKeyFrom(known: set<nat>, keys: set<Key>, chainKey: Key, n: nat)
    ensures Derivable(known, keys, ChainAt(chainKey, n)) <==>
            HeldUpTo(keys, chainKey, n) || Derivable(known, keys, chainKey)
    decreases n
  {
    if n > 0 { ChainKeyFrom(known, keys, chainKey, n - 1); }
    if HeldUpTo(keys, chainKey, n) {
      var i: nat :| i <= n && ChainAt(chainKey, i) in keys;
      if i < n { assert HeldUpTo(keys, chainKey, n - 1); }
    }
    assert ChainAt(chainKey, 0) == chainKey;
  }

  /** Every ratchet step from i to j used a private key that is known. */
  predicate Linked(known: set<nat>, names: seq<nat>, i: nat, j: nat)
    requires j < |names|
  {
    forall x: nat :: i < x <= j ==> names[x - 1] in known || names[x] in known
  }

  ghost predicate RootHeld(known: set<nat>, keys: set<Key>, root: Key, names: seq<nat>, j: nat)
    requires j < |names|
  {
    exists i: nat :: i <= j && RootAt(root, names, i) in keys && Linked(known, names, i, j)
  }

  /** A root key comes from an earlier one and the steps between them, or else from
      what gives the session's first root key. */
  lemma {:induction false} RootFrom(known: set<nat>, keys: set<Key>, root: Key, names: seq<nat>, j: nat)
    requires j < |names| && (Derivable(known, keys, root) ==> root in keys)
    ensures Derivable(known, keys, RootAt(root, names, j)) <==> RootHeld(known, keys, root, names, j)
    decreases j
  {
    var k := RootAt(root, names, j);
    if j > 0 {
      RootFrom(known, keys, root, names, j - 1);
      if RootHeld(known, keys, root, names, j - 1) && Computable(known, SharedSecret(names[j - 1], names[j])) {
        var i: nat :| i <= j - 1 && RootAt(root, names, i) in keys && Linked(known, names, i, j - 1);
        assert Linked(known, names, i, j);
      }
      if RootHeld(known, keys, root, names, j) && k !in keys {
        var i: nat :| i <= j && RootAt(root, names, i) in keys && Linked(known, names, i, j);
        assert i < j && Linked(known, names, i, j - 1);
      }
    }
    if k in keys { assert Linked(known, names, j, j); }
  }

  // ----- The keys of one session are of three kinds -----

  lemma {:induction false} ChainShape(chainKey: Key, n: nat)
    requires chainKey.HkdfTail?
    ensures var k := ChainAt(chainKey, n); k.HkdfTail? || (k.Mac? && k.input == 2)
    ensures Depth(ChainAt(chainKey, n)) == Depth(chainKey) + n
    decreases n
  {
    if n > 0 { ChainShape(chainKey, n - 1); }
  }

  predicate RootLike(root: Key, k: Key) { k == root || k.HkdfHead? }

  predicate ChainLike(root: Key, k: Key) { Depth(k) > Depth(root) && (k.HkdfTail? || (k.Mac? && k.input == 2)) }

  predicate MessageLike(root: Key, k: Key) { Depth(k) > Depth(root) && k.Mac? && k.input == 1 }

  lemma KindsDiffer(root: Key, k: Key)
    ensures RootLike(root, k) ==> !ChainLike(root, k) && !MessageLike(root, k)
    ensures ChainLike(root, k) ==> !MessageLike(root, k)
  {
  }

  lemma RootKind(root: Key, names: seq<nat>, i: nat)
    requires i < |names|
    ensures RootLike(root, RootAt(root, names, i))
  {
  }

  lemma ChainKind(root: Key, names: seq<nat>, j: nat, n: nat)
    requires 0 < j < |names|
    ensures ChainLike(root, ChainAt(ChainKey(root, names, j), n))
  {
    RootDepth(root, names, j - 1);
    ChainShape(ChainKey(root, names, j), n);
  }

  lemma MessageKind(root: Key, names: seq<nat>, j: nat, m: nat)
    requires 0 < j < |names|
    ensures MessageLike(root, FutureKey(root, names, j, m))
  {
    ChainKind(root, names, j, m);
  }

  lemma SameChain(root: Key, names: seq<nat>, i: nat, n: nat, j: nat, m: nat)
    requires 0 < i < |names| && 0 < j < |names|
    ensures ChainAt(ChainKey(root, names, i), n) == ChainAt(ChainKey(root, names, j), m) <==> i == j && n == m
  {
    ChainsDisjoint(ChainKey(root, names, i), ChainKey(root, names, j), n, m);
    RootDepth(root, names, i - 1);
    RootDepth(root, names, j - 1);
  }

  // ----- What a party in step holds -----

  /** The session goes on with these ratchet keys. */
  predicate GoesOn(w: World, names: seq<nat>) {
    |w.names| <= |names| && names[..|w.names|] == w.names
  }

  ghost predicate CachedKey(w: World, role: Role, names: seq<nat>, k: Key)
    requires Names(w) && GoesOn(w, names)
  {
    exists j: nat, c: CacheKey ::
      0 < j < |w.chains| && Owed(w, role, j, c) && k == FutureKey(w.root, names, j, c.1)
  }

  lemma CachedKeys(w: World, role: Role, names: seq<nat>, k: Key)
    requires Inv(w) && GoesOn(w, names)
    ensures (exists c :: c in w.Party(role).skippedMessageKeys && w.Party(role).skippedMessageKeys[c] == k) <==>
            CachedKey(w, role, names, k)
  {
    hide Transcript, InStep, ConsumedExact, Owed, ChainKey, ChainAt, RootAt;
    var cache := w.Party(role).skippedMessageKeys;
    forall j: nat | 0 < j < |w.names| ensures ChainKey(w.root, names, j) == ChainKey(w.root, w.names, j) {
      ChainKeyPrefix(w.root, w.names, names, j);
    }
    if c :| c in cache && cache[c] == k {
      var j: nat :| j < |w.chains| && Owed(w, role, j, c);
      assert k == FutureKey(w.root, names, j, c.1);
    }
    if CachedKey(w, role, names, k) {
      var j: nat, c: CacheKey :| 0 < j < |w.chains| && Owed(w, role, j, c) && k == FutureKey(w.root, names, j, c.1);
      assert c in cache && cache[c] == k;
    }
  }

  /** The keys of a party in step, by their places in the key schedule. */
  lemma HeldKeys(w: World, role: Role, names: seq<nat>, k: Key)
    requires Inv(w) && GoesOn(w, names)
    ensures var e, s := Epoch(w, role), w.Party(role);
            k in KeysOf(s) <==>
              || k == RootAt(w.root, names, e)
              || (e > 0 && k == ChainAt(ChainKey(w.root, names, e), |w.chains[e]|))
              || (e > 1 && k == ChainAt(ChainKey(w.root, names, e - 1), s.receiveMessageNumber))
              || CachedKey(w, role, names, k)
  {
    hide Transcript, ConsumedExact, CacheExact, CachedKey, ChainKey, ChainAt, RootAt;
    CachedKeys(w, role, names, k);
    var e := Epoch(w, role);
    assert InStep(w, role);
    RootPrefix(w.root, w.names, names, e);
    if e > 0 { ChainKeyPrefix(w.root, w.names, names, e); }
    if e > 1 { ChainKeyPrefix(w.root, w.names, names, e - 1); }
  }

  lemma CachedKind(w: World, role: Role, names: seq<nat>, k: Key)
    requires Names(w) && GoesOn(w, names) && CachedKey(w, role, names, k)
    ensures MessageLike(w.root, k)
  {
    hide Owed, ChainKey, ChainAt, RootAt, Depth;
    var j: nat, c: CacheKey :| 0 < j < |w.chains| && Owed(w, role, j, c) && k == FutureKey(w.root, names, j, c.1);
    MessageKind(w.root, names, j, c.1);
  }

  lemma RootAmong(w: World, role: Role, names: seq<nat>, i: nat)
    requires Inv(w) && GoesOn(w, names) && i < |names|
    ensures RootAt(w.root, names, i) in KeysOf(w.Party(role)) <==> i == Epoch(w, role)
  {
    var e, k := Epoch(w, role), RootAt(w.root, names, i);
    HeldKeys(w, role, names, k);
    RootsDistinct(w.root, names, i, e);
    RootKind(w.root, names, i);
    if e > 0 { ChainKind(w.root, names, e, |w.chains[e]|); }
    if e > 1 { ChainKind(w.root, names, e - 1, w.Party(role).receiveMessageNumber); }
    KindsDiffer(w.root, k);
    hide CachedKey, CacheExact, Transcript, InStep, ConsumedExact, KeysOf, ChainKey, ChainAt, RootAt, RootLike,
        ChainLike, MessageLike;
    if CachedKey(w, role, names, k) { CachedKind(w, role, names, k); }
  }

  lemma ChainAmong(w: World, role: Role, names: seq<nat>, j: nat, n: nat)
    requires Inv(w) && GoesOn(w, names) && 0 < j < |names|
    ensures var e := Epoch(w, role);
            ChainAt(ChainKey(w.root, names, j), n) in KeysOf(w.Party(role)) <==>
            (j == e && n == |w.chains[e]|) || (j + 1 == e && n == w.Party(role).receiveMessageNumber)
  {
    var e, k := Epoch(w, role), ChainAt(ChainKey(w.root, names, j), n);
    HeldKeys(w, role, names, k);
    RootKind(w.root, names, e);
    ChainKind(w.root, names, j, n);
    if e > 0 { SameChain(w.root, names, j, n, e, |w.chains[e]|); }
    if e > 1 { SameChain(w.root, names, j, n, e - 1, w.Party(role).receiveMessageNumber); }
    KindsDiffer(w.root, k);
    hide CachedKey, CacheExact, Transcript, InStep, ConsumedExact, KeysOf, ChainKey, ChainAt, RootAt, RootLike,
        ChainLike, MessageLike;
    if CachedKey(w, role, names, k) { CachedKind(w, role, names, k); }
  }

  lemma CachedIsOwed(w: World, role: Role, names: seq<nat>, j: nat, m: nat)
    requires Names(w) && GoesOn(w, names) && 0 < j < |names|
    ensures CachedKey(w, role, names, FutureKey(w.root, names, j, m)) <==>
            j < |w.chains| && Owed(w, role, j, (Point(names[j]), m))
  {
    var k := FutureKey(w.root, names, j, m);
    assert k == MessageKey(ChainAt(ChainKey(w.root, names, j), m));
    assert j < |w.names| ==> names[j] == w.names[j];
    hide ChainKey, ChainAt, Depth, Epoch, Derived;
    if CachedKey(w, role, names, k) {
      var i: nat, c: CacheKey :| 0 < i < |w.chains| && Owed(w, role, i, c) && k == FutureKey(w.root, names, i, c.1);
      SameChain(w.root, names, i, c.1, j, m);
      assert c == (Point(names[j]), m);
    }
    if j < |w.chains| && Owed(w, role, j, (Point(names[j]), m)) {
      assert k == FutureKey(w.root, names, j, (Point(names[j]), m).1);
    }
  }

  lemma MessageAmong(w: World, role: Role, names: seq<nat>, j: nat, m: nat)
    requires Inv(w) && GoesOn(w, names) && 0 < j < |names|
    ensures FutureKey(w.root, names, j, m) in KeysOf(w.Party(role)) <==>
            j < |w.chains| && Owed(w, role, j, (Point(names[j]), m))
  {
    var e, k := Epoch(w, role), FutureKey(w.root, names, j, m);
    HeldKeys(w, role, names, k);
    RootKind(w.root, names, e);
    MessageKind(w.root, names, j, m);
    KindsDiffer(w.root, k);
    if e > 0 { ChainKind(w.root, names, e, |w.chains[e]|); }
    if e > 1 { ChainKind(w.root, names, e - 1, w.Party(role).receiveMessageNumber); }
    CachedIsOwed(w, role, names, j, m);
    hide CachedKey, Owed, CacheExact, Transcript, InStep, ConsumedExact, KeysOf, ChainKey, ChainAt, RootAt, RootLike,
        ChainLike, MessageLike;
  }

  // ----- The theorem -----

  lemma NothingGivesRoot(w: World, role: Role, names: seq<nat>, known: set<nat>)
    requires Inv(w) && GoesOn(w, names) && !Derivable(known, {}, w.root)
    ensures Derivable(known, KeysOf(w.Party(role)), w.root) ==> w.root in KeysOf(w.Party(role))
  {
    var e, keys := Epoch(w, role), KeysOf(w.Party(role));
    if e > 0 {
      forall x | x in keys ensures Depth(x) > Depth(w.root) {
        HeldKeys(w, role, names, x);
        RootDepth(w.root, names, e);
        ChainKind(w.root, names, e, |w.chains[e]|);
        if e > 1 { ChainKind(w.root, names, e - 1, w.Party(role).receiveMessageNumber); }
        if CachedKey(w, role, names, x) { CachedKind(w, role, names, x); }
      }
      DeeperIsUseless(known, keys, w.root);
    } else {
      RootAmong(w, role, names, 0);
    }
  }

  lemma RootGiven(w: World, role: Role, names: seq<nat>, known: set<nat>, i: nat)
    requires Inv(w) && GoesOn(w, names) && !Derivable(known, {}, w.root) && i < |names|
    ensures Derivable(known, KeysOf(w.Party(role)), RootAt(w.root, names, i)) <==>
            Epoch(w, role) <= i && Linked(known, names, Epoch(w, role), i)
  {
    var e, keys := Epoch(w, role), KeysOf(w.Party(role));
    NothingGivesRoot(w, role, names, known);
    RootFrom(known, keys, w.root, names, i);
    hide Inv, KeysOf, Derivable, RootAt, Linked;
    forall x: nat | x < |names| ensures RootAt(w.root, names, x) in keys <==> x == e {
      RootAmong(w, role, names, x);
    }
  }

  lemma LinkedStep(known: set<nat>, names: seq<nat>, i: nat, j: nat)
    requires i < j < |names|
    ensures Linked(known, names, i, j) <==>
            Linked(known, names, i, j - 1) && Computable(known, SharedSecret(names[j - 1], names[j]))
  {
  }

  /** The first key of a chain is computed from the root key before it. */
  lemma FirstOfChain(w: World, role: Role, names: seq<nat>, known: set<nat>, j: nat)
    requires Inv(w) && GoesOn(w, names) && !Derivable(known, {}, w.root) && 0 < j < |names|
    ensures var e, keys := Epoch(w, role), KeysOf(w.Party(role));
            Derivable(known, keys, ChainKey(w.root, names, j)) <==>
              ChainKey(w.root, names, j) in keys || (e < j && Linked(known, names, e, j))
  {
    RootGiven(w, role, names, known, j - 1);
    hide Inv, KeysOf, RootAt, Linked, SharedSecret, Computable;
    if Epoch(w, role) < j { LinkedStep(known, names, Epoch(w, role), j); }
  }

  /** Which keys of a chain up to number m a party holds. */
  lemma HeldOfChain(w: World, role: Role, names: seq<nat>, j: nat, m: nat)
    requires Inv(w) && GoesOn(w, names) && 0 < j < |names|
    ensures var e, s := Epoch(w, role), w.Party(role);
            HeldUpTo(KeysOf(s), ChainKey(w.root, names, j), m) <==>
              (j == e && |w.chains[e]| <= m) || (j + 1 == e && s.receiveMessageNumber <= m)
  {
    var e, s, chainKey := Epoch(w, role), w.Party(role), ChainKey(w.root, names, j);
    hide CacheExact, Transcript, InStep, ConsumedExact, KeysOf, ChainKey, ChainAt;
    if HeldUpTo(KeysOf(s), chainKey, m) {
      var n: nat :| n <= m && ChainAt(chainKey, n) in KeysOf(s);
      ChainAmong(w, role, names, j, n);
    }
    if j == e { ChainAmong(w, role, names, j, |w.chains[e]|); }
    if j + 1 == e { ChainAmong(w, role, names, j, s.receiveMessageNumber); }
  }

  /** Whoever seizes everything a party holds, and knows some private keys from
      which the session's root alone does not follow, can compute exactly these
      message keys of the session, as far as it may go on: of its sending chain
      those of messages not sent yet, of its receiving chain those it has not
      derived yet, those of messages it still waits for, and those of later chains
      as long as one private key of every ratchet step is known. */
  lemma SeizedStateReveals(w: World, role: Role, names: seq<nat>, known: set<nat>, j: nat, m: nat)
    requires Inv(w) && GoesOn(w, names) && !Derivable(known, {}, w.root) && 0 < j < |names|
    ensures var e, s := Epoch(w, role), w.Party(role);
            Derivable(known, KeysOf(s), FutureKey(w.root, names, j, m)) <==>
              || (e < j && Linked(known, names, e, j))
              || (j == e && |w.chains[e]| <= m)
              || (j + 1 == e && s.receiveMessageNumber <= m)
              || (j < |w.chains| && Owed(w, role, j, (Point(names[j]), m)))
  {
    var keys, chainKey := KeysOf(w.Party(role)), ChainKey(w.root, names, j);
    MessageAmong(w, role, names, j, m);
    ChainKeyFrom(known, keys, chainKey, m);
    HeldOfChain(w, role, names, j, m);
    FirstOfChain(w, role, names, known, j);
    hide Inv, KeysOf, Owed, ChainKey, Linked;
    if chainKey in keys { assert ChainAt(chainKey, 0) in keys && HeldUpTo(keys, chainKey, m); }
    assert Derivable(known, keys, MessageKey(ChainAt(chainKey, m))) <==>
           MessageKey(ChainAt(chainKey, m)) in keys || Derivable(known, keys, ChainAt(chainKey, m));
  }

  /** One message key gives away no other key of the session's schedule, whatever
      private keys are known besides. */
  lemma MessageKeyRevealsItself(w: World, known: set<nat>, i: nat, n: nat, j: nat, m: nat)
    requires !Derivable(known, {}, w.root) && 0 < i < |w.names| && 0 < j < |w.names|
    ensures var keys := {MessageKeyAt(w, i, n)};
            && (Derivable(known, keys, MessageKeyAt(w, j, m)) <==> i == j && n == m)
            && !Derivable(known, keys, ChainAt(ChainKey(w.root, w.names, j), m))
            && !Derivable(known, keys, RootAt(w.root, w.names, j))
  {
    var keys, chainKey := {MessageKeyAt(w, i, n)}, ChainKey(w.root, w.names, j);
    MessageKind(w.root, w.names, i, n);
    forall x: nat | x < |w.names| ensures RootAt(w.root, w.names, x) !in keys { RootKind(w.root, w.names, x); }
    DeeperIsUseless(known, keys, w.root);
    RootFrom(known, keys, w.root, w.names, j - 1);
    RootFrom(known, keys, w.root, w.names, j);
    ChainKeyFrom(known, keys, chainKey, m);
    MessageKeysDistinct(w, i, n, j, m);
    hide RootAt, ChainAt, Linked;
    forall x: nat ensures ChainAt(chainKey, x) !in keys { ChainKind(w.root, w.names, j, x); }
    FirstKey(chainKey);
    assert MessageKeyAt(w, j, m) == MessageKey(ChainAt(chainKey, m));
  }

  /** Keys that are none of the schedule's, and do not give the root, give no message key. */
  lemma NothingFromOutside(w: World, known: set<nat>, keys: set<Key>, j: nat, m: nat)
    requires !Derivable(known, keys, w.root) && 0 < j < |w.names|
    requires forall k :: k in keys ==> Depth(k) <= Depth(w.root)
    ensures !Derivable(known, keys, MessageKeyAt(w, j, m))
  {
    var chainKey := ChainKey(w.root, w.names, j);
    RootFrom(known, keys, w.root, w.names, j - 1);
    ChainKeyFrom(known, keys, chainKey, m);
    forall x: nat | x < |w.names| ensures RootAt(w.root, w.names, x) !in keys { RootDepth(w.root, w.names, x); }
    MessageKind(w.root, w.names, j, m);
    hide RootAt, Linked;
    forall x: nat ensures ChainAt(chainKey, x) !in keys { ChainKind(w.root, w.names, j, x); }
    FirstKey(chainKey);
    assert MessageKeyAt(w, j, m) == MessageKey(ChainAt(chainKey, m));
  }

  lemma FirstKey(chainKey: Key)
    ensures ChainAt(chainKey, 0) == chainKey
  {
  }

  // ----- Over runs -----

  lemma {:induction false} NamesGoOn(w: World, es: seq<Event>)
    requires 2 <= |w.names| == |w.chains|
    ensures GoesOn(w, StepsOf(w, es).0.names) && StepsOf(w, es).0.root == w.root
    decreases |es|
  {
    hide Encrypt, Decrypt;
    if es != [] { NamesGoOn(w, es[..|es| - 1]); }
  }

  /** Forward secrecy. At no moment of any run does all that a party holds, together
      with any private keys from which the root does not follow, give the key of a
      message it has sent or has opened. */
  lemma ForwardSecrecy(root: Key, responderKey: nat, initiatorKey: nat, es: seq<Event>, role: Role, known: set<nat>,
          j: nat, n: nat)
    requires responderKey != initiatorKey && Possible(Start(root, responderKey, initiatorKey), es)
    requires !Derivable(known, {}, root)
    requires var w := StepsOf(Start(root, responderKey, initiatorKey), es).0;
             && 0 < j < |w.chains| && n < |w.chains[j]|
             && (FromPeer(Peer(role), j) || w.chains[j][n].packet.ciphertext in w.consumed)
    ensures var w := StepsOf(Start(root, responderKey, initiatorKey), es).0;
            |w.names| == |w.chains| &&
            !Derivable(known, KeysOf(w.Party(role)), MessageKeyAt(w, j, n))
  {
    hide StepsOf, Possible, KeysOf;
    var start := Start(root, responderKey, initiatorKey);
    StartInv(root, responderKey, initiatorKey);
    RunKeepsInv(start, es);
    NamesGoOn(start, es);
    var w := StepsOf(start, es).0;
    SeizedStateReveals(w, role, w.names, known, j, n);
    SpentKeys(w, role, j, n);
  }

  /** What a party has sent or opened is none of the messages it holds keys for. */
  lemma SpentKeys(w: World, role: Role, j: nat, n: nat)
    requires Inv(w) && 0 < j < |w.chains| && n < |w.chains[j]|
    requires FromPeer(Peer(role), j) || w.chains[j][n].packet.ciphertext in w.consumed
    ensures var e := Epoch(w, role);
            && (j <= e || FromPeer(role, j))
            && (FromPeer(role, j) ==> j + 1 <= e && (j + 1 == e ==> n < w.Party(role).receiveMessageNumber))
            && (j == e ==> n < |w.chains[e]|) && (j + 1 == e ==> FromPeer(role, j))
            && !Owed(w, role, j, (Point(w.names[j]), n))
  {
    hide CacheExact, InStep, Transcript;
    if FromPeer(role, j) {
      var c := w.chains[j][n].packet.ciphertext;
      assert Accounted(w, c);
      var i: nat, m: nat, r :| i < |w.chains| && m < |w.chains[i]| && FromPeer(r, i) &&
        w.chains[i][m].packet.ciphertext == c && m < Derived(w, r, i);
      SentOnce(w, i, m, j, n);
    }
  }

  /** Two ratchet steps on, both private keys of the second are others. */
  lemma StepsAhead(w: World, role: Role, later: World, j: nat)
    requires Inv(w) && Inv(later) && GoesOn(w, later.names) && Epoch(w, role) + 2 <= j < |later.names|
    ensures var e := Epoch(w, role);
            && |w.chains| == |w.names| && e < |w.chains| <= e + 2
            && !Linked({w.Party(role).dhSelf}, later.names, e, j)
  {
    hide Transcript, ConsumedExact, CacheExact, Linked;
    var names, e := later.names, Epoch(w, role);
    assert InStep(w, role) && w.Party(role).dhSelf == names[e];
    assert names[e] != names[e + 1] && names[e] != names[e + 2];
    NotLinked(names[e], names, e, j);
  }

  lemma NotLinked(known: nat, names: seq<nat>, e: nat, j: nat)
    requires e + 2 <= j < |names| && names[e + 1] != known && names[e + 2] != known
    ensures !Linked({known}, names, e, j)
  {
    assert e < e + 2 <= j;
  }

  /** Healing. What a party holds at one moment, its private ratchet key included,
      gives no message key from the second ratchet step after on. */
  lemma Healing(w: World, role: Role, es: seq<Event>, j: nat, m: nat)
    requires Inv(w) && Possible(w, es) && !Derivable({w.Party(role).dhSelf}, {}, w.root)
    requires Epoch(w, role) + 2 <= j < |StepsOf(w, es).0.names|
    ensures !Derivable({w.Party(role).dhSelf}, KeysOf(w.Party(role)), MessageKeyAt(StepsOf(w, es).0, j, m))
  {
    assert Names(w);
    hide StepsOf, Possible, KeysOf, Inv, Derivable;
    RunKeepsInv(w, es);
    NamesGoOn(w, es);
    StepsAhead(w, role, StepsOf(w, es).0, j);
    SeizedStateReveals(w, role, StepsOf(w, es).0.names, {w.Party(role).dhSelf}, j, m);
  }
}
