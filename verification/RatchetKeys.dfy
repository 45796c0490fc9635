/** Keys of a session never recur: what the key schedule keeps apart. */
module RatchetKeys {
  import opened Basics
  import opened Symbolic
  import opened Ratchet
  import opened RatchetSession

  lemma {:induction false} ChainAtAdds(chainKey: Key, a: nat, b: nat)
    ensures ChainAt(ChainAt(chainKey, a), b) == ChainAt(chainKey, a + b)
    decreases b
  {
    if b > 0 {
      ChainAtAdds(chainKey, a, b - 1);
    }
  }

  lemma {:induction false} ChainsDisjoint(a: Key, b: Key, n: nat, m: nat)
    requires a.HkdfTail? && b.HkdfTail?
    ensures ChainAt(a, n) == ChainAt(b, m) <==> a == b && n == m
    decreases n + m
  {
    if n > 0 && m > 0 {
      ChainsDisjoint(a, b, n - 1, m - 1);
    }
  }

  lemma {:induction false} RootDepth(root: Key, names: seq<nat>, i: nat)
    requires i < |names|
    ensures Depth(RootAt(root, names, i)) == Depth(root) + i
    decreases i
  {
    if i > 0 {
      RootDepth(root, names, i - 1);
    }
  }

  lemma {:induction false} RootDerived(root: Key, names: seq<nat>, i: nat)
    requires i < |names|
    ensures DerivedFrom(root, RootAt(root, names, i))
    decreases i
  {
    if i > 0 {
      RootDerived(root, names, i - 1);
    }
  }

  lemma {:induction false} ChainDerived(root: Key, chainKey: Key, n: nat)
    requires DerivedFrom(root, chainKey)
    ensures DerivedFrom(root, ChainAt(chainKey, n)) && DerivedFrom(root, KeyAt(chainKey, n))
    decreases n
  {
    if n > 0 {
      ChainDerived(root, chainKey, n - 1);
    }
  }

  lemma RootsDistinct(root: Key, names: seq<nat>, i: nat, j: nat)
    requires i < |names| && j < |names|
    ensures RootAt(root, names, i) == RootAt(root, names, j) <==> i == j
  {
    RootDepth(root, names, i);
    RootDepth(root, names, j);
  }

  lemma NextChainIsUnique(w: World, e: nat, x: nat, i: nat)
    requires e < |w.names| && 0 < i < |w.names|
    ensures HkdfTail(RootAt(w.root, w.names, e), SharedSecret(w.names[e], x)) == ChainKey(w.root, w.names, i)
       <==> i == e + 1 && x == w.names[i]
  {
    RootsDistinct(w.root, w.names, e, i - 1);
    if i == e + 1 { SharedSecretAgreement(w.names[e], x, w.names[i]); }
  }

  /** The key a receiver at ratchet key e derives from any header key x is the
      key of message (i, m) exactly when x is the peer's next ratchet key. */
  lemma NextChainKeyIsUnique(w: World, e: nat, x: nat, n: nat, i: nat, m: nat)
    requires e < |w.names| && 0 < i < |w.names|
    ensures KeyAt(HkdfTail(RootAt(w.root, w.names, e), SharedSecret(w.names[e], x)), n) == MessageKeyAt(w, i, m)
       <==> i == e + 1 && x == w.names[i] && n == m
  {
    hide RootAt, SharedSecret, ChainAt;
    NextChainIsUnique(w, e, x, i);
    var derived := HkdfTail(RootAt(w.root, w.names, e), SharedSecret(w.names[e], x));
    ChainsDisjoint(derived, ChainKey(w.root, w.names, i), n, m);
  }

  /** No two messages of a session share a message key. */
  lemma MessageKeysDistinct(w: World, i: nat, n: nat, j: nat, m: nat)
    requires 0 < i < |w.names| && 0 < j < |w.names|
    ensures MessageKeyAt(w, i, n) == MessageKeyAt(w, j, m) <==> i == j && n == m
  {
    NextChainKeyIsUnique(w, i - 1, w.names[i], n, j, m);
  }

  lemma MessageKeyDerived(w: World, i: nat, n: nat)
    requires 0 < i < |w.names|
    ensures DerivedFrom(w.root, MessageKeyAt(w, i, n))
  {
    RootDerived(w.root, w.names, i - 1);
    ChainDerived(w.root, ChainKey(w.root, w.names, i), n);
  }

  /** A ciphertext is sent at one place only. */
  lemma SentOnce(w: World, i: nat, n: nat, j: nat, m: nat)
    requires Names(w) && Transcript(w)
    requires i < |w.chains| && n < |w.chains[i]| && j < |w.chains| && m < |w.chains[j]|
    requires w.chains[i][n].packet.ciphertext == w.chains[j][m].packet.ciphertext
    ensures i == j && n == m && 0 < i
  {
    assert WellFormed(w, i, n) && WellFormed(w, j, m);
    MessageKeysDistinct(w, i, n, j, m);
  }

  /** A packet that opens under a key of the session is one that was sent: no
      forged ciphertext, no altered associated data and no header that seals
      differently opens. */
  lemma OpensOnlyIfSent(w: World, p: Packet, key: Key) returns (i: nat, n: nat)
    requires Names(w) && Transcript(w) && Injectable(w, p)
    requires DerivedFrom(w.root, key)
    requires Open(key, Nonce(p.header.messageNumber), Aad(EncodeHeader(p.header), p.associatedData),
                  p.ciphertext).Some?
    ensures 0 < i < |w.chains| && n < |w.chains[i]|
    ensures Copies(p, w.chains[i][n]) && w.chains[i][n].plaintext == p.ciphertext.plaintext
    ensures key == MessageKeyAt(w, i, n) && p.header.dhPublicKey == Point(w.names[i])
  {
    var m :| IsSent(w, m) && m.packet.ciphertext == p.ciphertext;
    i, n :| i < |w.chains| && n < |w.chains[i]| && w.chains[i][n] == m;
    assert WellFormed(w, i, n);
  }
}
