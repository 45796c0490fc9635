/**
  Symbolic cryptography. A key is the term that computes it, so two keys are
  equal only when they were derived in the same way (collision freedom of
  HKDF and HMAC), and a ciphertext opens only under the key, nonce and
  associated data it was sealed with (AEAD integrity).
 */
module Symbolic {
  import opened Basics

  /** An X25519 public key: the point of a private key, named by a number, or a
      value the library refuses (low order, wrong length). */
  datatype PublicKey = Point(name: nat) | Unusable(id: nat)

  /** What HKDF is fed besides its salt: nothing, or an X25519 shared secret. */
  datatype Ikm = NoIkm | Shared(lo: nat, hi: nat)

  datatype Key =
    | Literal(id: nat)
    | HkdfHead(salt: Key, ikm: Ikm)
    | HkdfTail(salt: Key, ikm: Ikm)
    | Mac(key: Key, input: nat)

  function SharedSecret(a: nat, b: nat): Ikm {
    if a <= b then Shared(a, b) else Shared(b, a)
  }

  /** deriveSharedSecret: fails on a key the curve library refuses. */
  function Dh(private: nat, public: PublicKey): Option<Ikm> {
    if public.Point? then Some(SharedSecret(private, public.name)) else None
  }

  /** Both ends of a Diffie Hellman exchange compute the same secret, and with
      one end fixed the secret determines the other end. */
  lemma SharedSecretAgreement(a: nat, b: nat, c: nat)
    ensures SharedSecret(a, b) == SharedSecret(b, a)
    ensures SharedSecret(a, b) == SharedSecret(a, c) <==> b == c
  {
  }

  /** Keys that can only be computed from `root`: what an attacker who does not
      hold `root` cannot seal under. */
  predicate DerivedFrom(root: Key, k: Key) {
    k == root || match k
                 case Literal(_) => false
                 case HkdfHead(salt, _) => DerivedFrom(root, salt)
                 case HkdfTail(salt, _) => DerivedFrom(root, salt)
                 case Mac(key, _) => DerivedFrom(root, key)
  }

  /** Can whoever knows these private keys compute this input? All public keys are
      known, and either private key gives the shared secret. */
  predicate Computable(known: set<nat>, ikm: Ikm) {
    match ikm
    case NoIkm => true
    case Shared(lo, hi) => lo in known || hi in known
  }

  /** Can whoever knows these private keys and these keys compute key k? */
  predicate Derivable(known: set<nat>, keys: set<Key>, k: Key) {
    k in keys || match k
                 case Literal(_) => false
                 case HkdfHead(salt, ikm) => Derivable(known, keys, salt) && Computable(known, ikm)
                 case HkdfTail(salt, ikm) => Derivable(known, keys, salt) && Computable(known, ikm)
                 case Mac(key, _) => Derivable(known, keys, key)
  }

  function Depth(k: Key): (d: nat) {
    match k
    case Literal(_) => 0
    case HkdfHead(salt, _) => 1 + Depth(salt)
    case HkdfTail(salt, _) => 1 + Depth(salt)
    case Mac(key, _) => 1 + Depth(key)
  }

  /** A ciphertext as the receiver sees it: one produced by sealing, or bytes
      that no key opens. */
  datatype Cipher<+A, +P> =
    | Sealed(key: Key, nonce: nat, aad: A, plaintext: P)
    | Garbage(bytes: Bytes)

  function Open<A(==), P>(key: Key, nonce: nat, aad: A, c: Cipher<A, P>): Option<P> {
    if c.Sealed? && c.key == key && c.nonce == nonce && c.aad == aad
    then Some(c.plaintext) else None
  }
}
