/**
  Session identity bindings (src/identity/identity.ts) and the gate every session
  passes (src/crypto/session.ts). Signatures are symbolic: one verifies only for
  the signer and the statement it was made with.
 */
module SessionGate {
  import opened Basics
  import opened Symbolic
  import opened Handshake

  datatype AuthenticatedSession = AuthenticatedSession(
    sendKey: Key, receiveKey: Key, rootKey: Key, handshakeHash: Digest,
    localIdentity: nat, peerIdentity: nat, localX25519: PublicKey, peerX25519: PublicKey, role: Role)

  datatype GateError = SessionIdentityMismatch | LocalBindingInvalid | PeerIdentityMismatch | PeerBindingInvalid

  predicate VerifySignature(signature: Signature, statement: Statement, identity: nat) {
    signature == Signed(identity, statement)
  }

  function CreateBinding(identity: nat, x25519: PublicKey, handshakeHash: Digest, role: Role): Binding {
    Binding(identity, x25519, handshakeHash, role, Signed(identity, SessionBinding(x25519, handshakeHash, role)))
  }

  predicate VerifyBinding(b: Binding, x25519: PublicKey, handshakeHash: Digest, role: Role) {
    && b.role == role
    && b.x25519 == x25519
    && b.handshakeHash == handshakeHash
    && VerifySignature(b.signature, SessionBinding(b.x25519, b.handshakeHash, b.role), b.identity)
  }

  /** What a side knows when it asks for a session. */
  datatype Request = Request(
    identity: nat, localX25519: PublicKey, peerX25519: PublicKey, expectedPeer: nat,
    peerBinding: Binding, handshake: HandshakeResult, role: Role)

  function Establish(q: Request, localBinding: Binding): Result<AuthenticatedSession, GateError> {
    if localBinding.identity != q.identity then Err(SessionIdentityMismatch)
    else if !VerifyBinding(localBinding, q.localX25519, q.handshake.handshakeHash, q.role) then Err(LocalBindingInvalid)
    else if q.peerBinding.identity != q.expectedPeer then Err(PeerIdentityMismatch)
    else if !VerifyBinding(q.peerBinding, q.peerX25519, q.handshake.handshakeHash, Peer(q.role))
        then Err(PeerBindingInvalid)
    else Ok(AuthenticatedSession(
              q.handshake.sendKey, q.handshake.receiveKey, q.handshake.rootKey, q.handshake.handshakeHash,
              q.identity, q.peerBinding.identity, q.localX25519, q.peerX25519, q.role))
  }

  /** The gate opens exactly for two bindings made for this transcript: the local
      identity's on the local key in its own role, and the expected peer's on the
      expected key in the opposite role. */
  lemma GateExact(q: Request, localBinding: Binding)
    ensures Establish(q, localBinding).Ok? <==>
              && localBinding == CreateBinding(q.identity, q.localX25519, q.handshake.handshakeHash, q.role)
              && q.peerBinding == CreateBinding(q.expectedPeer, q.peerX25519, q.handshake.handshakeHash, Peer(q.role))
    ensures Establish(q, localBinding).Ok? ==> Establish(q, localBinding).value.peerIdentity == q.expectedPeer
  {
  }
}
