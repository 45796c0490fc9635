/** The handshake's result is what a ratchet session starts from. */
module SecureChannel {
  import opened Basics
  import opened Symbolic
  import Handshake
  import HandshakeSecrecy
  import Ratchet
  import RatchetRuns
  import RatchetSecrecy
  import RatchetSession

  /** Two completed ends of one handshake, each starting its ratchet from its own
      result (the responder with the ephemeral key of its reply, the initiator
      with the key it received there), form a ratchet session in step: everything
      proved of sessions holds of them. */
  lemma HandshakeSeedsRatchet(i: Handshake.InitiatorRun, r: Handshake.ResponderRun, newKey: nat)
    requires Handshake.InitiatorResult(i).Ok? && Handshake.ResponderResult(r).Ok?
    requires Handshake.InitiatorResult(i).value.handshakeHash == Handshake.ResponderResult(r).value.handshakeHash
    requires newKey != r.ephemeral
    ensures i.reply.ephemeral.KeyBytes?
    ensures var initiator := Ratchet.InitAsInitiator(Handshake.InitiatorResult(i).value.rootKey,
        i.reply.ephemeral.key, newKey);
            var responder := Ratchet.InitAsResponder(Handshake.ResponderResult(r).value.rootKey, r.ephemeral);
            var w := RatchetSession.Start(Handshake.ResponderResult(r).value.rootKey, r.ephemeral, newKey);
            && initiator == Ok(w.initiator) && responder == w.responder
            && RatchetSession.Inv(w)
  {
    Handshake.Agreement(i, r);
    RatchetSession.StartInv(Handshake.ResponderResult(r).value.rootKey, r.ephemeral, newKey);
  }

  /** No message key of the session a handshake starts, however long it runs, can be
      computed from private keys that do not include both of one side. */
  lemma MessageKeysAreSecret(run: Handshake.InitiatorRun, responder: (nat, nat), newKey: nat,
          es: seq<RatchetSession.Event>, known: set<nat>, j: nat, m: nat)
    requires Handshake.InitiatorResult(run).Ok?
    requires run.responderStatic == Point(responder.0) && run.reply.ephemeral == Handshake.KeyBytes(Point(responder.1))
    requires !HandshakeSecrecy.KnowsASide(known, (run.ownStatic, run.ephemeral), responder)
    requires var start := RatchetSession.Start(Handshake.InitiatorResult(run).value.rootKey, responder.1, newKey);
             0 < j < |RatchetRuns.StepsOf(start, es).0.names|
    ensures var start := RatchetSession.Start(Handshake.InitiatorResult(run).value.rootKey, responder.1, newKey);
            var w := RatchetRuns.StepsOf(start, es).0;
            !HandshakeSecrecy.Derives(known, RatchetSession.MessageKeyAt(w, j, m))
  {
    HandshakeSecrecy.InitiatorKeys(run, responder, known);
    var start := RatchetSession.Start(Handshake.InitiatorResult(run).value.rootKey, responder.1, newKey);
    RatchetSecrecy.NamesGoOn(start, es);
    RatchetSecrecy.NothingFromOutside(RatchetRuns.StepsOf(start, es).0, known, {Handshake.PROTOCOL_CHAINING_KEY}, j, m);
  }
}
