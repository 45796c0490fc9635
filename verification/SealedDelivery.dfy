/** What a network of relays delivers of a sealed envelope opens as if handed over directly. */
module SealedDelivery {
  import opened Basics
  import opened Symbolic
  import opened Envelopes
  import opened RatchetSession
  import opened RatchetRuns
  import opened RatchetLoss
  import opened SealedEnvelope
  import Mesh = MeshNetwork

  /** An envelope sealed in a session and sent once into a network of relays: any
      envelope found under its id, wherever it has come to and however it got there,
      opens at the session's other end to the plaintext, exactly when that end
      accepts the number it was sealed with and did not leave its chain too early. */
  lemma RelayedOpens(root: Key, responderKey: nat, initiatorKey: nat, es: seq<Event>, j: nat, role: Role, m: Message,
                     identities: map<NeighborId, nat>, events: seq<Mesh.NetEvent>, k: nat, found: Envelope,
                     newName: nat)
    requires responderKey != initiatorKey
    requires Possible(Start(root, responderKey, initiatorKey), es)
    requires SentAt(es, StepsOf(Start(root, responderKey, initiatorKey), es).1, j, role, m)
    requires forall i: nat ::
               !OpenedAt(es, StepsOf(Start(root, responderKey, initiatorKey), es).1, i, m.packet.ciphertext)
    requires k < |events| && events[k].Calls? && events[k].event.Sends?
    requires Carries(events[k].event.envelope, m) && events[k].event.envelope.header.packetType == DATA
    requires found.header.messageId == events[k].event.envelope.header.messageId
    requires Mesh.OnlyAt(identities, events, k, found.header.messageId)
    requires Mesh.Located(Mesh.NetRun(identities, events), found)
    ensures m.packet.header.messageNumber >= 0
    ensures var w := StepsOf(Start(root, responderKey, initiatorKey), es).0;
            var result := OpenEnvelope(w.Party(Peer(role)), found, newName);
            && (result.Ok? <==> Accepts(w.Party(Peer(role)), m.packet.header, m.packet.header.messageNumber) &&
                                !IsLost(w, m))
            && (result.Ok? ==> result.value.1 == m.plaintext)
  {
    hide StepsOf, Possible, Accepts, IsLost, OpenEnvelope, AssociatedData, Mesh.NetRun, Mesh.Located, Mesh.OnlyAt;
    Mesh.CarrierIsOriginal(identities, events, k, found);
    OpensExactly(root, responderKey, initiatorKey, es, j, role, m, events[k].event.envelope, found, newName);
  }

  /** With header numbers in range: exactly when the gap limit allows it. */
  lemma RelayedOpensInRange(root: Key, responderKey: nat, initiatorKey: nat, es: seq<Event>, j: nat, role: Role,
                            m: Message, identities: map<NeighborId, nat>, events: seq<Mesh.NetEvent>, k: nat,
                            found: Envelope, newName: nat)
    requires responderKey != initiatorKey
    requires Possible(Start(root, responderKey, initiatorKey), es)
    requires NumbersInRange(es, StepsOf(Start(root, responderKey, initiatorKey), es).1)
    requires SentAt(es, StepsOf(Start(root, responderKey, initiatorKey), es).1, j, role, m)
    requires forall i: nat ::
               !OpenedAt(es, StepsOf(Start(root, responderKey, initiatorKey), es).1, i, m.packet.ciphertext)
    requires k < |events| && events[k].Calls? && events[k].event.Sends?
    requires Carries(events[k].event.envelope, m) && events[k].event.envelope.header.packetType == DATA
    requires found.header.messageId == events[k].event.envelope.header.messageId
    requires Mesh.OnlyAt(identities, events, k, found.header.messageId)
    requires Mesh.Located(Mesh.NetRun(identities, events), found)
    ensures var s := StepsOf(Start(root, responderKey, initiatorKey), es).0.Party(Peer(role));
            var result := OpenEnvelope(s, found, newName);
            && (result.Ok? <==> GapAllowed(s, m.packet.header))
            && (result.Ok? ==> result.value.1 == m.plaintext)
  {
    hide StepsOf, Possible, Accepts, IsLost, OpenEnvelope, AssociatedData, Mesh.NetRun, Mesh.Located, Mesh.OnlyAt,
        GapAllowed, NumbersInRange, Step;
    RelayedOpens(root, responderKey, initiatorKey, es, j, role, m, identities, events, k, found, newName);
    FirstDelivery(root, responderKey, initiatorKey, es, j, role, m, m.packet, newName);
    FirstDeliveryInRange(root, responderKey, initiatorKey, es, j, role, m, newName);
  }
}
