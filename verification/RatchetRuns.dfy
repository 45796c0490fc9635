/** Whole runs of a session, from the shared root key on. */
module RatchetRuns {
  import opened Basics
  import opened Symbolic
  import opened Ratchet
  import opened RatchetSession
  import opened RatchetKeys
  import opened RatchetDelivery
  import opened RatchetInvariant

  function StepsOf(w: World, es: seq<Event>): (World, seq<Outcome>)
    requires 2 <= |w.names| == |w.chains|
    ensures var r := StepsOf(w, es); 2 <= |r.0.names| == |r.0.chains| && |r.1| == |es|
  {
    if es == [] then (w, [])
    else
      var (w1, os) := StepsOf(w, es[..|es| - 1]);
      var (w2, o) := Step(w1, es[|es| - 1]);
      (w2, os + [o])
  }

  /** Every event is one the environment can cause at the moment it happens. */
  ghost predicate Possible(w: World, es: seq<Event>)
    requires 2 <= |w.names| == |w.chains|
  {
    es != [] ==>
      Possible(w, es[..|es| - 1]) && Admissible(StepsOf(w, es[..|es| - 1]).0, es[|es| - 1])
  }

  /** In every reachable state both sides are in step and both caches are exact. */
  lemma {:induction false} RunKeepsInv(w: World, es: seq<Event>)
    requires Inv(w) && Possible(w, es)
    ensures Inv(StepsOf(w, es).0)
    decreases |es|
  {
    if es != [] {
      RunKeepsInv(w, es[..|es| - 1]);
      StepKeepsInv(StepsOf(w, es[..|es| - 1]).0, es[|es| - 1]);
    }
  }

  // ----- What the log of a run says about its final state -----

  predicate SentAt(es: seq<Event>, os: seq<Outcome>, j: nat, role: Role, m: Message) {
    && j < |es| == |os|
    && es[j].Send? && es[j].role == role && es[j].plaintext == m.plaintext
    && os[j] == Sent(m.packet)
  }

  /** Event k opened ciphertext c. */
  predicate OpenedAt(es: seq<Event>, os: seq<Outcome>, k: nat, c: Cipher<Aad, Bytes>) {
    k < |es| == |os| && es[k].Deliver? && es[k].packet.ciphertext == c && os[k].Opened?
  }

  /** Message m is in a chain that `role` sends. */
  ghost predicate InChainOf(w: World, role: Role, m: Message) {
    exists i: nat, n: nat ::
      FromPeer(Peer(role), i) && i < |w.chains| && n < |w.chains[i]| && w.chains[i][n] == m
  }

  ghost predicate LogMatches(w: World, es: seq<Event>, os: seq<Outcome>) {
    && |es| == |os|
    && (forall role, m :: InChainOf(w, role, m) <==> exists j: nat :: SentAt(es, os, j, role, m))
    && (forall c :: c in w.consumed <==> exists k: nat :: OpenedAt(es, os, k, c))
  }

  lemma SentLater(es: seq<Event>, os: seq<Outcome>, e: Event, o: Outcome)
    requires |es| == |os|
    ensures forall j: nat, role, m :: SentAt(es + [e], os + [o], j, role, m) <==>
              SentAt(es, os, j, role, m) ||
              (j == |es| && e.Send? && e.role == role && e.plaintext == m.plaintext && o == Sent(m.packet))
  {
  }

  lemma OpenedLater(es: seq<Event>, os: seq<Outcome>, e: Event, o: Outcome)
    requires |es| == |os|
    ensures forall k: nat, c :: OpenedAt(es + [e], os + [o], k, c) <==>
              OpenedAt(es, os, k, c) || (k == |es| && e.Deliver? && e.packet.ciphertext == c && o.Opened?)
  {
  }

  lemma AppendedMessage(w: World, w': World, i: nat, sent: Message, role: Role, m: Message)
    requires i < |w.chains| == |w'.chains|
    requires w'.chains == w.chains[i := w.chains[i] + [sent]]
    ensures InChainOf(w', role, m) <==> InChainOf(w, role, m) || (FromPeer(Peer(role), i) && m == sent)
  {
    if InChainOf(w', role, m) {
      var j: nat, n: nat :| FromPeer(Peer(role), j) && j < |w'.chains| && n < |w'.chains[j]| && w'.chains[j][n] == m;
      if j != i || n < |w.chains[i]| { assert w.chains[j][n] == m; }
    }
    if InChainOf(w, role, m) {
      var j: nat, n: nat :| FromPeer(Peer(role), j) && j < |w.chains| && n < |w.chains[j]| && w.chains[j][n] == m;
      assert w'.chains[j][n] == m;
    }
    if FromPeer(Peer(role), i) && m == sent {
      assert w'.chains[i][|w.chains[i]|] == m;
    }
  }

  lemma EmptyChainAdded(w: World, w': World, role: Role, m: Message)
    requires w'.chains == w.chains || w'.chains == w.chains + [[]]
    ensures InChainOf(w', role, m) <==> InChainOf(w, role, m)
  {
    if InChainOf(w', role, m) {
      var j: nat, n: nat :| FromPeer(Peer(role), j) && j < |w'.chains| && n < |w'.chains[j]| && w'.chains[j][n] == m;
      assert w.chains[j][n] == m;
    }
    if InChainOf(w, role, m) {
      var j: nat, n: nat :| FromPeer(Peer(role), j) && j < |w.chains| && n < |w.chains[j]| && w.chains[j][n] == m;
      assert w'.chains[j][n] == m;
    }
  }

  lemma StepChains(w: World, e: Event, role: Role, m: Message)
    requires Names(w)
    ensures var (w', o) := Step(w, e);
            InChainOf(w', role, m) <==>
            InChainOf(w, role, m) || (e.Send? && e.role == role && e.plaintext == m.plaintext && o == Sent(m.packet))
  {
    var (w', o) := Step(w, e);
    if e.Send? && o.Sent? {
      EpochBounds(w, e.role);
      AppendedMessage(w, w', Epoch(w, e.role), Message(o.packet, e.plaintext), role, m);
    } else {
      EmptyChainAdded(w, w', role, m);
    }
  }

  lemma {:induction false} LogOfRun(root: Key, responderKey: nat, initiatorKey: nat, es: seq<Event>)
    requires responderKey != initiatorKey
    requires Possible(Start(root, responderKey, initiatorKey), es)
    ensures var (w, os) := StepsOf(Start(root, responderKey, initiatorKey), es); LogMatches(w, es, os)
    decreases |es|
  {
    var w0 := Start(root, responderKey, initiatorKey);
    if es != [] {
      var before, e := es[..|es| - 1], es[|es| - 1];
      assert es == before + [e];
      var (w, os) := StepsOf(w0, before);
      var (w', o) := Step(w, e);
      LogOfRun(root, responderKey, initiatorKey, before);
      StartInv(root, responderKey, initiatorKey);
      RunKeepsInv(w0, before);
      LogStep(w, before, os, e);
    }
  }

  lemma LogStep(w: World, es: seq<Event>, os: seq<Outcome>, e: Event)
    requires Names(w) && LogMatches(w, es, os)
    ensures var (w', o) := Step(w, e); LogMatches(w', es + [e], os + [o])
  {
    var (w', o) := Step(w, e);
    forall role, m
      ensures InChainOf(w', role, m) <==> exists j: nat :: SentAt(es + [e], os + [o], j, role, m)
    {
      LogStepSent(w, es, os, e, role, m);
    }
    forall c
      ensures c in w'.consumed <==> exists k: nat :: OpenedAt(es + [e], os + [o], k, c)
    {
      LogStepOpened(w, es, os, e, c);
    }
  }

  lemma LogStepSent(w: World, es: seq<Event>, os: seq<Outcome>, e: Event, role: Role, m: Message)
    requires Names(w) && |es| == |os|
    requires InChainOf(w, role, m) <==> exists j: nat :: SentAt(es, os, j, role, m)
    ensures var (w', o) := Step(w, e);
            InChainOf(w', role, m) <==> exists j: nat :: SentAt(es + [e], os + [o], j, role, m)
  {
    var o := Step(w, e).1;
    StepChains(w, e, role, m);
    hide Step, InChainOf;
    SentLater(es, os, e, o);
    if exists j: nat :: SentAt(es, os, j, role, m) {
      var j: nat :| SentAt(es, os, j, role, m);
      assert SentAt(es + [e], os + [o], j, role, m);
    }
    if e.Send? && e.role == role && e.plaintext == m.plaintext && o == Sent(m.packet) {
      assert SentAt(es + [e], os + [o], |es|, role, m);
    }
  }

  lemma LogStepOpened(w: World, es: seq<Event>, os: seq<Outcome>, e: Event, c: Cipher<Aad, Bytes>)
    requires Names(w) && |es| == |os|
    requires c in w.consumed <==> exists k: nat :: OpenedAt(es, os, k, c)
    ensures var (w', o) := Step(w, e);
            c in w'.consumed <==> exists k: nat :: OpenedAt(es + [e], os + [o], k, c)
  {
    var o := Step(w, e).1;
    assert c in Step(w, e).0.consumed <==>
        c in w.consumed || (e.Deliver? && e.packet.ciphertext == c && o.Opened?);
    hide Step;
    OpenedLater(es, os, e, o);
    if exists k: nat :: OpenedAt(es, os, k, c) {
      var k: nat :| OpenedAt(es, os, k, c);
      assert OpenedAt(es + [e], os + [o], k, c);
    }
    if e.Deliver? && e.packet.ciphertext == c && o.Opened? {
      assert OpenedAt(es + [e], os + [o], |es|, c);
    }
  }

  // ----- The theorems -----

  /** Whatever opens in a run was encrypted earlier by the other side with that
      plaintext, is unaltered but for what header numbers do not show on the wire,
      and had not been opened before. */
  lemma OpensOnceWhatWasSent(root: Key, responderKey: nat, initiatorKey: nat, es: seq<Event>, e: Event)
    requires responderKey != initiatorKey
    requires Possible(Start(root, responderKey, initiatorKey), es + [e])
    requires var w := StepsOf(Start(root, responderKey, initiatorKey), es).0; e.Deliver? && Step(w, e).1.Opened?
    ensures var (w, os) := StepsOf(Start(root, responderKey, initiatorKey), es);
            && (exists j: nat, m :: SentAt(es, os, j, Peer(e.role), m) && Copies(e.packet, m) &&
                                    m.plaintext == Step(w, e).1.plaintext)
            && (forall k: nat :: !OpenedAt(es, os, k, e.packet.ciphertext))
  {
    var w0 := Start(root, responderKey, initiatorKey);
    assert (es + [e])[..|es|] == es;
    var (w, os) := StepsOf(w0, es);
    StartInv(root, responderKey, initiatorKey);
    RunKeepsInv(w0, es);
    LogOfRun(root, responderKey, initiatorKey, es);
    var i, n := OpenedIsDue(w, e.role, e.packet, e.newName);
    var m := w.chains[i][n];
    assert FromPeer(Peer(Peer(e.role)), i);
    assert InChainOf(w, Peer(e.role), m);
    var j: nat :| SentAt(es, os, j, Peer(e.role), m);
  }

  // ----- Messages in chains that were left too early -----

  /** Which role receives chain j. */
  function Receiver(j: nat): Role { if j % 2 == 0 then Initiator else Responder }

  /** The closed chains are those their receiver has left. */
  ghost predicate ClosedExact(w: World)
    requires Names(w)
  {
    forall j: nat :: j in w.closed <==> 0 < j && j + 1 < Epoch(w, Receiver(j))
  }

  /** The receiver of chain i left it before deriving the key of message n. */
  predicate Lost(w: World, i: nat, n: nat) {
    i in w.closed && i < |w.chains| && w.closed[i] <= n < |w.chains[i]|
  }

  /** What a delivery does to the names, the chains and the record of closed ones. */
  lemma DeliverShape(w: World, e: Event)
    requires Inv(w) && Admissible(w, e) && e.Deliver? && Step(w, e).1.Opened?
    ensures var w', h, e0 := Step(w, e).0, e.packet.header, Epoch(w, e.role);
            if IsCached(w.Party(e.role), h) || w.Party(e.role).dhRemote == Some(h.dhPublicKey)
            then w'.names == w.names && w'.chains == w.chains && w'.closed == w.closed
            else && e0 + 2 == |w.names| && w'.names == w.names + [e.newName] && w'.chains == w.chains + [[]]
                 && w'.closed == Closing(w, e.role, Left(w, e.role, h))
  {
    var s, h := w.Party(e.role), e.packet.header;
    hide CacheExact, ConsumedExact, Transcript;
    EpochBounds(w, e.role);
    assert s.dhSelf == w.names[Epoch(w, e.role)];
    if IsCached(s, h) {
      CachedStepShape(w, e.role, e.packet, e.newName);
    } else if s.dhRemote == Some(h.dhPublicKey) {
      TryCurrent(w, e.role, h, e.newName);
    } else {
      var n := OpenedOnNext(w, e.role, e.packet, e.newName);
      TryNext(w, e.role, h, e.newName);
    }
  }

  lemma ClosingKeepsExact(w: World, w': World, role: Role, left: nat)
    requires Names(w) && ClosedExact(w) && Names(w') && Epoch(w, role) + 2 == |w.names|
    requires |w'.names| == |w.names| + 1 && w'.closed == Closing(w, role, left)
    ensures ClosedExact(w')
  {
    forall j: nat
      ensures j in w'.closed <==> 0 < j && j + 1 < Epoch(w', Receiver(j))
    {
      assert j in w.closed <==> 0 < j && j + 1 < Epoch(w, Receiver(j));
    }
  }

  lemma QuietStep(w: World, e: Event)
    requires 2 <= |w.names| == |w.chains|
    requires !(e.Deliver? && Step(w, e).1.Opened?)
    ensures Step(w, e).0.names == w.names && Step(w, e).0.closed == w.closed
  {
  }

  lemma StepKeepsClosed(w: World, e: Event)
    requires Inv(w) && Admissible(w, e) && ClosedExact(w)
    ensures Names(Step(w, e).0) && ClosedExact(Step(w, e).0)
  {
    hide ClosedExact, CacheExact, ConsumedExact, Transcript, InStep, Step, Admissible;
    StepKeepsInv(w, e);
    if e.Deliver? && Step(w, e).1.Opened? {
      DeliverShape(w, e);
      if Step(w, e).0.names == w.names {
        SameClosed(w, Step(w, e).0);
      } else {
        ClosingKeepsExact(w, Step(w, e).0, e.role, Left(w, e.role, e.packet.header));
      }
    } else {
      QuietStep(w, e);
      SameClosed(w, Step(w, e).0);
    }
  }

  lemma SameClosed(w: World, w': World)
    requires Names(w) && ClosedExact(w) && Names(w') && w'.names == w.names && w'.closed == w.closed
    ensures ClosedExact(w')
  {
  }

  lemma {:induction false} RunKeepsClosed(w: World, es: seq<Event>)
    requires Inv(w) && ClosedExact(w) && Possible(w, es)
    ensures Inv(StepsOf(w, es).0) && ClosedExact(StepsOf(w, es).0)
    decreases |es|
  {
    RunKeepsInv(w, es);
    if es != [] {
      RunKeepsClosed(w, es[..|es| - 1]);
      StepKeepsClosed(StepsOf(w, es[..|es| - 1]).0, es[|es| - 1]);
    }
  }

  /** What the receiver can check of a header before decrypting message n under
      it: it names n where that key is cached, and else leads to n with every
      range of keys to skip at most MAX_SKIP long. */
  predicate Accepts(s: State, h: Header, n: nat) {
    if (h.dhPublicKey, n) in s.skippedMessageKeys then h.messageNumber == n
    else !IsCached(s, h) &&
         if s.dhRemote == Some(h.dhPublicKey)
         then Max(s.receiveMessageNumber, h.messageNumber) == n <= s.receiveMessageNumber + MAX_SKIP
         else Max(0, h.messageNumber) == n <= MAX_SKIP &&
              (s.receivingChainKey.None? || h.previousChainLength - s.receiveMessageNumber <= MAX_SKIP)
  }

  lemma ReachesIfAccepted(w: World, role: Role, h: Header, i: nat, n: nat)
    requires Inv(w) && ClosedExact(w) && FromPeer(role, i) && 0 < i < |w.chains| && n < |w.chains[i]|
    requires w.chains[i][n].packet.ciphertext !in w.consumed && h.dhPublicKey == Point(w.names[i])
    ensures Reaches(w, role, h, i, n) <==> Accepts(w.Party(role), h, n) && !Lost(w, i, n)
  {
    hide Transcript, ConsumedExact;
    var s, e, k := w.Party(role), Epoch(w, role), (Point(w.names[i]), n);
    EpochBounds(w, role);
    if k in s.skippedMessageKeys {
      hide CacheExact;
      CachedMeansOwed(w, role, i, n);
    } else {
      assert CacheExact(w, role);
      assert !Owed(w, role, i, k);
      if i + 1 != e { assert e > 0 ==> w.names[e - 1] != w.names[i]; }
    }
  }

  /** Delivering any copy of a message's ciphertext that has not been opened, under
      whatever header and associated data and whatever happened before: it opens,
      to the plaintext that was sent, exactly when header and associated data seal
      as the original's, the receiver accepts the header for that message, and it
      did not leave the message's chain before it. */
  lemma FirstDelivery(root: Key, responderKey: nat, initiatorKey: nat, es: seq<Event>, j: nat, role: Role,
          m: Message, p: Packet, newName: nat)
    requires responderKey != initiatorKey
    requires Possible(Start(root, responderKey, initiatorKey), es)
    requires SentAt(es, StepsOf(Start(root, responderKey, initiatorKey), es).1, j, role, m)
    requires p.ciphertext == m.packet.ciphertext
    requires forall k: nat :: !OpenedAt(es, StepsOf(Start(root, responderKey, initiatorKey), es).1, k, p.ciphertext)
    ensures m.packet.header.messageNumber >= 0
    ensures var w := StepsOf(Start(root, responderKey, initiatorKey), es).0;
            Step(w, Deliver(Peer(role), p, newName)).1 ==
            if Copies(p, m) && Accepts(w.Party(Peer(role)), p.header, m.packet.header.messageNumber) &&
               !IsLost(w, m)
            then Opened(m.plaintext) else Rejected
  {
    var w0 := Start(root, responderKey, initiatorKey);
    var (w, os) := StepsOf(w0, es);
    StartInv(root, responderKey, initiatorKey);
    RunKeepsClosed(w0, es);
    LogOfRun(root, responderKey, initiatorKey, es);
    assert InChainOf(w, role, m);
    var i: nat, n: nat :|
      FromPeer(Peer(role), i) && i < |w.chains| && n < |w.chains[i]| && w.chains[i][n] == m;
    DeliveryOf(w, Peer(role), i, n, p, newName);
  }

  /** Message m is in a chain that its receiver left before it. */
  ghost predicate IsLost(w: World, m: Message) {
    exists i: nat, n: nat :: Lost(w, i, n) && w.chains[i][n] == m
  }

  lemma LostOnce(w: World, i: nat, n: nat)
    requires Names(w) && Transcript(w) && i < |w.chains| && n < |w.chains[i]|
    ensures IsLost(w, w.chains[i][n]) <==> Lost(w, i, n)
  {
    if IsLost(w, w.chains[i][n]) {
      var j: nat, m: nat :| Lost(w, j, m) && w.chains[j][m] == w.chains[i][n];
      SentOnce(w, i, n, j, m);
    }
  }

  lemma DeliveryOf(w: World, role: Role, i: nat, n: nat, p: Packet, newName: nat)
    requires Inv(w) && ClosedExact(w) && FromPeer(role, i) && i < |w.chains| && n < |w.chains[i]|
    requires p.ciphertext == w.chains[i][n].packet.ciphertext && p.ciphertext !in w.consumed
    ensures w.chains[i][n].packet.header.messageNumber == n
    ensures var m := w.chains[i][n];
            Step(w, Deliver(role, p, newName)).1 ==
            if Copies(p, m) && Accepts(w.Party(role), p.header, n) && !IsLost(w, m)
            then Opened(m.plaintext) else Rejected
  {
    hide CacheExact, ConsumedExact, InStep, ClosedExact;
    assert i > 0 && WellFormed(w, i, n);
    LostOnce(w, i, n);
    if Copies(p, w.chains[i][n]) {
      ReachesIfAccepted(w, role, p.header, i, n);
    }
    if Due(w, role, p, i, n) {
      DueOpens(w, role, p, newName, i, n);
    } else if Decrypt(w.Party(role), p, newName).Ok? {
      assert IsSent(w, w.chains[i][n]);
      var i', n' := OpenedIsDue(w, role, p, newName);
      SentOnce(w, i, n, i', n');
    }
  }

  /** The run without the deliveries that were rejected. */
  function Kept(w: World, es: seq<Event>): seq<Event>
    requires 2 <= |w.names| == |w.chains|
  {
    if es == [] then []
    else
      var before := Kept(w, es[..|es| - 1]);
      if StepsOf(w, es).1[|es| - 1] == Rejected then before else before + [es[|es| - 1]]
  }

  function KeptOutcomes(os: seq<Outcome>): seq<Outcome> {
    if os == [] then []
    else
      var before := KeptOutcomes(os[..|os| - 1]);
      if os[|os| - 1] == Rejected then before else before + [os[|os| - 1]]
  }

  /** Forged, altered and replayed packets leave no trace: the run without every
      rejected delivery is possible too, ends in the same state and has the same
      results. */
  lemma {:induction false} RejectedLeaveNoTrace(w: World, es: seq<Event>)
    requires 2 <= |w.names| == |w.chains|
    requires Possible(w, es)
    ensures Possible(w, Kept(w, es))
    ensures StepsOf(w, Kept(w, es)) == (StepsOf(w, es).0, KeptOutcomes(StepsOf(w, es).1))
    decreases |es|
  {
    if es != [] {
      var before, e := es[..|es| - 1], es[|es| - 1];
      RejectedLeaveNoTrace(w, before);
      var (w1, os) := StepsOf(w, before);
      var (w2, o) := Step(w1, e);
      assert StepsOf(w, es).1 == os + [o];
      assert (os + [o])[..|os|] == os;
      if o != Rejected {
        assert (Kept(w, before) + [e])[..|Kept(w, before)|] == Kept(w, before);
      }
    }
  }

  /** No two encrypts of a run use the same message key. */
  lemma EncryptsUseDistinctKeys(root: Key, responderKey: nat, initiatorKey: nat, es: seq<Event>, e: Event,
                                j: nat, role: Role, m: Message)
    requires responderKey != initiatorKey
    requires Possible(Start(root, responderKey, initiatorKey), es)
    requires SentAt(es, StepsOf(Start(root, responderKey, initiatorKey), es).1, j, role, m)
    requires var w := StepsOf(Start(root, responderKey, initiatorKey), es).0; e.Send? && Step(w, e).1.Sent?
    ensures var w := StepsOf(Start(root, responderKey, initiatorKey), es).0;
            && m.packet.ciphertext.Sealed? && Step(w, e).1.packet.ciphertext.Sealed?
            && m.packet.ciphertext.key != Step(w, e).1.packet.ciphertext.key
  {
    var w0 := Start(root, responderKey, initiatorKey);
    var (w, os) := StepsOf(w0, es);
    StartInv(root, responderKey, initiatorKey);
    RunKeepsInv(w0, es);
    LogOfRun(root, responderKey, initiatorKey, es);
    assert InChainOf(w, role, m);
    var i: nat, n: nat :|
      FromPeer(Peer(role), i) && i < |w.chains| && n < |w.chains[i]| && w.chains[i][n] == m;
    EpochBounds(w, e.role);
    assert i > 0 && WellFormed(w, i, n);
    NewKey(w, e);
    MessageKeysDistinct(w, i, n, Epoch(w, e.role), |w.chains[Epoch(w, e.role)]|);
  }

  lemma NewKey(w: World, e: Event)
    requires Names(w) && e.Send? && InStep(w, e.role) && Step(w, e).1.Sent?
    ensures Epoch(w, e.role) > 0 && Step(w, e).1.packet.ciphertext.Sealed?
    ensures Step(w, e).1.packet.ciphertext.key == MessageKeyAt(w, Epoch(w, e.role), |w.chains[Epoch(w, e.role)]|)
  {
  }
}
