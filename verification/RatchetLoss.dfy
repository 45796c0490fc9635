/**
  Messages a session loses for good. A packet announces how long the sender's
  previous chain was, and the receiver derives the keys of that chain up to there
  before it leaves it. The number is authenticated modulo 2^32 only and read as it
  is: a relay that lowers it by 2^32 has the packet opened and the rest of the
  previous chain forgotten.
 */
module RatchetLoss {
  import opened Basics
  import opened Symbolic
  import opened Ratchet
  import opened RatchetSession
  import opened RatchetKeys
  import opened RatchetDelivery
  import opened RatchetInvariant
  import opened RatchetRuns

  /** Opening under this header takes a DH ratchet step. */
  predicate Turns(s: State, h: Header) {
    !IsCached(s, h) && s.dhRemote != Some(h.dhPublicKey)
  }

  /** Event e makes its receiver leave chain i before message n. */
  predicate Loses(w: World, e: Event, i: nat, n: nat)
    requires Names(w)
  {
    && e.Deliver? && Step(w, e).1.Opened? && Turns(w.Party(e.role), e.packet.header)
    && Epoch(w, e.role) > 1 && i == Epoch(w, e.role) - 1
    && Left(w, e.role, e.packet.header) <= n < |w.chains[i]|
  }

  /** Only leaving a chain loses messages, exactly those beyond the point where it
      is left, and what is lost stays lost. */
  lemma LostExactly(w: World, e: Event, i: nat, n: nat)
    requires Inv(w) && ClosedExact(w) && Admissible(w, e)
    ensures Lost(Step(w, e).0, i, n) <==> Lost(w, i, n) || Loses(w, e, i, n)
  {
    hide CacheExact, ConsumedExact, Transcript;
    match e
    case Send(role, plaintext, associatedData) =>
      EpochBounds(w, role);
      assert Epoch(w, role) !in w.closed;
    case Deliver(role, p, newName) =>
      if Step(w, e).1.Opened? {
        DeliverShape(w, e);
        hide Step, InStep;
        if Turns(w.Party(role), p.header) { TurnLost(w, Step(w, e).0, role, newName, Left(w, role, p.header), i, n); }
      }
  }

  lemma TurnLost(w: World, w': World, role: Role, newName: nat, left: nat, i: nat, n: nat)
    requires Names(w) && ClosedExact(w) && Epoch(w, role) + 2 == |w.names|
    requires w'.chains == w.chains + [[]] && w'.closed == Closing(w, role, left)
    ensures Lost(w', i, n) <==>
              Lost(w, i, n) || (Epoch(w, role) > 1 && i == Epoch(w, role) - 1 && left <= n < |w.chains[i]|)
  {
    EpochBounds(w, role);
  }

  /** A lost message stays lost over any run, and no packet with its ciphertext
      ever opens, whatever its header. */
  lemma {:induction false} LostForever(w: World, es: seq<Event>, i: nat, n: nat, e: Event)
    requires Inv(w) && ClosedExact(w) && Lost(w, i, n) && Possible(w, es)
    requires Admissible(StepsOf(w, es).0, e) && e.Deliver? && FromPeer(e.role, i)
    requires e.packet.ciphertext == w.chains[i][n].packet.ciphertext
    ensures Lost(StepsOf(w, es).0, i, n)
    ensures Step(StepsOf(w, es).0, e).1 == Rejected
  {
    RunKeepsClosed(w, es);
    RunKeepsLost(w, es, i, n);
    LostIsRejected(StepsOf(w, es).0, e, i, n);
  }

  lemma {:induction false} RunKeepsLost(w: World, es: seq<Event>, i: nat, n: nat)
    requires Inv(w) && ClosedExact(w) && Lost(w, i, n) && Possible(w, es)
    ensures Lost(StepsOf(w, es).0, i, n)
    ensures StepsOf(w, es).0.chains[i][n] == w.chains[i][n]
    decreases |es|
  {
    if es != [] {
      var before, e := es[..|es| - 1], es[|es| - 1];
      RunKeepsLost(w, before, i, n);
      RunKeepsClosed(w, before);
      LostExactly(StepsOf(w, before).0, e, i, n);
      StepKeepsMessage(StepsOf(w, before).0, e, i, n);
    }
  }

  lemma StepKeepsMessage(w: World, e: Event, i: nat, n: nat)
    requires Names(w) && i < |w.chains| && n < |w.chains[i]|
    ensures var w' := Step(w, e).0; i < |w'.chains| && n < |w'.chains[i]| && w'.chains[i][n] == w.chains[i][n]
  {
  }

  lemma LostIsRejected(w: World, e: Event, i: nat, n: nat)
    requires Inv(w) && ClosedExact(w) && Lost(w, i, n) && e.Deliver? && FromPeer(e.role, i)
    requires Admissible(w, e) && e.packet.ciphertext == w.chains[i][n].packet.ciphertext
    ensures Step(w, e).1 == Rejected
  {
    hide Decrypt, Transcript, InStep, CacheExact, ConsumedExact;
    if Decrypt(w.Party(e.role), e.packet, e.newName).Ok? {
      var j, m := OpenedIsDue(w, e.role, e.packet, e.newName);
      LostOnce(w, i, n);
      DeliveryOf(w, e.role, i, n, e.packet, e.newName);
    }
  }

  /** A packet of the peer's next chain that opens makes the receiver lose
      messages exactly when its length of the previous chain was altered and
      messages of that chain beyond those received are still missing. */
  lemma LosesIfAltered(w: World, e: Event, n: nat)
    requires Inv(w) && ClosedExact(w) && Admissible(w, e) && e.Deliver?
    requires Due(w, e.role, e.packet, Epoch(w, e.role) + 1, n)
    ensures Turns(w.Party(e.role), e.packet.header) && Step(w, e).1.Opened?
    ensures var received := w.Party(e.role).receiveMessageNumber;
            var sent := w.chains[Epoch(w, e.role) + 1][n].packet.header.previousChainLength;
            (exists i: nat, k: nat :: Loses(w, e, i, k)) <==>
              Epoch(w, e.role) > 1 && e.packet.header.previousChainLength != sent && received < sent
  {
    hide ConsumedExact;
    var role, e0, h := e.role, Epoch(w, e.role), e.packet.header;
    assert WellFormed(w, e0 + 1, n);
    EpochBounds(w, role);
    assert !IsCached(w.Party(role), h) by {
      if IsCached(w.Party(role), h) { CachedMeansOwed(w, role, e0 + 1, h.messageNumber); }
    }
    DueOpens(w, role, e.packet, e.newName, e0 + 1, n);
    DueAhead(w, role, e.packet, e0 + 1, n);
    hide CacheExact, Transcript, Decrypt;
    if e0 > 1 {
      var received, sent := w.Party(role).receiveMessageNumber, |w.chains[e0 - 1]|;
      assert received <= sent;
      SameOrFarBelow(h.previousChainLength, sent);
      if h.previousChainLength != sent && received < sent {
        assert Loses(w, e, e0 - 1, Left(w, role, h));
      }
    }
  }

  lemma SameOrFarBelow(a: int, b: int)
    requires a % TWO_TO_THE_32 == b % TWO_TO_THE_32 && a < b + TWO_TO_THE_32
    ensures a == b || a <= b - TWO_TO_THE_32
  {
  }

  /** Message n of chain i as the network may alter it: its length of the previous
      chain lowered by a multiple of 2^32. */
  function Lowered(p: Packet, times: nat): Packet {
    p.(header := p.header.(previousChainLength := p.header.previousChainLength - times * TWO_TO_THE_32))
  }

  lemma LoweredIsDue(w: World, role: Role, n: nat, times: nat)
    requires Inv(w) && Epoch(w, role) + 1 < |w.chains| && n < |w.chains[Epoch(w, role) + 1]|
    requires Due(w, role, w.chains[Epoch(w, role) + 1][n].packet, Epoch(w, role) + 1, n)
    ensures var p := Lowered(w.chains[Epoch(w, role) + 1][n].packet, times);
            Due(w, role, p, Epoch(w, role) + 1, n) && Injectable(w, p)
  {
    var m := w.chains[Epoch(w, role) + 1][n];
    assert IsSent(w, m);
    hide CacheExact, ConsumedExact, Transcript, InStep;
    LoweredOnWire(m.packet.header.previousChainLength, times);
  }

  lemma {:induction false} LoweredOnWire(number: int, times: nat)
    ensures (number - times * TWO_TO_THE_32) % TWO_TO_THE_32 == number % TWO_TO_THE_32
    decreases times
  {
    if times > 0 {
      LoweredOnWire(number, times - 1);
      assert number - times * TWO_TO_THE_32 == number - (times - 1) * TWO_TO_THE_32 - TWO_TO_THE_32;
    }
  }

  /** In every reachable state: a due message of the peer's next chain, altered in
      the length of the previous chain, opens all the same, and costs the receiver
      every message of that chain it is still missing beyond the lowered number;
      unaltered it costs none. */
  lemma AlteredLengthLoses(w: World, role: Role, n: nat, times: nat, newName: nat)
    requires Inv(w) && ClosedExact(w) && newName !in w.names && times > 0
    requires 1 < Epoch(w, role) < |w.chains| - 1 && n < |w.chains[Epoch(w, role) + 1]|
    requires Due(w, role, w.chains[Epoch(w, role) + 1][n].packet, Epoch(w, role) + 1, n)
    ensures var m := w.chains[Epoch(w, role) + 1][n];
            var e, e0 := Deliver(role, Lowered(m.packet, times), newName), Deliver(role, m.packet, newName);
            && Admissible(w, e) && Admissible(w, e0)
            && Step(w, e).1 == Step(w, e0).1 == Opened(m.plaintext)
            && (forall j: nat {:trigger Lost(Step(w, e).0, Epoch(w, role) - 1, j)} ::
                  Left(w, role, e.packet.header) <= j < |w.chains[Epoch(w, role) - 1]| ==>
                  Lost(Step(w, e).0, Epoch(w, role) - 1, j))
            && (forall i: nat, j: nat :: Lost(Step(w, e0).0, i, j) <==> Lost(w, i, j))
  {
    hide CacheExact, ConsumedExact, InStep;
    var m, i := w.chains[Epoch(w, role) + 1][n], Epoch(w, role) - 1;
    var e, e0 := Deliver(role, Lowered(m.packet, times), newName), Deliver(role, m.packet, newName);
    LoweredIsDue(w, role, n, times);
    assert IsSent(w, m);
    assert Admissible(w, e) && Admissible(w, e0);
    LosesIfAltered(w, e, n);
    LosesIfAltered(w, e0, n);
    DueOpens(w, role, e.packet, newName, i + 2, n);
    DueOpens(w, role, e0.packet, newName, i + 2, n);
    hide Step, Inv, ClosedExact, Due;
    OpenedOutcome(w, e);
    OpenedOutcome(w, e0);
    forall j: nat | Left(w, role, e.packet.header) <= j < |w.chains[i]|
      ensures Lost(Step(w, e).0, i, j)
    {
      LostExactly(w, e, i, j);
      assert Loses(w, e, i, j);
    }
    forall i: nat, j: nat ensures Lost(Step(w, e0).0, i, j) <==> Lost(w, i, j) {
      LostExactly(w, e0, i, j);
    }
  }

  lemma OpenedOutcome(w: World, e: Event)
    requires 2 <= |w.names| == |w.chains| && e.Deliver?
    ensures var d := Decrypt(w.Party(e.role), e.packet, e.newName);
            Step(w, e).1 == if d.Ok? then Opened(d.value.1) else Rejected
  {
  }

  // ----- Runs with numbers in range lose nothing -----

  /** Every packet opened in the run announced a length from 0 to 2^32 - 1, and
      every packet sent one below 2^32. */
  predicate NumbersInRange(es: seq<Event>, os: seq<Outcome>) {
    && |es| == |os|
    && forall k: nat :: k < |es| ==>
         && (os[k].Opened? && es[k].Deliver? ==> 0 <= es[k].packet.header.previousChainLength < TWO_TO_THE_32)
         && (os[k].Sent? ==> os[k].packet.header.previousChainLength < TWO_TO_THE_32)
  }

  lemma {:induction false} NothingLost(root: Key, responderKey: nat, initiatorKey: nat, es: seq<Event>, i: nat, n: nat)
    requires responderKey != initiatorKey
    requires Possible(Start(root, responderKey, initiatorKey), es)
    requires NumbersInRange(es, StepsOf(Start(root, responderKey, initiatorKey), es).1)
    ensures !Lost(StepsOf(Start(root, responderKey, initiatorKey), es).0, i, n)
    decreases |es|
  {
    var w0 := Start(root, responderKey, initiatorKey);
    if es != [] {
      var before, e := es[..|es| - 1], es[|es| - 1];
      var (w, os) := StepsOf(w0, before);
      assert StepsOf(w0, es).1 == os + [Step(w, e).1] && es == before + [e];
      PrefixInRange(before, os, e, Step(w, e).1);
      NothingLost(root, responderKey, initiatorKey, before, i, n);
      StartInv(root, responderKey, initiatorKey);
      RunKeepsClosed(w0, before);
      LogOfRun(root, responderKey, initiatorKey, before);
      NothingLostNow(w, before, os, e, i, n);
    }
  }

  lemma NothingLostNow(w: World, es: seq<Event>, os: seq<Outcome>, e: Event, i: nat, n: nat)
    requires Inv(w) && ClosedExact(w) && LogMatches(w, es, os) && Admissible(w, e)
    requires NumbersInRange(es + [e], os + [Step(w, e).1]) && NumbersInRange(es, os) && !Lost(w, i, n)
    ensures !Lost(Step(w, e).0, i, n)
  {
    LostExactly(w, e, i, n);
    assert (es + [e])[|es|] == e && (os + [Step(w, e).1])[|es|] == Step(w, e).1;
    hide Inv, ClosedExact, LogMatches, Step, Admissible;
    if e.Deliver? && Step(w, e).1.Opened? { InRangeLosesNothing(w, es, os, e, i, n); }
  }

  lemma PrefixInRange(es: seq<Event>, os: seq<Outcome>, e: Event, o: Outcome)
    requires NumbersInRange(es + [e], os + [o]) && |es| == |os|
    ensures NumbersInRange(es, os)
  {
    forall k: nat | k < |es| ensures es[k] == (es + [e])[k] && os[k] == (os + [o])[k] {}
  }

  lemma SentInRange(w: World, es: seq<Event>, os: seq<Outcome>, i: nat, n: nat)
    requires LogMatches(w, es, os) && NumbersInRange(es, os) && i < |w.chains| && n < |w.chains[i]|
    ensures w.chains[i][n].packet.header.previousChainLength < TWO_TO_THE_32
  {
    var m, role := w.chains[i][n], Peer(Receiver(i));
    assert FromPeer(Peer(role), i);
    assert InChainOf(w, role, m);
    var j: nat :| SentAt(es, os, j, role, m);
  }

  lemma InRangeLosesNothing(w: World, es: seq<Event>, os: seq<Outcome>, e: Event, i: nat, n: nat)
    requires Inv(w) && ClosedExact(w) && LogMatches(w, es, os) && NumbersInRange(es, os) && Admissible(w, e)
    requires e.Deliver? && 0 <= e.packet.header.previousChainLength < TWO_TO_THE_32
    ensures !Loses(w, e, i, n)
  {
    hide CacheExact, ConsumedExact, Transcript, InStep;
    if Loses(w, e, i, n) {
      var k := OpenedOnNext(w, e.role, e.packet, e.newName);
      LosesIfAltered(w, e, k);
      SentInRange(w, es, os, Epoch(w, e.role) + 1, k);
      assert false;
    }
  }

  /** The gap limit for an unaltered header: the key is cached, or every range of
      keys to skip is at most MAX_SKIP long. */
  predicate GapAllowed(s: State, h: Header) {
    || IsCached(s, h)
    || (if s.dhRemote == Some(h.dhPublicKey) then h.messageNumber - s.receiveMessageNumber <= MAX_SKIP
        else h.messageNumber <= MAX_SKIP &&
             (s.receivingChainKey.None? || h.previousChainLength - s.receiveMessageNumber <= MAX_SKIP))
  }

  /** With numbers in range, the first delivery of a message as it was sent returns
      its plaintext exactly when its gaps are allowed. */
  lemma FirstDeliveryInRange(root: Key, responderKey: nat, initiatorKey: nat, es: seq<Event>, j: nat, role: Role,
          m: Message, newName: nat)
    requires responderKey != initiatorKey
    requires Possible(Start(root, responderKey, initiatorKey), es)
    requires NumbersInRange(es, StepsOf(Start(root, responderKey, initiatorKey), es).1)
    requires SentAt(es, StepsOf(Start(root, responderKey, initiatorKey), es).1, j, role, m)
    requires forall k: nat ::
               !OpenedAt(es, StepsOf(Start(root, responderKey, initiatorKey), es).1, k, m.packet.ciphertext)
    ensures var w := StepsOf(Start(root, responderKey, initiatorKey), es).0;
            Step(w, Deliver(Peer(role), m.packet, newName)).1 ==
            if GapAllowed(w.Party(Peer(role)), m.packet.header) then Opened(m.plaintext) else Rejected
  {
    hide Step, NumbersInRange, GapAllowed, Accepts;
    var w0 := Start(root, responderKey, initiatorKey);
    var (w, os) := StepsOf(w0, es);
    FirstDelivery(root, responderKey, initiatorKey, es, j, role, m, m.packet, newName);
    forall i: nat, n: nat ensures !Lost(w, i, n) { NothingLost(root, responderKey, initiatorKey, es, i, n); }
    StartInv(root, responderKey, initiatorKey);
    RunKeepsInv(w0, es);
    LogOfRun(root, responderKey, initiatorKey, es);
    assert InChainOf(w, role, m);
    hide Inv;
    var i: nat, n: nat :| FromPeer(Peer(role), i) && i < |w.chains| && n < |w.chains[i]| && w.chains[i][n] == m;
    AllowedIsAccepted(w, Peer(role), i, n);
  }

  lemma AllowedIsAccepted(w: World, role: Role, i: nat, n: nat)
    requires Inv(w) && FromPeer(role, i) && i < |w.chains| && n < |w.chains[i]|
    requires w.chains[i][n].packet.ciphertext !in w.consumed
    ensures var h := w.chains[i][n].packet.header;
            h.messageNumber == n && (GapAllowed(w.Party(role), h) <==> Accepts(w.Party(role), h, n))
  {
    hide ConsumedExact;
    var s := w.Party(role);
    EpochBounds(w, role);
    assert 0 < i && WellFormed(w, i, n);
    if (Point(w.names[i]), n) !in s.skippedMessageKeys && s.dhRemote == Some(Point(w.names[i])) {
      assert i + 1 == Epoch(w, role);
      assert CacheExact(w, role);
      assert !Owed(w, role, i, (Point(w.names[i]), n));
    }
  }

  // ----- A run in which a message is lost -----

  /** w is where the possible run es leads. */
  ghost predicate Reached(w0: World, es: seq<Event>, w: World) {
    && Inv(w0) && ClosedExact(w0) && Possible(w0, es) && w == StepsOf(w0, es).0
    && Inv(w) && ClosedExact(w)
  }

  lemma Next(w0: World, es: seq<Event>, w: World, e: Event) returns (w': World)
    requires Reached(w0, es, w) && Admissible(w, e)
    ensures w' == Step(w, e).0 && Reached(w0, es + [e], w')
  {
    assert (es + [e])[..|es|] == es;
    RunKeepsClosed(w0, es + [e]);
    w' := Step(w, e).0;
  }

  /** Sending appends to the current chain and leaves the other side alone. */
  lemma SendShape(w: World, role: Role)
    requires Inv(w) && Epoch(w, role) > 0
    ensures var w', i := Step(w, Send(role, [], [])).0, Epoch(w, role);
            && w'.names == w.names && w'.closed == w.closed && w'.Party(Peer(role)) == w.Party(Peer(role))
            && |w'.chains| == |w.chains| && |w'.chains[i]| == |w.chains[i]| + 1
            && (forall j: nat :: j < |w.chains| && j != i ==> w'.chains[j] == w.chains[j])
            && w'.Party(role).skippedMessageKeys == w.Party(role).skippedMessageKeys
            && w'.Party(role).receiveMessageNumber == w.Party(role).receiveMessageNumber
  {
    EpochBounds(w, role);
  }

  /** The first message of the peer's next chain is due under its own header. */
  lemma FirstIsDue(w: World, role: Role)
    requires Inv(w) && Epoch(w, role) + 1 < |w.chains| && w.chains[Epoch(w, role) + 1] != []
    requires Epoch(w, role) > 1 ==>
               |w.chains[Epoch(w, role) - 1]| - w.Party(role).receiveMessageNumber <= MAX_SKIP
    ensures Due(w, role, w.chains[Epoch(w, role) + 1][0].packet, Epoch(w, role) + 1, 0)
    ensures Injectable(w, w.chains[Epoch(w, role) + 1][0].packet)
  {
    hide ConsumedExact, InStep;
    var i := Epoch(w, role) + 1;
    var p := w.chains[i][0].packet;
    EpochBounds(w, role);
    assert WellFormed(w, i, 0) && IsSent(w, w.chains[i][0]);
    if IsCached(w.Party(role), p.header) {
      CachedMeansOwed(w, role, i, 0);
    }
    if p.ciphertext in w.consumed { ConsumedMeansDerived(w, role, i, 0); }
  }

  /** Opening it turns to that chain with one key derived. */
  lemma TakeFirst(w: World, role: Role, newName: nat)
    requires Inv(w) && ClosedExact(w) && newName !in w.names && Epoch(w, role) <= 1
    requires Epoch(w, role) + 1 < |w.chains| && w.chains[Epoch(w, role) + 1] != []
    ensures var e := Deliver(role, w.chains[Epoch(w, role) + 1][0].packet, newName);
            var w' := Step(w, e).0;
            && Admissible(w, e)
            && w'.names == w.names + [newName] && w'.chains == w.chains + [[]] && w'.closed == w.closed
            && w'.Party(role).receiveMessageNumber == 1 && w'.Party(Peer(role)) == w.Party(Peer(role))
  {
    hide ConsumedExact, CacheExact;
    var i := Epoch(w, role) + 1;
    var e := Deliver(role, w.chains[i][0].packet, newName);
    FirstIsDue(w, role);
    assert WellFormed(w, i, 0);
    LosesIfAltered(w, e, 0);
    DeliverShape(w, e);
    TryNext(w, role, e.packet.header, newName);
  }

  lemma NextSend(w0: World, es: seq<Event>, w: World, role: Role) returns (es': seq<Event>, w': World)
    requires Reached(w0, es, w) && |w.names| >= 2 && Epoch(w, role) > 0
    ensures Reached(w0, es', w')
    ensures w'.names == w.names && w'.closed == w.closed && w'.Party(Peer(role)) == w.Party(Peer(role))
    ensures var i := Epoch(w, role);
            && i < |w.chains| == |w'.chains| && |w'.chains[i]| == |w.chains[i]| + 1
            && forall j: nat :: j < |w.chains| && j != i ==> w'.chains[j] == w.chains[j]
    ensures w'.Party(role).receiveMessageNumber == w.Party(role).receiveMessageNumber
  {
    es' := es + [Send(role, [], [])];
    SendShape(w, role);
    w' := Next(w0, es, w, Send(role, [], []));
  }

  lemma NextTake(w0: World, es: seq<Event>, w: World, role: Role, newName: nat) returns (es': seq<Event>, w': World)
    requires Reached(w0, es, w) && newName !in w.names && Epoch(w, role) <= 1
    requires Epoch(w, role) + 1 < |w.chains| && w.chains[Epoch(w, role) + 1] != []
    ensures Reached(w0, es', w')
    ensures w'.names == w.names + [newName] && w'.chains == w.chains + [[]] && w'.closed == w.closed
    ensures w'.Party(role).receiveMessageNumber == 1 && w'.Party(Peer(role)) == w.Party(Peer(role))
  {
    TakeFirst(w, role, newName);
    var e := Deliver(role, w.chains[Epoch(w, role) + 1][0].packet, newName);
    es' := es + [e];
    hide Step, Inv, ClosedExact, Admissible;
    w' := Next(w0, es, w, e);
  }

  /** The initiator sends two messages and the responder opens the first. */
  lemma FirstHalf(w0: World) returns (es: seq<Event>, w: World)
    requires w0 == Start(Literal(0), 0, 1)
    ensures Reached(w0, es, w) && w.names == [0, 1, 2]
    ensures |w.chains| == 3 && |w.chains[1]| == 2 && w.chains[2] == [] && w.responder.receiveMessageNumber == 1
  {
    StartInv(Literal(0), 0, 1);
    w, es := w0, [];
    assert Reached(w0, es, w);
    hide Reached;
    es, w := NextSend(w0, es, w, Initiator);
    es, w := NextSend(w0, es, w, Initiator);
    es, w := NextTake(w0, es, w, Responder, 2);
  }

  /** The responder answers, the initiator opens the answer and sends a third. */
  lemma SecondHalf(w0: World, es0: seq<Event>, before: World) returns (es: seq<Event>, w: World)
    requires Reached(w0, es0, before) && before.names == [0, 1, 2]
    requires |before.chains| == 3 && |before.chains[1]| == 2 && before.chains[2] == []
    requires before.responder.receiveMessageNumber == 1
    ensures Reached(w0, es, w) && w.names == [0, 1, 2, 3] && w.responder.receiveMessageNumber == 1
    ensures |w.chains| == 4 && |w.chains[1]| == 2 && |w.chains[3]| == 1
  {
    hide Reached;
    es, w := es0, before;
    es, w := NextSend(w0, es, w, Responder);
    es, w := NextTake(w0, es, w, Initiator, 3);
    es, w := NextSend(w0, es, w, Initiator);
  }

  lemma LostNext(w: World) returns (e: Event)
    requires Inv(w) && ClosedExact(w) && w.names == [0, 1, 2, 3] && w.responder.receiveMessageNumber == 1
    requires |w.chains| == 4 && |w.chains[1]| == 2 && |w.chains[3]| == 1
    ensures Admissible(w, e) && Lost(Step(w, e).0, 1, 1)
  {
    hide CacheExact, ConsumedExact, Transcript, InStep, Step;
    FirstIsDue(w, Responder);
    AlteredLengthLoses(w, Responder, 0, 1, 4);
    ThirdMessageHeader(w);
    e := Deliver(Responder, Lowered(w.chains[3][0].packet, 1), 4);
  }

  lemma ThirdMessageHeader(w: World)
    requires Inv(w) && |w.chains| == 4 && |w.chains[3]| == 1
    ensures w.chains[3][0].packet.header.previousChainLength == |w.chains[1]|
  {
    assert WellFormed(w, 3, 0);
  }

  /** One lowered number, and the second message of the exchange is lost: it can
      never be opened, though no gap limit stands against it. */
  lemma AMessageIsLost(w0: World) returns (es: seq<Event>)
    requires w0 == Start(Literal(0), 0, 1)
    ensures Possible(w0, es) && Lost(StepsOf(w0, es).0, 1, 1)
  {
    var w: World, e: Event;
    es, w := FirstHalf(w0);
    es, w := SecondHalf(w0, es, w);
    hide Inv, ClosedExact, Possible, StepsOf, Step, Admissible;
    e := LostNext(w);
    w := Next(w0, es, w, e);
    es := es + [e];
  }
}
