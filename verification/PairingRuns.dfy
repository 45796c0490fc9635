/** Honest pairings: scanner and displayer over two in-order channels. */
module PairingRuns {
  import opened Basics
  import opened Symbolic
  import opened Handshake
  import opened SessionGate
  import opened IntroductionSession

  datatype ScannerPhase =
    | Fresh
    | AwaitingReply(state: Symmetric)
    | AwaitingProof(handshake: HandshakeResult)
    | ScannerDone(session: AuthenticatedSession)
    | ScannerFailed(error: IntroductionSession.Error)

  datatype DisplayerPhase =
    | Listening
    | AwaitingScanner(answered: Answered)
    | DisplayerDone(session: AuthenticatedSession)
    | DisplayerFailed(error: IntroductionSession.Error)

  datatype Pair = Pair(scanner: Scanner, displayer: Displayer, required: string)

  datatype World = World(
    scanner: ScannerPhase, displayer: DisplayerPhase,
    toDisplayer: seq<Frame>, toScanner: seq<Frame>)

  const START := World(Fresh, Listening, [], [])

  predicate ScannerCanMove(w: World) {
    w.scanner.Fresh? || ((w.scanner.AwaitingReply? || w.scanner.AwaitingProof?) && w.toScanner != [])
  }

  predicate DisplayerCanMove(w: World) {
    (w.displayer.Listening? || w.displayer.AwaitingScanner?) && w.toDisplayer != []
  }

  function MoveScanner(p: Pair, w: World): World
    requires ScannerCanMove(w)
  {
    match w.scanner
    case Fresh =>
      (match ScannerHello(p.scanner, p.required)
       case Err(e) => w.(scanner := ScannerFailed(e))
       case Ok((frame, state)) => w.(scanner := AwaitingReply(state), toDisplayer := w.toDisplayer + [frame]))
    case AwaitingReply(state) =>
      (match ScannerProve(p.scanner, state, w.toScanner[0])
       case Err(e) => w.(scanner := ScannerFailed(e), toScanner := w.toScanner[1..])
       case Ok((frame, h)) =>
         w.(scanner := AwaitingProof(h), toScanner := w.toScanner[1..], toDisplayer := w.toDisplayer + [frame]))
    case AwaitingProof(h) =>
      (match ScannerFinish(p.scanner, h, w.toScanner[0])
       case Err(e) => w.(scanner := ScannerFailed(e), toScanner := w.toScanner[1..])
       case Ok(session) => w.(scanner := ScannerDone(session), toScanner := w.toScanner[1..]))
  }

  function MoveDisplayer(p: Pair, w: World): World
    requires DisplayerCanMove(w)
  {
    match w.displayer
    case Listening =>
      (match DisplayerReply(p.displayer, p.required, w.toDisplayer[0])
       case Err(e) => w.(displayer := DisplayerFailed(e), toDisplayer := w.toDisplayer[1..])
       case Ok((frame, a)) =>
         w.(displayer := AwaitingScanner(a), toDisplayer := w.toDisplayer[1..], toScanner := w.toScanner + [frame]))
    case AwaitingScanner(a) =>
      (match DisplayerFinish(p.displayer, a, w.toDisplayer[0])
       case Err(e) => w.(displayer := DisplayerFailed(e), toDisplayer := w.toDisplayer[1..])
       case Ok((frame, session)) =>
         w.(displayer := DisplayerDone(session), toDisplayer := w.toDisplayer[1..], toScanner := w.toScanner + [frame]))
  }

  /** The displayer's code was scanned, both run over the scanned transport, and
      an expectation the displayer holds is about this scanner. */
  predicate Honest(p: Pair) {
    && p.scanner.scanned.identity == p.displayer.local.identity
    && p.scanner.scanned.staticKey == Point(p.displayer.local.staticKey)
    && p.required == "ble" && "ble" in p.scanner.scanned.capabilities
    && (p.displayer.expected.Some? ==> p.displayer.expected.value.identity == p.scanner.local.identity)
  }

  /** A schedule says who moves next; it is a run when each mover can move. */
  datatype Mover = TheScanner | TheDisplayer

  function After(p: Pair, moves: seq<Mover>): Option<World> {
    if moves == [] then Some(START)
    else
      match After(p, moves[..|moves| - 1])
      case None => None
      case Some(w) =>
        match moves[|moves| - 1]
        case TheScanner => if ScannerCanMove(w) then Some(MoveScanner(p, w)) else None
        case TheDisplayer => if DisplayerCanMove(w) then Some(MoveDisplayer(p, w)) else None
  }

  // ----- The only way an honest pairing can go -----

  function HelloOf(p: Pair): (Frame, Symmetric)
    requires Honest(p)
  {
    ScannerHello(p.scanner, p.required).value
  }

  function ReplyOf(p: Pair): (Frame, Answered)
    requires Honest(p)
    ensures DisplayerReply(p.displayer, p.required, HelloOf(p).0) == Ok(ReplyOf(p))
  {
    DisplayerReplies(p);
    DisplayerReply(p.displayer, p.required, HelloOf(p).0).value
  }

  lemma DisplayerReplies(p: Pair)
    requires Honest(p)
    ensures ScannerHello(p.scanner, p.required) == Ok(HelloOf(p))
    ensures DisplayerReply(p.displayer, p.required, HelloOf(p).0).Ok?
  {
    var s, d := p.scanner, p.displayer;
    SharedSecretAgreement(s.ephemeral, d.local.staticKey, 0);
    SharedSecretAgreement(s.local.staticKey, d.local.staticKey, 0);
  }

  /** The scanner accepts the reply, and the two results match. */
  lemma ScannerProves(p: Pair)
    requires Honest(p)
    ensures var (hello, reply) := (HelloOf(p), ReplyOf(p));
            && ScannerProve(p.scanner, hello.1, reply.0).Ok?
            && var (frame, h) := ScannerProve(p.scanner, hello.1, reply.0).value;
            && frame == IdentityFrame(LocalIntroduction(p.scanner.local), ScannerBinding(p.scanner, h))
            && h.handshakeHash == reply.1.handshake.handshakeHash
            && CrossedKeys(h, reply.1.handshake)
            && reply.1.peerStatic == Point(p.scanner.local.staticKey)
  {
    var s, d := p.scanner, p.displayer;
    DisplayerReplies(p);
    SharedSecretAgreement(s.ephemeral, d.local.staticKey, 0);
    SharedSecretAgreement(s.local.staticKey, d.local.staticKey, 0);
    SharedSecretAgreement(s.ephemeral, d.ephemeral, 0);
    SharedSecretAgreement(s.local.staticKey, d.ephemeral, 0);
  }

  function ScannerResult(p: Pair): HandshakeResult
    requires Honest(p)
  {
    ScannerProves(p);
    ScannerProve(p.scanner, HelloOf(p).1, ReplyOf(p).0).value.1
  }

  function ScannerSession(p: Pair): AuthenticatedSession
    requires Honest(p)
  {
    var h := ScannerResult(p);
    AuthenticatedSession(h.sendKey, h.receiveKey, h.rootKey, h.handshakeHash, p.scanner.local.identity,
                         p.displayer.local.identity, Point(p.scanner.local.staticKey),
                         Point(p.displayer.local.staticKey), Initiator)
  }

  function DisplayerSession(p: Pair): AuthenticatedSession
    requires Honest(p)
  {
    var h := ReplyOf(p).1.handshake;
    AuthenticatedSession(h.sendKey, h.receiveKey, h.rootKey, h.handshakeHash, p.displayer.local.identity,
                         p.scanner.local.identity, Point(p.displayer.local.staticKey),
                         Point(p.scanner.local.staticKey), Responder)
  }

  /** The k-th state of an honest pairing. */
  function At(p: Pair, k: nat): World
    requires Honest(p) && k <= 5
  {
    var (hello, reply, h) := (HelloOf(p), ReplyOf(p), ScannerResult(p));
    var scannerProof := IdentityFrame(LocalIntroduction(p.scanner.local), ScannerBinding(p.scanner, h));
    var displayerProof := IdentityFrame(LocalIntroduction(p.displayer.local),
        DisplayerBinding(p.displayer, reply.1.handshake));
    match k
    case 0 => START
    case 1 => World(AwaitingReply(hello.1), Listening, [hello.0], [])
    case 2 => World(AwaitingReply(hello.1), AwaitingScanner(reply.1), [], [reply.0])
    case 3 => World(AwaitingProof(h), AwaitingScanner(reply.1), [scannerProof], [])
    case 4 => World(AwaitingProof(h), DisplayerDone(DisplayerSession(p)), [], [displayerProof])
    case _ => World(ScannerDone(ScannerSession(p)), DisplayerDone(DisplayerSession(p)), [], [])
  }

  /** At every point but the last exactly one side can move. */
  lemma OneCanMove(p: Pair, k: nat)
    requires Honest(p) && k <= 5
    ensures ScannerCanMove(At(p, k)) <==> k % 2 == 0 && k < 5
    ensures DisplayerCanMove(At(p, k)) <==> k % 2 == 1 && k < 5
  {
  }

  lemma ScannerAdvances(p: Pair, k: nat)
    requires Honest(p) && k < 5 && k % 2 == 0
    requires ScannerCanMove(At(p, k))
    ensures MoveScanner(p, At(p, k)) == At(p, k + 1)
  {
    DisplayerReplies(p);
    ScannerProves(p);
  }

  lemma DisplayerAdvances(p: Pair, k: nat)
    requires Honest(p) && k < 5 && k % 2 == 1
    requires DisplayerCanMove(At(p, k))
    ensures MoveDisplayer(p, At(p, k)) == At(p, k + 1)
  {
    DisplayerReplies(p);
    ScannerProves(p);
  }

  lemma {:induction false} RunsFollow(p: Pair, moves: seq<Mover>)
    requires Honest(p) && After(p, moves).Some?
    ensures |moves| <= 5 && After(p, moves) == Some(At(p, |moves|))
    decreases |moves|
  {
    if moves != [] {
      var k := |moves| - 1;
      RunsFollow(p, moves[..k]);
      OneCanMove(p, k);
      if moves[k] == TheScanner { ScannerAdvances(p, k); } else { DisplayerAdvances(p, k); }
    }
  }

  /** Every maximal honest pairing ends with both sides holding matching sessions
      for each other: none blocks and none fails. */
  lemma HonestPairingsSucceed(p: Pair, moves: seq<Mover>)
    requires Honest(p) && After(p, moves).Some?
    requires forall m :: After(p, moves + [m]).None?
    ensures var w := After(p, moves).value;
            && w.scanner.ScannerDone? && w.displayer.DisplayerDone?
            && var (a, b) := (w.scanner.session, w.displayer.session);
            && a.rootKey == b.rootKey && a.sendKey == b.receiveKey && a.receiveKey == b.sendKey
            && a.handshakeHash == b.handshakeHash
            && a.peerIdentity == b.localIdentity && b.peerIdentity == a.localIdentity
            && a.peerX25519 == b.localX25519 && b.peerX25519 == a.localX25519
  {
    RunsFollow(p, moves);
    OneCanMove(p, |moves|);
    ScannerProves(p);
    assert (moves + [TheScanner])[..|moves|] == moves && (moves + [TheDisplayer])[..|moves|] == moves;
    assert After(p, moves + [TheScanner]).None? && After(p, moves + [TheDisplayer]).None?;
  }
}
