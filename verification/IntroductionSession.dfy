/**
  From a scanned introduction to an authenticated session
  (src/identity/introduction-session.ts). Each side is the sequence of its steps
  between two awaits; a frame is the list of length-prefixed fields it unpacks to.
 */
module IntroductionSession {
  import opened Basics
  import opened Symbolic
  import opened Handshake
  import opened SessionGate

  type Frame = seq<Field>

  datatype Error =
    | NotUsable | IntroductionMismatch | HandshakeFailed | ChannelFailed | GateRefused(gate: GateError)

  datatype Local = Local(identity: nat, staticKey: nat, nonce: nat)

  function LocalIntroduction(l: Local): Introduction {
    Introduction(l.identity, Point(l.staticKey), {"ble"}, l.nonce)
  }

  /** unpackFields: the first `count` fields, or nothing when the frame is short. */
  function Unpack(frame: Frame, count: nat): Option<seq<Field>> {
    if count <= |frame| then Some(frame[..count]) else None
  }

  function IdentityFrame(introduction: Introduction, binding: Binding): Frame {
    [IntroductionText(introduction), BindingBytes(binding)]
  }

  function DecodeIdentityFrame(frame: Frame): Result<(Introduction, Field), Error> {
    match Unpack(frame, 2)
    case None => Err(HandshakeFailed)
    case Some(fields) =>
      if fields[0].IntroductionText? then Ok((fields[0].introduction, fields[1])) else Err(IntroductionMismatch)
  }

  // ----- The scanner -----

  datatype Scanner = Scanner(local: Local, scanned: Introduction, ephemeral: nat)

  /** The scanner after it sent its first message: what it keeps. */
  function ScannerHello(s: Scanner, required: string): Result<(Frame, Symmetric), Error> {
    if required !in s.scanned.capabilities then Err(NotUsable)
    else
      match InitiatorWrite1(s.local.staticKey, s.scanned.staticKey,
                            IntroductionText(LocalIntroduction(s.local)), s.ephemeral)
      case Err(_) => Err(HandshakeFailed)
      case Ok((m, state)) => Ok(([m.ephemeral, m.encryptedStatic, m.encryptedPayload], state))
  }

  function ScannerProve(s: Scanner, state: Symmetric, frame: Frame): Result<(Frame, HandshakeResult), Error> {
    match Unpack(frame, 2)
    case None => Err(ChannelFailed)
    case Some(fields) =>
      match InitiatorRead2(state, s.local.staticKey, s.ephemeral, Message2(fields[0], fields[1]))
      case Err(_) => Err(HandshakeFailed)
      case Ok(h) => Ok((IdentityFrame(LocalIntroduction(s.local), ScannerBinding(s, h)), h))
  }

  function ScannerBinding(s: Scanner, h: HandshakeResult): Binding {
    CreateBinding(s.local.identity, Point(s.local.staticKey), h.handshakeHash, Initiator)
  }

  function ScannerFinish(s: Scanner, h: HandshakeResult, frame: Frame): Result<AuthenticatedSession, Error> {
    match DecodeIdentityFrame(frame)
    case Err(e) => Err(e)
    case Ok((introduction, field)) =>
      if introduction.identity != s.scanned.identity || !field.BindingBytes? then Err(IntroductionMismatch)
      else
        match Establish(Request(s.local.identity, Point(s.local.staticKey), s.scanned.staticKey,
                                s.scanned.identity, field.binding, h, Initiator), ScannerBinding(s, h))
        case Err(e) => Err(GateRefused(e))
        case Ok(session) => Ok(session)
  }

  /** authenticateScannedPeer, given the two frames the network lets it receive. */
  function AuthenticateScannedPeer(s: Scanner, required: string, reply: Frame, proof: Frame)
    : Result<AuthenticatedSession, Error>
  {
    match ScannerHello(s, required)
    case Err(e) => Err(e)
    case Ok((_, state)) =>
      match ScannerProve(s, state, reply)
      case Err(e) => Err(e)
      case Ok((_, h)) => ScannerFinish(s, h, proof)
  }

  // ----- The displayer -----

  datatype Displayer = Displayer(local: Local, expected: Option<Introduction>, ephemeral: nat)

  /** What the displayer keeps after it answered the first message. */
  datatype Answered = Answered(peerStatic: PublicKey, handshake: HandshakeResult)

  function DisplayerReply(d: Displayer, required: string, frame: Frame): Result<(Frame, Answered), Error> {
    match Unpack(frame, 3)
    case None => Err(HandshakeFailed)
    case Some(fields) =>
      match ResponderRead1(d.local.staticKey, Message1(fields[0], fields[1], fields[2]))
      case Err(_) => Err(HandshakeFailed)
      case Ok((state, peerStatic, payload)) =>
        if !payload.IntroductionText? then Err(IntroductionMismatch)
        else if required !in payload.introduction.capabilities then Err(NotUsable)
        else if d.expected.Some? && d.expected.value.identity != payload.introduction.identity
            then Err(IntroductionMismatch)
        else
          match ResponderWrite2(state, fields[0], peerStatic, IntroductionText(LocalIntroduction(d.local)), d.ephemeral)
          case Err(_) => Err(HandshakeFailed)
          case Ok((m, h)) => Ok(([m.ephemeral, m.encryptedPayload], Answered(peerStatic.key, h)))
  }

  function DisplayerBinding(d: Displayer, h: HandshakeResult): Binding {
    CreateBinding(d.local.identity, Point(d.local.staticKey), h.handshakeHash, Responder)
  }

  function DisplayerFinish(d: Displayer, a: Answered, frame: Frame): Result<(Frame, AuthenticatedSession), Error> {
    match DecodeIdentityFrame(frame)
    case Err(e) => Err(e)
    case Ok((introduction, field)) =>
      if !field.BindingBytes? || field.binding.identity != introduction.identity
      then Err(IntroductionMismatch)
      else
        match Establish(Request(d.local.identity, Point(d.local.staticKey), a.peerStatic,
                                introduction.identity, field.binding, a.handshake, Responder),
                        DisplayerBinding(d, a.handshake))
        case Err(e) => Err(GateRefused(e))
        case Ok(session) => Ok((IdentityFrame(LocalIntroduction(d.local), DisplayerBinding(d, a.handshake)), session))
  }

  /** respondToScannedPeer, given the two frames the network lets it receive. */
  function RespondToScannedPeer(d: Displayer, required: string, hello: Frame, proof: Frame)
    : Result<AuthenticatedSession, Error>
  {
    match DisplayerReply(d, required, hello)
    case Err(e) => Err(e)
    case Ok((_, a)) =>
      match DisplayerFinish(d, a, proof)
      case Err(e) => Err(e)
      case Ok((_, session)) => Ok(session)
  }

  // ----- The two exchanges as they run over a channel -----

  /** The frames that will arrive, those sent, and how many sends will still succeed;
      receiving fails when no frame is left. */
  class Channel {
    var inbox: seq<Frame>
    var outbox: seq<Frame>
    var sends: nat

    constructor (inbox: seq<Frame>, sends: nat)
      ensures this.inbox == inbox && outbox == [] && this.sends == sends
    {
      this.inbox, outbox, this.sends := inbox, [], sends;
    }

    method Send(frame: Frame) returns (ok: bool)
      modifies this`outbox, this`sends
      ensures ok == (old(sends) > 0)
      ensures outbox == old(outbox) + if ok then [frame] else []
      ensures sends == if ok then old(sends) - 1 else 0
    {
      if sends == 0 { return false; }
      outbox := outbox + [frame];
      sends := sends - 1;
      return true;
    }

    method Receive() returns (frame: Option<Frame>)
      modifies this`inbox
      ensures old(inbox) == [] ==> frame == None && inbox == []
      ensures old(inbox) != [] ==> frame == Some(old(inbox)[0]) && inbox == old(inbox)[1..]
    {
      if inbox == [] { return None; }
      frame := Some(inbox[0]);
      inbox := inbox[1..];
    }
  }

  /** What the scanner returns and sends, given everything that arrives and how many
      sends succeed. ChannelFailed stands for the channel's own errors too. */
  function ScannerExchange(s: Scanner, required: string, inbox: seq<Frame>, sends: nat)
    : (Result<AuthenticatedSession, Error>, seq<Frame>)
  {
    match ScannerHello(s, required)
    case Err(e) => (Err(e), [])
    case Ok((hello, state)) =>
      if sends == 0 then (Err(ChannelFailed), [])
      else if |inbox| == 0 then (Err(ChannelFailed), [hello])
      else
        match ScannerProve(s, state, inbox[0])
        case Err(e) => (Err(e), [hello])
        case Ok((proof, h)) =>
          if sends == 1 then (Err(ChannelFailed), [hello])
          else if |inbox| == 1 then (Err(ChannelFailed), [hello, proof])
          else (ScannerFinish(s, h, inbox[1]), [hello, proof])
  }

  function DisplayerExchange(d: Displayer, required: string, inbox: seq<Frame>, sends: nat)
    : (Result<AuthenticatedSession, Error>, seq<Frame>)
  {
    if |inbox| == 0 then (Err(ChannelFailed), [])
    else
      match DisplayerReply(d, required, inbox[0])
      case Err(e) => (Err(e), [])
      case Ok((reply, a)) =>
        if sends == 0 then (Err(ChannelFailed), [])
        else if |inbox| == 1 then (Err(ChannelFailed), [reply])
        else
          match DisplayerFinish(d, a, inbox[1])
          case Err(e) => (Err(e), [reply])
          case Ok((proof, session)) =>
            if sends == 1 then (Err(ChannelFailed), [reply]) else (Ok(session), [reply, proof])
  }

  method RunScanner(s: Scanner, required: string, channel: Channel) returns (r: Result<AuthenticatedSession, Error>)
    modifies channel
    ensures var exchange := ScannerExchange(s, required, old(channel.inbox), old(channel.sends));
            r == exchange.0 && channel.outbox == old(channel.outbox) + exchange.1
  {
    hide InitiatorWrite1, InitiatorRead2, Establish;
    ghost var before := channel.outbox;
    assert before + [] == before;
    if required !in s.scanned.capabilities { return Err(NotUsable); }
    var introduction := LocalIntroduction(s.local);
    var message, state := InitiatorWriteMessage1(s.local.staticKey, s.scanned.staticKey,
        IntroductionText(introduction), s.ephemeral);
    if message.Err? { return Err(HandshakeFailed); }
    var ok := channel.Send([message.value.ephemeral, message.value.encryptedStatic, message.value.encryptedPayload]);
    if !ok { return Err(ChannelFailed); }
    var reply := channel.Receive();
    if reply.None? { return Err(ChannelFailed); }
    var fields := Unpack(reply.value, 2);
    if fields.None? { return Err(ChannelFailed); }
    var handshake := InitiatorReadMessage2(state, s.local.staticKey, s.ephemeral,
        Message2(fields.value[0], fields.value[1]));
    if handshake.Err? { return Err(HandshakeFailed); }
    ok := channel.Send(IdentityFrame(introduction, ScannerBinding(s, handshake.value)));
    if !ok {
      assert channel.outbox == before + [channel.outbox[|before|]];
      return Err(ChannelFailed);
    }
    assert channel.outbox == before + [channel.outbox[|before|], channel.outbox[|before| + 1]];
    var proof := channel.Receive();
    if proof.None? { return Err(ChannelFailed); }
    r := ScannerFinish(s, handshake.value, proof.value);
  }

  method RunDisplayer(d: Displayer, required: string, channel: Channel) returns (r: Result<AuthenticatedSession, Error>)
    modifies channel
    ensures var exchange := DisplayerExchange(d, required, old(channel.inbox), old(channel.sends));
            r == exchange.0 && channel.outbox == old(channel.outbox) + exchange.1
  {
    hide ResponderRead1, DisplayerFinish;
    ghost var before := channel.outbox;
    assert before + [] == before;
    var hello := channel.Receive();
    if hello.None? { return Err(ChannelFailed); }
    var fields := Unpack(hello.value, 3);
    if fields.None? { return Err(HandshakeFailed); }
    var opening, state := ResponderReadMessage1(d.local.staticKey,
        Message1(fields.value[0], fields.value[1], fields.value[2]));
    if opening.Err? { return Err(HandshakeFailed); }
    var (peerStatic, payload) := opening.value;
    if !payload.IntroductionText? { return Err(IntroductionMismatch); }
    if required !in payload.introduction.capabilities { return Err(NotUsable); }
    if d.expected.Some? && d.expected.value.identity != payload.introduction.identity {
      return Err(IntroductionMismatch);
    }
    var reply := ResponderWriteMessage2(state, fields.value[0], peerStatic,
        IntroductionText(LocalIntroduction(d.local)), d.ephemeral);
    if reply.Err? { return Err(HandshakeFailed); }
    var (message, handshake) := reply.value;
    var ok := channel.Send([message.ephemeral, message.encryptedPayload]);
    if !ok { return Err(ChannelFailed); }
    var proof := channel.Receive();
    if proof.None? { return Err(ChannelFailed); }
    var finished := DisplayerFinish(d, Answered(peerStatic.key, handshake), proof.value);
    if finished.Err? { return Err(finished.error); }
    ok := channel.Send(finished.value.0);
    if !ok {
      assert channel.outbox == before + [channel.outbox[|before|]];
      return Err(ChannelFailed);
    }
    assert channel.outbox == before + [channel.outbox[|before|], channel.outbox[|before| + 1]];
    return Ok(finished.value.1);
  }

  /** A session is returned only if two frames arrive and pass, and two are sent. */
  lemma ExchangesUseTwoFrames(s: Scanner, d: Displayer, required: string, inbox: seq<Frame>, sends: nat)
    ensures ScannerExchange(s, required, inbox, sends).0.Ok? ==>
              |inbox| >= 2 && sends >= 2 && ScannerExchange(s, required, inbox, sends).0 ==
                  AuthenticateScannedPeer(s, required, inbox[0], inbox[1])
    ensures DisplayerExchange(d, required, inbox, sends).0.Ok? ==>
              |inbox| >= 2 && sends >= 2 && DisplayerExchange(d, required, inbox, sends).0 ==
                  RespondToScannedPeer(d, required, inbox[0], inbox[1])
  {
    hide ScannerHello, ScannerProve, ScannerFinish, DisplayerReply, DisplayerFinish;
  }

  // ----- The handshake runs inside the two exchanges -----

  function ScannerRun(s: Scanner, reply: Frame): InitiatorRun
    requires |reply| >= 2
  {
    InitiatorRun(s.local.staticKey, s.scanned.staticKey, IntroductionText(LocalIntroduction(s.local)), s.ephemeral,
                 Message2(reply[0], reply[1]))
  }

  function DisplayerRun(d: Displayer, hello: Frame): ResponderRun
    requires |hello| >= 3
  {
    ResponderRun(d.local.staticKey, Message1(hello[0], hello[1], hello[2]),
                 IntroductionText(LocalIntroduction(d.local)), d.ephemeral)
  }

  /** Signatures are unforgeable: a session statement that verifies for `identity`
      in role Responder was signed in one of its own completed responder runs. */
  ghost predicate SignedByResponderRuns(identity: nat, runs: set<ResponderRun>, b: Binding) {
    forall statement: Statement :: b.signature == Signed(identity, statement) && statement.role == Responder ==>
      exists r :: r in runs && ResponderResult(r).Ok? &&
        statement == SessionBinding(Point(r.ownStatic), ResponderResult(r).value.handshakeHash, Responder)
  }

  ghost predicate SignedByInitiatorRuns(identity: nat, runs: set<InitiatorRun>, b: Binding) {
    forall statement: Statement :: b.signature == Signed(identity, statement) && statement.role == Initiator ==>
      exists i :: i in runs && InitiatorResult(i).Ok? &&
        statement == SessionBinding(Point(i.ownStatic), InitiatorResult(i).value.handshakeHash, Initiator)
  }

  // ----- When a session is returned -----

  /** The frame introduces this identity and holds its binding to this handshake. */
  predicate Proves(frame: Frame, identity: nat, key: PublicKey, h: Digest, role: Role) {
    && |frame| >= 2 && frame[0].IntroductionText? && frame[0].introduction.identity == identity
    && frame[1] == BindingBytes(CreateBinding(identity, key, h, role))
  }

  /** The scanner returns a session exactly if the scanned introduction announces the
      required capability, the handshake completes, and the last frame introduces the
      scanned identity and proves it with its binding. */
  lemma ScannerAcceptsExactly(s: Scanner, required: string, reply: Frame, proof: Frame)
    ensures AuthenticateScannedPeer(s, required, reply, proof).Ok? <==>
              && required in s.scanned.capabilities
              && |reply| >= 2 && InitiatorResult(ScannerRun(s, reply)).Ok?
              && Proves(proof, s.scanned.identity, s.scanned.staticKey,
                        InitiatorResult(ScannerRun(s, reply)).value.handshakeHash, Responder)
  {
    hide InitiatorWrite1, InitiatorRead2, Establish, CreateBinding;
    var hello := ScannerHello(s, required);
    if hello.Ok? && ScannerProve(s, hello.value.1, reply).Ok? {
      var h := ScannerProve(s, hello.value.1, reply).value.1;
      if |proof| >= 2 && proof[1].BindingBytes? {
        GateExact(Request(s.local.identity, Point(s.local.staticKey), s.scanned.staticKey, s.scanned.identity,
                          proof[1].binding, h, Initiator), ScannerBinding(s, h));
      }
    }
  }

  /** The displayer returns one exactly if the first message completes the handshake,
      introduces whom it expects with the required capability, and the second frame
      proves the identity it introduces with its binding to the static key of the
      first. */
  lemma DisplayerAcceptsExactly(d: Displayer, required: string, hello: Frame, proof: Frame)
    ensures RespondToScannedPeer(d, required, hello, proof).Ok? <==>
              && |hello| >= 3 && ResponderOutcome(DisplayerRun(d, hello)).Ok?
              && var (_, key, payload) := ResponderRead1(d.local.staticKey, DisplayerRun(d, hello).hello).value;
              && payload.IntroductionText? && required in payload.introduction.capabilities
              && (d.expected.Some? ==> payload.introduction.identity == d.expected.value.identity)
              && |proof| >= 2 && proof[0].IntroductionText? && key.KeyBytes?
              && Proves(proof, proof[0].introduction.identity, key.key,
                        ResponderOutcome(DisplayerRun(d, hello)).value.1.handshakeHash, Initiator)
  {
    hide ResponderWrite2, Establish;
    var reply := DisplayerReply(d, required, hello);
    if reply.Ok? && |proof| >= 2 && proof[0].IntroductionText? && proof[1].BindingBytes? {
      var a := reply.value.1;
      GateExact(Request(d.local.identity, Point(d.local.staticKey), a.peerStatic, proof[0].introduction.identity,
                        proof[1].binding, a.handshake, Responder), DisplayerBinding(d, a.handshake));
    }
  }

  /** A session holds the keys opposite to a handshake result. */
  predicate Matches(session: AuthenticatedSession, peer: HandshakeResult) {
    && session.handshakeHash == peer.handshakeHash
    && session.rootKey == peer.rootKey
    && session.sendKey == peer.receiveKey
    && session.receiveKey == peer.sendKey
  }

  /** If the scanner's exchange returns a session, whatever the network delivered,
      the owner of the scanned identity ran the other end of this very handshake
      with the scanned static key, and holds the matching keys. */
  lemma ScannedPeerIsAuthentic(s: Scanner, required: string, reply: Frame, proof: Frame, runs: set<ResponderRun>)
    requires AuthenticateScannedPeer(s, required, reply, proof).Ok?
    requires |proof| >= 2 && proof[1].BindingBytes?
    requires SignedByResponderRuns(s.scanned.identity, runs, proof[1].binding)
    ensures var session := AuthenticateScannedPeer(s, required, reply, proof).value;
            && session.peerIdentity == s.scanned.identity
            && |reply| >= 2
            && exists r :: r in runs
                 && ResponderResult(r).Ok? && Hello(ScannerRun(s, reply)).Ok?
                 && SameHandshake(ScannerRun(s, reply), r)
                 && SameView(ScannerRun(s, reply), r)
                 && Point(r.ownStatic) == s.scanned.staticKey
                 && Matches(session, ResponderResult(r).value)
  {
    var session := AuthenticateScannedPeer(s, required, reply, proof).value;
    var i := ScannerRun(s, reply);
    assert InitiatorResult(i).Ok? && session.handshakeHash == InitiatorResult(i).value.handshakeHash;
    var statement := SessionBinding(s.scanned.staticKey, session.handshakeHash, Responder);
    assert proof[1].binding.signature == Signed(s.scanned.identity, statement);
    var r :| r in runs && ResponderResult(r).Ok? &&
      statement == SessionBinding(Point(r.ownStatic), ResponderResult(r).value.handshakeHash, Responder);
    Agreement(i, r);
  }

  /** If the displayer's exchange returns a session, the identity it names ran the
      other end of this very handshake with the static key the session records. */
  lemma RespondingPeerIsAuthentic(d: Displayer, required: string, hello: Frame, proof: Frame, runs: set<InitiatorRun>)
    requires RespondToScannedPeer(d, required, hello, proof).Ok?
    requires |proof| >= 2 && proof[1].BindingBytes?
    requires SignedByInitiatorRuns(RespondToScannedPeer(d, required, hello, proof).value.peerIdentity, runs,
        proof[1].binding)
    ensures var session := RespondToScannedPeer(d, required, hello, proof).value;
            && |hello| >= 3
            && exists i :: i in runs
                 && InitiatorResult(i).Ok? && ResponderOutcome(DisplayerRun(d, hello)).Ok?
                 && SameHandshake(i, DisplayerRun(d, hello))
                 && SameView(i, DisplayerRun(d, hello))
                 && Point(i.ownStatic) == session.peerX25519
                 && Matches(session, InitiatorResult(i).value)
  {
    var session := RespondToScannedPeer(d, required, hello, proof).value;
    var r := DisplayerRun(d, hello);
    assert ResponderResult(r).Ok? && session.handshakeHash == ResponderResult(r).value.handshakeHash;
    var statement := SessionBinding(session.peerX25519, session.handshakeHash, Initiator);
    assert proof[1].binding.signature == Signed(session.peerIdentity, statement);
    var i :| i in runs && InitiatorResult(i).Ok? &&
      statement == SessionBinding(Point(i.ownStatic), InitiatorResult(i).value.handshakeHash, Initiator);
    Agreement(i, r);
  }

  // ----- A displayer with an expectation -----

  /** A displayer that expects somebody returns a session only if the introduction of
      the first message names the expected identity; the session itself is with the
      identity of the second frame, and with the expected one exactly when that
      frame names it too. */
  lemma ExpectationExact(d: Displayer, required: string, hello: Frame, proof: Frame)
    requires d.expected.Some? && RespondToScannedPeer(d, required, hello, proof).Ok?
    ensures |hello| >= 3 && ResponderRead1(d.local.staticKey, Message1(hello[0], hello[1], hello[2])).Ok?
    ensures ResponderRead1(d.local.staticKey, Message1(hello[0], hello[1], hello[2])).value.2.IntroductionText?
    ensures ResponderRead1(d.local.staticKey, Message1(hello[0], hello[1], hello[2])).value.2.introduction.identity
         == d.expected.value.identity
    ensures |proof| >= 2 && proof[0].IntroductionText?
    ensures RespondToScannedPeer(d, required, hello, proof).value.peerIdentity == d.expected.value.identity <==>
            proof[0].introduction.identity == d.expected.value.identity
  {
    hide ResponderRead1, ResponderWrite2;
  }

  /** The first message of a peer that introduces itself as it likes. */
  function HelloAs(introduction: Introduction, staticKey: nat, displayer: nat, ephemeral: nat): InitiatorRun {
    InitiatorRun(staticKey, Point(displayer), IntroductionText(introduction), ephemeral,
                 Message2(KeyBytes(Point(0)), KeyBytes(Point(0))))
  }

  /** The two can differ: a peer whose first message names the expected identity, and
      whose second frame names its own, gets a session under its own. */
  lemma AnotherThanExpected(d: Displayer, other: Local, ephemeral: nat) returns (hello: Frame, proof: Frame)
    requires d.expected.Some?
    ensures RespondToScannedPeer(d, "ble", hello, proof).Ok?
    ensures RespondToScannedPeer(d, "ble", hello, proof).value.peerIdentity == other.identity
  {
    var named := Introduction(d.expected.value.identity, Point(other.staticKey), {"ble"}, other.nonce);
    var run := HelloAs(named, other.staticKey, d.local.staticKey, ephemeral);
    var message := Hello(run).value;
    hello := [message.ephemeral, message.encryptedStatic, message.encryptedPayload];
    RepliesToAnyIntroduction(d, named, other.staticKey, ephemeral);
    var answered := DisplayerReply(d, "ble", hello).value.1;
    var binding := CreateBinding(other.identity, Point(other.staticKey), answered.handshake.handshakeHash, Initiator);
    proof := IdentityFrame(LocalIntroduction(other), binding);
    hide DisplayerReply;
  }

  /** A displayer replies to a first message that names whom it expects, and keeps
      the static key it came under. */
  lemma RepliesToAnyIntroduction(d: Displayer, named: Introduction, staticKey: nat, ephemeral: nat)
    requires d.expected.Some? ==> d.expected.value.identity == named.identity
    requires "ble" in named.capabilities
    ensures Hello(HelloAs(named, staticKey, d.local.staticKey, ephemeral)).Ok?
    ensures var m := Hello(HelloAs(named, staticKey, d.local.staticKey, ephemeral)).value;
            var reply := DisplayerReply(d, "ble", [m.ephemeral, m.encryptedStatic, m.encryptedPayload]);
            reply.Ok? && reply.value.1.peerStatic == Point(staticKey)
  {
    SharedSecretAgreement(ephemeral, d.local.staticKey, 0);
    SharedSecretAgreement(staticKey, d.local.staticKey, 0);
  }
}
