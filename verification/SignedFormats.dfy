/**
  The byte strings that are signed, or authenticated as associated data, across
  the protocol, and why none can be taken for another.
 */
module SignedFormats {
  import opened Basics

  /** One signed message of each kind, with its fields as bytes. */
  datatype Statement =
    | DeviceLink(device: Bytes, timestamp: int)
    | DeviceRevocation(device: Bytes, timestamp: int)
    | SessionBinding(role: Role, x25519: Bytes, handshakeHash: Bytes)
    | DeliveryAck(signerHint: Bytes, acknowledged: Bytes, signer: Bytes)
    | Broadcast(timestamp: int, content: Bytes)
    | RoutingAdvertisement(timestamp: int, destinations: seq<Bytes>)
    | DataHeader(version: int, packetType: int, messageId: Bytes, destinationHint: Bytes, timestamp: int)

  // ----- Encoding -----

  function Ascii(s: string): Bytes
    requires forall c :: c in s ==> c < 128 as char
  {
    seq(|s|, i requires 0 <= i < |s| => assert s[i] in s; s[i] as int as byte)
  }

  function Context(s: Statement): (context: string)
    ensures forall c :: c in context ==> c < 128 as char
  {
    match s
    case DeviceLink(_, _) => "ZAYCOMM_DEVICE_LINK_V1"
    case DeviceRevocation(_, _) => "ZAYCOMM_DEVICE_REVOKE_V1"
    case SessionBinding(_, _, _) => "ZAYCOMM_SESSION_BINDING_V1"
    case DeliveryAck(_, _, _) => "ZAYCOMM_DELIVERY_ACK_V1"
    case Broadcast(_, _) => "ZAYCOMM_BROADCAST_V1"
    case RoutingAdvertisement(_, _) => "ZAYCOMM_ROUTING_AD_V1"
    case DataHeader(_, _, _, _, _) => "ZAYCOMM_DATA_ENVELOPE_AAD_V1"
  }

  function RoleText(role: Role): string {
    if role == Initiator then "initiator" else "responder"
  }

  function Concat(parts: seq<Bytes>): Bytes {
    if parts == [] then [] else parts[0] + Concat(parts[1..])
  }

  function Body(s: Statement): Bytes {
    match s
    case DeviceLink(device, timestamp) => device + U64(timestamp)
    case DeviceRevocation(device, timestamp) => device + U64(timestamp)
    case SessionBinding(role, x25519, hash) => Ascii(RoleText(role)) + x25519 + hash
    case DeliveryAck(hint, acknowledged, signer) => hint + acknowledged + signer
    case Broadcast(timestamp, content) => U64(timestamp) + content
    case RoutingAdvertisement(timestamp, destinations) => U64(timestamp) + Concat(destinations)
    case DataHeader(version, packetType, id, hint, timestamp) =>
      [(version % 256) as byte, (packetType % 256) as byte] + id + hint + U64(timestamp)
  }

  function Encode(s: Statement): Bytes {
    Ascii(Context(s)) + Body(s)
  }

  /** The lengths and ranges the code enforces, or gives what it creates. */
  predicate Proper(s: Statement) {
    match s
    case DeviceLink(_, timestamp) => 0 <= timestamp < TWO_TO_THE_64
    case DeviceRevocation(_, timestamp) => 0 <= timestamp < TWO_TO_THE_64
    case SessionBinding(_, x25519, hash) => |x25519| == 32 && |hash| == 32
    case DeliveryAck(hint, _, signer) => |hint| == 8 && |signer| == 32
    case Broadcast(timestamp, _) => 0 <= timestamp < TWO_TO_THE_64
    case RoutingAdvertisement(timestamp, destinations) =>
      0 <= timestamp < TWO_TO_THE_64 && forall h :: h in destinations ==> |h| == 8
    case DataHeader(version, packetType, id, hint, timestamp) =>
      0 <= version < 256 && 0 <= packetType < 256 && |id| == 16 && |hint| == 8 && 0 <= timestamp < TWO_TO_THE_64
  }

  // ----- Injectivity -----

  function Power256(k: nat): nat {
    if k == 0 then 1 else 256 * Power256(k - 1)
  }

  lemma {:induction false} MultiplesApart(d: nat, a: int, b: int)
    requires a > b
    ensures d * a >= d * b + d
    decreases a - b
  {
    assert d * a == d * (a - 1) + d;
    if a - 1 > b { MultiplesApart(d, a - 1, b); }
  }

  lemma DivisionUnique(n: int, d: nat, q: int, r: int)
    requires d > 0 && n == d * q + r && 0 <= r < d
    ensures n % d == r
  {
    var p := n / d;
    assert n == d * p + n % d && 0 <= n % d < d;
    if p > q {
      MultiplesApart(d, p, q);
    } else if p < q {
      MultiplesApart(d, q, p);
    }
  }

  /** What is left of a number beyond its last byte. */
  lemma LowByteFirst(n: int, p: nat)
    requires p > 0
    ensures n % (256 * p) == 256 * (n / 256 % p) + n % 256
  {
    var q := n / 256;
    assert q == p * (q / p) + q % p;
    assert 256 * q == 256 * p * (q / p) + 256 * (q % p);
    DivisionUnique(n, 256 * p, q / p, 256 * (q % p) + n % 256);
  }

  lemma {:induction false} PowerPositive(k: nat)
    ensures Power256(k) > 0
  {
    if k > 0 { PowerPositive(k - 1); }
  }

  /** k bytes tell numbers apart modulo 256 to the k. */
  lemma {:induction false} LittleEndianExact(a: int, b: int, k: nat)
    ensures Power256(k) > 0
    ensures LittleEndian(a, k) == LittleEndian(b, k) <==> a % Power256(k) == b % Power256(k)
    decreases k
  {
    PowerPositive(k);
    if k > 0 {
      var p := Power256(k - 1);
      PowerPositive(k - 1);
      LittleEndianExact(a / 256, b / 256, k - 1);
      LowByteFirst(a, p);
      LowByteFirst(b, p);
      assert LittleEndian(a, k)[0] == (a % 256) as byte && LittleEndian(b, k)[0] == (b % 256) as byte;
      assert LittleEndian(a, k)[1..] == LittleEndian(a / 256, k - 1);
      assert LittleEndian(b, k)[1..] == LittleEndian(b / 256, k - 1);
    }
  }

  lemma U64Exact(a: int, b: int)
    ensures U64(a) == U64(b) <==> a % TWO_TO_THE_64 == b % TWO_TO_THE_64
  {
    assert Power256(8) == TWO_TO_THE_64;
    LittleEndianExact(a, b, 8);
  }

  /** Concatenations whose parts have equal lengths have equal parts. */
  lemma SplitAt(a: Bytes, b: Bytes, c: Bytes, d: Bytes)
    requires a + b == c + d && |a| == |c|
    ensures a == c && b == d
  {
    assert a == (a + b)[..|a|] && c == (c + d)[..|c|];
    assert b == (a + b)[|a|..] && d == (c + d)[|c|..];
  }

  lemma {:induction false} ConcatInjective(a: seq<Bytes>, b: seq<Bytes>)
    requires forall h :: h in a ==> |h| == 8
    requires forall h :: h in b ==> |h| == 8
    requires Concat(a) == Concat(b)
    ensures a == b
  {
    if a != [] && b != [] {
      SplitAt(a[0], Concat(a[1..]), b[0], Concat(b[1..]));
      ConcatInjective(a[1..], b[1..]);
      assert a == [a[0]] + a[1..] && b == [b[0]] + b[1..];
    }
  }

  lemma AsciiAt(s: string, i: nat)
    requires (forall c :: c in s ==> c < 128 as char) && i < |s|
    ensures Ascii(s)[i] as int == s[i] as int
  {
  }

  predicate SameKind(a: Statement, b: Statement) {
    && (a.DeviceLink? <==> b.DeviceLink?) && (a.DeviceRevocation? <==> b.DeviceRevocation?)
    && (a.SessionBinding? <==> b.SessionBinding?) && (a.DeliveryAck? <==> b.DeliveryAck?)
    && (a.Broadcast? <==> b.Broadcast?) && (a.RoutingAdvertisement? <==> b.RoutingAdvertisement?)
    && (a.DataHeader? <==> b.DataHeader?)
  }

  /** Four positions in which any two contexts differ. */
  function Mark(s: Statement): (char, char, char, char) {
    var c := Context(s);
    (c[8], c[9], c[10], c[15])
  }

  lemma MarkInBytes(s: Statement, i: nat)
    requires i < 16
    ensures |Encode(s)| > i && Encode(s)[i] as int == Context(s)[i] as int
  {
    hide Body;
    AsciiAt(Context(s), i);
  }

  lemma ContextsDiffer(a: Statement, b: Statement)
    requires Encode(a) == Encode(b)
    ensures SameKind(a, b)
  {
    hide Encode;
    MarkInBytes(a, 8); MarkInBytes(b, 8);
    MarkInBytes(a, 9); MarkInBytes(b, 9);
    MarkInBytes(a, 10); MarkInBytes(b, 10);
    MarkInBytes(a, 15); MarkInBytes(b, 15);
    MarksDiffer(a, b);
  }

  lemma MarksDiffer(a: Statement, b: Statement)
    requires Mark(a) == Mark(b)
    ensures SameKind(a, b)
  {
  }

  lemma SameContext(a: Statement, b: Statement)
    requires SameKind(a, b)
    ensures Context(a) == Context(b)
  {
  }

  lemma BodiesEqual(a: Statement, b: Statement)
    requires SameKind(a, b) && Encode(a) == Encode(b)
    ensures Body(a) == Body(b)
  {
    hide Context, Ascii, Body;
    SameContext(a, b);
    SplitAt(Ascii(Context(a)), Body(a), Ascii(Context(b)), Body(b));
  }

  lemma RolesDiffer(a: Role, b: Role)
    requires Ascii(RoleText(a)) == Ascii(RoleText(b))
    ensures a == b
  {
    AsciiAt(RoleText(a), 0);
    AsciiAt(RoleText(b), 0);
  }

  lemma TimestampLast(x: Bytes, s: int, y: Bytes, t: int)
    ensures x + U64(s) == y + U64(t) <==> x == y && s % TWO_TO_THE_64 == t % TWO_TO_THE_64
  {
    U64Exact(s, t);
    if x + U64(s) == y + U64(t) {
      assert |x + U64(s)| == |x| + 8 && |y + U64(t)| == |y| + 8;
      SplitAt(x, U64(s), y, U64(t));
    }
  }

  lemma TimestampFirst(s: int, x: Bytes, t: int, y: Bytes)
    requires 0 <= s < TWO_TO_THE_64 && 0 <= t < TWO_TO_THE_64 && U64(s) + x == U64(t) + y
    ensures x == y && s == t
  {
    SplitAt(U64(s), x, U64(t), y);
    U64Exact(s, t);
  }

  lemma SessionFields(a: Statement, b: Statement)
    requires a.SessionBinding? && b.SessionBinding? && Proper(a) && Proper(b) && Body(a) == Body(b)
    ensures a == b
  {
    var r, q := Ascii(RoleText(a.role)), Ascii(RoleText(b.role));
    SplitAt(r + a.x25519, a.handshakeHash, q + b.x25519, b.handshakeHash);
    SplitAt(r, a.x25519, q, b.x25519);
    RolesDiffer(a.role, b.role);
  }

  lemma AckFields(a: Statement, b: Statement)
    requires a.DeliveryAck? && b.DeliveryAck? && Proper(a) && Proper(b) && Body(a) == Body(b)
    ensures a == b
  {
    assert |Body(a)| == |a.signerHint| + |a.acknowledged| + |a.signer|;
    assert |Body(b)| == |b.signerHint| + |b.acknowledged| + |b.signer|;
    SplitAt(a.signerHint + a.acknowledged, a.signer, b.signerHint + b.acknowledged, b.signer);
    SplitAt(a.signerHint, a.acknowledged, b.signerHint, b.acknowledged);
  }

  /** What two data headers share when their associated data is equal: version and
      type modulo 256, the timestamp modulo 2^64, and the id and hint put end to end. */
  lemma HeaderShares(a: Statement, b: Statement)
    requires a.DataHeader? && b.DataHeader?
    ensures Encode(a) == Encode(b) <==>
              && a.version % 256 == b.version % 256 && a.packetType % 256 == b.packetType % 256
              && a.messageId + a.destinationHint == b.messageId + b.destinationHint
              && a.timestamp % TWO_TO_THE_64 == b.timestamp % TWO_TO_THE_64
  {
    hide U64, Ascii;
    var c := Ascii(Context(a));
    var x, y := [(a.version % 256) as byte, (a.packetType % 256) as byte],
        [(b.version % 256) as byte, (b.packetType % 256) as byte];
    var p, q := a.messageId + a.destinationHint, b.messageId + b.destinationHint;
    assert x + a.messageId + a.destinationHint == x + p && y + b.messageId + b.destinationHint == y + q;
    TimestampLast(x + p, a.timestamp, y + q, b.timestamp);
    if Encode(a) == Encode(b) {
      SplitAt(c, Body(a), c, Body(b));
      SplitAt(x, p, y, q);
      assert x[0] == y[0] && x[1] == y[1];
    }
  }

  lemma AdvertisementFields(a: Statement, b: Statement)
    requires a.RoutingAdvertisement? && b.RoutingAdvertisement? && Proper(a) && Proper(b) && Body(a) == Body(b)
    ensures a == b
  {
    hide U64;
    TimestampFirst(a.timestamp, Concat(a.destinations), b.timestamp, Concat(b.destinations));
    ConcatInjective(a.destinations, b.destinations);
  }

  lemma HeaderFields(a: Statement, b: Statement)
    requires a.DataHeader? && b.DataHeader? && Proper(a) && Proper(b) && Body(a) == Body(b)
    ensures a == b
  {
    hide U64, Ascii;
    assert Encode(a) == Encode(b);
    HeaderShares(a, b);
    SplitAt(a.messageId, a.destinationHint, b.messageId, b.destinationHint);
  }

  /** Equal signed bytes are the same kind of statement with the same fields. */
  lemma FormatsInjective(a: Statement, b: Statement)
    requires Proper(a) && Proper(b) && Encode(a) == Encode(b)
    ensures a == b
  {
    hide U64, Ascii, Encode, Context;
    ContextsDiffer(a, b);
    BodiesEqual(a, b);
    match a
    case DeviceLink(device, timestamp) => TimestampLast(device, timestamp, b.device, b.timestamp);
    case DeviceRevocation(device, timestamp) => TimestampLast(device, timestamp, b.device, b.timestamp);
    case SessionBinding(_, _, _) => SessionFields(a, b);
    case DeliveryAck(_, _, _) => AckFields(a, b);
    case Broadcast(timestamp, content) => TimestampFirst(timestamp, content, b.timestamp, b.content);
    case RoutingAdvertisement(_, _) => AdvertisementFields(a, b);
    case DataHeader(_, _, _, _, _) => HeaderFields(a, b);
  }

  /** The lengths matter: with a byte moved from the key to the hash, two session
      statements are signed as one. */
  lemma SessionNeedsLengths(x25519: Bytes, hash: Bytes, moved: byte)
    ensures var a, b := SessionBinding(Initiator, x25519 + [moved], hash),
        SessionBinding(Initiator, x25519, [moved] + hash);
            a != b && Encode(a) == Encode(b)
  {
    var r := Ascii(RoleText(Initiator));
    assert r + (x25519 + [moved]) + hash == r + x25519 + ([moved] + hash);
    assert |x25519 + [moved]| != |x25519|;
  }
}
