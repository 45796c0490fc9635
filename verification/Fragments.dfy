/** Fragmentation and reassembly of src/envelope/fragment.ts. */
module Fragments {
  import opened Basics
  import opened Totals
  import FiniteSets
  import Framing

  const FRAGMENT_OVERHEAD_ESTIMATE: nat := 32
  const MAX_FRAGMENT_COUNT: nat := 4096
  const MAX_FRAGMENT_SIZE: nat := 4096
  const MAX_PENDING_SETS: nat := 128
  const MAX_PENDING_BYTES: nat := 2 * 1024 * 1024
  const MAX_AGE_MS: nat := 30 * 1000
  const MAX_PENDING_SETS_PER_PEER: nat := 16
  const MAX_PENDING_BYTES_PER_PEER: nat := 256 * 1024

  /** An authenticated peer, or the id of callers that have none. */
  datatype PeerId = Unknown | Authenticated(name: string)

  datatype Fragment = Fragment(messageId: MessageId, index: int, count: int, data: Bytes)

  /** A wire fragment: its length, and the tuple its CBOR holds if it is one. */
  datatype Wire = Wire(length: nat, tuple: Option<Fragment>)

  // ----- Fragmenting -----

  /** Length of the head of a CBOR item with argument n (section 3 of RFC 8949). */
  function CborHead(n: nat): nat {
    if n < 24 then 1 else if n < 0x100 then 2 else if n < 0x1_0000 then 3 else if n < 0x1_0000_0000 then 5 else 9
  }

  function EncodeFragment(f: Fragment): Wire
    requires f.index >= 0 && f.count >= 0
  {
    Wire(1 + CborHead(|f.messageId.bytes|) + |f.messageId.bytes| + CborHead(f.index) + CborHead(f.count) +
         CborHead(|f.data|) + |f.data|, Some(f))
  }

  function ChunkSize(mtu: int): nat {
    if mtu - FRAGMENT_OVERHEAD_ESTIMATE > 1 then mtu - FRAGMENT_OVERHEAD_ESTIMATE else 1
  }

  function PiecesOf(bytes: Bytes, mtu: int): seq<Bytes> {
    Framing.Pieces(bytes, ChunkSize(mtu), Framing.CeilDiv(|bytes|, ChunkSize(mtu)))
  }

  function FragmentAt(id: MessageId, pieces: seq<Bytes>, i: nat): Wire
    requires i < |pieces|
  {
    EncodeFragment(Fragment(id, i, |pieces|, pieces[i]))
  }

  /** The wire fragments of an encoded envelope, or nothing when there are too many. */
  function FragmentsOf(id: MessageId, bytes: Bytes, mtu: int): Option<seq<Wire>> {
    var pieces := PiecesOf(bytes, mtu);
    if |pieces| > MAX_FRAGMENT_COUNT then None
    else Some(seq(|pieces|, i requires 0 <= i < |pieces| => FragmentAt(id, pieces, i)))
  }

  method FragmentEnvelope(id: MessageId, bytes: Bytes, mtu: int) returns (r: Option<seq<Wire>>)
    ensures r == FragmentsOf(id, bytes, mtu)
  {
    var size := ChunkSize(mtu);
    var count := Framing.CeilDiv(|bytes|, size);
    if count > MAX_FRAGMENT_COUNT { return None; }
    var wire: seq<Wire> := [];
    for i := 0 to count
      invariant wire == FragmentsOf(id, bytes, mtu).value[..i]
    {
      Framing.PieceAt(bytes, size, count, i);
      var data := Framing.Slice(bytes, i * size, (i + 1) * size);
      wire := wire + [EncodeFragment(Fragment(id, i, count, data))];
    }
    assert FragmentsOf(id, bytes, mtu).value[..count] == FragmentsOf(id, bytes, mtu).value;
    return Some(wire);
  }

  /** decodeFragment, with the length check that precedes it. */
  function Decode(w: Wire): Option<Fragment> {
    if w.length > MAX_FRAGMENT_SIZE + FRAGMENT_OVERHEAD_ESTIMATE + 64 || w.tuple.None? then None
    else
      var f := w.tuple.value;
      if |f.messageId.bytes| != 16 then None
      else if f.count < 1 || f.count > MAX_FRAGMENT_COUNT then None
      else if f.index < 0 || f.index >= f.count then None
      else if |f.data| > MAX_FRAGMENT_SIZE then None
      else Some(f)
  }

  lemma DecodedInRange(w: Wire)
    ensures Decode(w).Some? ==>
              var f := Decode(w).value; 1 <= f.count <= MAX_FRAGMENT_COUNT && 0 <= f.index < f.count
  {
  }

  /** The fragments of an envelope are accepted exactly when its pieces are within
      MAX_FRAGMENT_SIZE. */
  lemma FragmentAccepted(id: MessageId, pieces: seq<Bytes>, i: nat)
    requires |id.bytes| == 16 && i < |pieces| <= MAX_FRAGMENT_COUNT
    ensures Decode(FragmentAt(id, pieces, i)) ==
            if |pieces[i]| <= MAX_FRAGMENT_SIZE then Some(Fragment(id, i, |pieces|, pieces[i])) else None
  {
  }

  // ----- The pending sets -----

  datatype Entry = Entry(fragmentCount: nat, received: map<nat, Bytes>, firstSeenAt: int, bytes: int, peerId: PeerId)

  type Pending = map<MessageId, Entry>

  ghost function Sizes(received: map<nat, Bytes>): map<nat, nat> {
    map i | i in received :: |received[i]|
  }

  ghost function ReceivedBytes(received: map<nat, Bytes>): nat {
    Total(Sizes(received))
  }

  ghost function SetSizes(pending: Pending): map<MessageId, nat> {
    map k | k in pending :: ReceivedBytes(pending[k].received)
  }

  /** The pending sets of one peer. */
  function OfPeer(pending: Pending, peer: PeerId): Pending {
    map k | k in pending && pending[k].peerId == peer :: pending[k]
  }

  ghost function BytesOfPeer(pending: Pending, peer: PeerId): nat {
    Total(SetSizes(OfPeer(pending, peer)))
  }

  /** An entry that is not complete and caches the size of what it holds. */
  ghost predicate EntryInv(e: Entry) {
    && 1 <= e.fragmentCount <= MAX_FRAGMENT_COUNT
    && (forall i :: i in e.received ==> i < e.fragmentCount)
    && |e.received| < e.fragmentCount
    && e.bytes == ReceivedBytes(e.received)
  }

  /** An authenticated peer's share is within its limits. */
  ghost predicate PeerWithin(pending: Pending, p: PeerId) {
    p != Unknown ==>
      && |OfPeer(pending, p)| <= MAX_PENDING_SETS_PER_PEER
      && BytesOfPeer(pending, p) <= MAX_PENDING_BYTES_PER_PEER
  }

  /** The global limits hold, and each authenticated peer's. */
  ghost predicate WithinLimits(pending: Pending) {
    && |pending| <= MAX_PENDING_SETS
    && Total(SetSizes(pending)) <= MAX_PENDING_BYTES
    && (forall p :: PeerWithin(pending, p))
  }

  /** All entries are sound, and the limits hold. */
  ghost predicate PendingInv(pending: Pending) {
    (forall k :: k in pending ==> EntryInv(pending[k])) && WithinLimits(pending)
  }

  // ----- What one fragment does, over the sums themselves -----

  function Unexpired(pending: Pending, now: int, maxAge: int): Pending {
    map k | k in pending && now - pending[k].firstSeenAt <= maxAge :: pending[k]
  }

  ghost predicate RoomForSet(pending: Pending, peer: PeerId, size: nat) {
    && |pending| < MAX_PENDING_SETS
    && size <= MAX_PENDING_BYTES
    && (peer != Unknown ==>
          && |OfPeer(pending, peer)| < MAX_PENDING_SETS_PER_PEER
          && BytesOfPeer(pending, peer) + size <= MAX_PENDING_BYTES_PER_PEER)
  }

  ghost predicate RoomForBytes(pending: Pending, peer: PeerId, size: nat) {
    && Total(SetSizes(pending)) + size <= MAX_PENDING_BYTES
    && (peer != Unknown ==> BytesOfPeer(pending, peer) + size <= MAX_PENDING_BYTES_PER_PEER)
  }

  /** The pending sets once the fragment's own set exists, or nothing if refused. */
  ghost function WithSet(pending: Pending, f: Fragment, peer: PeerId, now: int): Option<Pending>
    requires f.count >= 0
  {
    if f.messageId in pending then
      var e := pending[f.messageId];
      if e.fragmentCount != f.count || e.peerId != peer then None else Some(pending)
    else if !RoomForSet(pending, peer, |f.data|) then None
    else Some(pending[f.messageId := Entry(f.count, map[], now, 0, peer)])
  }

  function Gather(received: map<nat, Bytes>, n: nat): seq<Bytes>
    requires forall i: nat :: i < n ==> i in received
  {
    seq(n, i requires 0 <= i < n => received[i])
  }

  /** The fragment's set with the fragment in it, or handed out when complete. */
  ghost function Kept(open: Pending, f: Fragment, peer: PeerId): (Pending, Option<Bytes>)
    requires f.messageId in open && f.index >= 0
  {
    var e := open[f.messageId];
    if f.index in e.received || !RoomForBytes(open, peer, |f.data|) then (open, None)
    else
      var received := e.received[f.index := f.data];
      if |received| < e.fragmentCount then (open[f.messageId := Grown(e, f.index, f.data)], None)
      else if forall i: nat :: i < e.fragmentCount ==> i in received then
        (open - {f.messageId}, Some(Framing.Join(Gather(received, e.fragmentCount))))
      else (open, None)
  }

  /** The entry of a set once one more fragment is held. */
  function Grown(e: Entry, i: nat, data: Bytes): Entry {
    e.(received := e.received[i := data], bytes := e.bytes + |data|)
  }

  /** addFragment: the pending sets and the reassembled bytes it returns. */
  ghost function Add(pending: Pending, w: Wire, peer: PeerId, now: int): (Pending, Option<Bytes>)
  {
    var live := Unexpired(pending, now, MAX_AGE_MS);
    match Decode(w)
    case None => (live, None)
    case Some(f) =>
      match WithSet(live, f, peer, now)
      case None => (live, None)
      case Some(open) =>
        Kept(open, f, peer)
  }

  // ----- The accounting lemmas -----

  lemma Pigeonhole(received: map<nat, Bytes>, n: nat)
    requires forall i :: i in received ==> i < n
    requires |received| >= n
    ensures |received| == n
    ensures forall i: nat :: i < n ==> i in received
  {
    FiniteSets.BelowSize(n);
    assert received.Keys <= FiniteSets.Below(n);
    assert |received.Keys| == |received|;
    FiniteSets.SmallerSubset(received.Keys, FiniteSets.Below(n));
    FiniteSets.FullSubset(received.Keys, FiniteSets.Below(n));
  }

  lemma ReceivedGrows(received: map<nat, Bytes>, i: nat, data: Bytes)
    requires i !in received
    ensures ReceivedBytes(received[i := data]) == ReceivedBytes(received) + |data|
    ensures |received[i := data]| == |received| + 1
  {
    hide Total;
    assert Sizes(received[i := data]) == Sizes(received)[i := |data|];
    TotalSet(Sizes(received), i, |data|);
    assert received[i := data].Keys == received.Keys + {i};
  }

  /** Replacing an entry by one of the same peer changes the sums by its change. */
  lemma SetReplaced(pending: Pending, k: MessageId, e: Entry)
    requires k in pending
    ensures Total(SetSizes(pending[k := e])) ==
            Total(SetSizes(pending)) - ReceivedBytes(pending[k].received) + ReceivedBytes(e.received)
    ensures |pending[k := e]| == |pending|
  {
    hide Total;
    assert SetSizes(pending[k := e]) == SetSizes(pending)[k := ReceivedBytes(e.received)];
    TotalSet(SetSizes(pending), k, ReceivedBytes(e.received));
    assert pending[k := e].Keys == pending.Keys;
  }

  lemma SetReplacedOf(pending: Pending, k: MessageId, e: Entry, p: PeerId)
    requires k in pending && e.peerId == pending[k].peerId
    ensures BytesOfPeer(pending[k := e], p) == BytesOfPeer(pending, p) +
            (if p == e.peerId then ReceivedBytes(e.received) - ReceivedBytes(pending[k].received) else 0)
    ensures |OfPeer(pending[k := e], p)| == |OfPeer(pending, p)|
  {
    hide SetSizes, Total, ReceivedBytes;
    if p == e.peerId {
      assert OfPeer(pending[k := e], p) == OfPeer(pending, p)[k := e];
      SetReplaced(OfPeer(pending, p), k, e);
    } else {
      assert OfPeer(pending[k := e], p) == OfPeer(pending, p);
    }
  }

  lemma MapGrows<K, V>(m: map<K, V>, k: K, v: V)
    requires k !in m
    ensures |m[k := v]| == |m| + 1
  {
    assert m[k := v].Keys == m.Keys + {k};
  }

  /** A new, empty set. */
  lemma SetOpened(pending: Pending, k: MessageId, e: Entry)
    requires k !in pending && ReceivedBytes(e.received) == 0
    ensures Total(SetSizes(pending[k := e])) == Total(SetSizes(pending))
    ensures |pending[k := e]| == |pending| + 1
  {
    hide Total;
    assert SetSizes(pending[k := e]) == SetSizes(pending)[k := 0];
    TotalSet(SetSizes(pending), k, 0);
    MapGrows(pending, k, e);
  }

  lemma SetOpenedOf(pending: Pending, k: MessageId, e: Entry, p: PeerId)
    requires k !in pending && ReceivedBytes(e.received) == 0
    ensures BytesOfPeer(pending[k := e], p) == BytesOfPeer(pending, p)
    ensures |OfPeer(pending[k := e], p)| == |OfPeer(pending, p)| + (if p == e.peerId then 1 else 0)
  {
    hide SetSizes, Total, ReceivedBytes;
    if p == e.peerId {
      assert OfPeer(pending[k := e], p) == OfPeer(pending, p)[k := e];
      SetOpened(OfPeer(pending, p), k, e);
    } else {
      assert OfPeer(pending[k := e], p) == OfPeer(pending, p);
    }
  }

  lemma NothingReceived(received: map<nat, Bytes>)
    requires received == map[]
    ensures ReceivedBytes(received) == 0
  {
    assert Sizes(received) == map[];
  }

  lemma SetRemoved(pending: Pending, k: MessageId)
    requires k in pending
    ensures Total(SetSizes(pending - {k})) == Total(SetSizes(pending)) - ReceivedBytes(pending[k].received)
    ensures |pending - {k}| == |pending| - 1
  {
    hide Total;
    assert SetSizes(pending - {k}) == SetSizes(pending) - {k};
    TotalOf(SetSizes(pending), k);
    assert pending.Keys == (pending - {k}).Keys + {k};
  }

  lemma OfPeerRemoved(pending: Pending, k: MessageId, p: PeerId)
    requires k in pending
    ensures OfPeer(pending - {k}, p) ==
            if p == pending[k].peerId then OfPeer(pending, p) - {k} else OfPeer(pending, p)
  {
  }

  lemma SetRemovedOf(pending: Pending, k: MessageId, p: PeerId)
    requires k in pending
    ensures BytesOfPeer(pending - {k}, p) ==
            BytesOfPeer(pending, p) - (if p == pending[k].peerId then ReceivedBytes(pending[k].received) else 0)
    ensures |OfPeer(pending - {k}, p)| == |OfPeer(pending, p)| - (if p == pending[k].peerId then 1 else 0)
  {
    OfPeerRemoved(pending, k, p);
    if p == pending[k].peerId {
      var own := OfPeer(pending, p);
      assert k in own && own[k] == pending[k];
      hide OfPeer, SetSizes, Total, ReceivedBytes;
      SetRemoved(own, k);
    }
  }

  // ----- Every step keeps the accounting -----

  /** Dropping sets, whichever, keeps every limit. */
  lemma SubsetKeepsInv(part: Pending, pending: Pending)
    requires PendingInv(pending)
    requires forall k :: k in part ==> k in pending && part[k] == pending[k]
    ensures PendingInv(part)
  {
    hide WithinLimits, EntryInv;
    SubsetKeepsLimits(part, pending);
  }

  lemma SubsetKeepsLimits(part: Pending, pending: Pending)
    requires WithinLimits(pending)
    requires forall k :: k in part ==> k in pending && part[k] == pending[k]
    ensures WithinLimits(part)
  {
    hide Total, SetSizes, PeerWithin;
    SubsetHoldsLess(part, pending);
    FiniteSets.SmallerMap(part, pending);
    forall p ensures PeerWithin(part, p) { SubsetOfPeer(part, pending, p); }
  }

  lemma SubsetOfPeer(part: Pending, pending: Pending, p: PeerId)
    requires forall k :: k in part ==> k in pending && part[k] == pending[k]
    requires PeerWithin(pending, p)
    ensures PeerWithin(part, p)
  {
    hide Total, SetSizes;
    FiniteSets.SmallerMap(OfPeer(part, p), OfPeer(pending, p));
    SubsetHoldsLess(OfPeer(part, p), OfPeer(pending, p));
  }

  lemma SubsetHoldsLess(part: Pending, pending: Pending)
    requires forall k :: k in part ==> k in pending && part[k] == pending[k]
    ensures Total(SetSizes(part)) <= Total(SetSizes(pending))
  {
    hide Total, ReceivedBytes;
    TotalMonotone(SetSizes(part), SetSizes(pending));
  }

  lemma OpeningKeepsInv(pending: Pending, k: MessageId, e: Entry, size: nat)
    requires PendingInv(pending) && k !in pending && RoomForSet(pending, e.peerId, size)
    requires e.received == map[] && e.bytes == 0 && 1 <= e.fragmentCount <= MAX_FRAGMENT_COUNT
    ensures PendingInv(pending[k := e])
  {
    hide Total, SetSizes, BytesOfPeer, OfPeer, ReceivedBytes;
    NothingReceived(e.received);
    SetOpened(pending, k, e);
    var after := pending[k := e];
    forall p ensures PeerWithin(after, p) {
      assert PeerWithin(pending, p);
      SetOpenedOf(pending, k, e, p);
    }
  }

  lemma EntryGrows(e: Entry, i: nat, data: Bytes)
    requires EntryInv(e) && i !in e.received && i < e.fragmentCount
    ensures var g := Grown(e, i, data);
            && ReceivedBytes(g.received) == ReceivedBytes(e.received) + |data|
            && |g.received| == |e.received| + 1
            && g.bytes == ReceivedBytes(g.received)
            && (|g.received| < e.fragmentCount ==> EntryInv(g))
            && (forall j :: j in g.received ==> j < e.fragmentCount)
  {
    ReceivedGrows(e.received, i, data);
  }

  lemma EntryOf(pending: Pending, k: MessageId)
    requires PendingInv(pending) && k in pending
    ensures EntryInv(pending[k])
  {
  }

  lemma ReplacingKeepsInv(pending: Pending, k: MessageId, e: Entry)
    requires PendingInv(pending) && k in pending && EntryInv(e) && e.peerId == pending[k].peerId
    requires ReceivedBytes(e.received) >= ReceivedBytes(pending[k].received)
    requires RoomForBytes(pending, e.peerId, ReceivedBytes(e.received) - ReceivedBytes(pending[k].received))
    ensures PendingInv(pending[k := e])
  {
    hide Total, SetSizes, BytesOfPeer, OfPeer, ReceivedBytes;
    SetReplaced(pending, k, e);
    var after := pending[k := e];
    forall p ensures PeerWithin(after, p) {
      assert PeerWithin(pending, p);
      SetReplacedOf(pending, k, e, p);
    }
  }

  lemma GrowingKeepsInv(pending: Pending, k: MessageId, i: nat, data: Bytes)
    requires PendingInv(pending) && k in pending && i !in pending[k].received && i < pending[k].fragmentCount
    requires RoomForBytes(pending, pending[k].peerId, |data|)
    requires |Grown(pending[k], i, data).received| < pending[k].fragmentCount
    ensures PendingInv(pending[k := Grown(pending[k], i, data)])
  {
    hide Total, SetSizes, BytesOfPeer, OfPeer, ReceivedBytes, PeerWithin;
    EntryGrows(pending[k], i, data);
    ReplacingKeepsInv(pending, k, Grown(pending[k], i, data));
  }

  lemma WithSetKeepsInv(pending: Pending, f: Fragment, peer: PeerId, now: int)
    requires PendingInv(pending) && 1 <= f.count <= MAX_FRAGMENT_COUNT
    requires WithSet(pending, f, peer, now).Some?
    ensures var open := WithSet(pending, f, peer, now).value;
            && PendingInv(open) && f.messageId in open
            && open[f.messageId].fragmentCount == f.count && open[f.messageId].peerId == peer
  {
    hide Total, SetSizes, BytesOfPeer, OfPeer, PeerWithin;
    if f.messageId !in pending {
      OpeningKeepsInv(pending, f.messageId, Entry(f.count, map[], now, 0, peer), |f.data|);
    }
  }

  lemma KeptKeepsInv(open: Pending, f: Fragment, peer: PeerId)
    requires PendingInv(open) && f.messageId in open && 0 <= f.index < f.count
    requires open[f.messageId].fragmentCount == f.count && open[f.messageId].peerId == peer
    ensures PendingInv(Kept(open, f, peer).0)
  {
    hide Total, SetSizes, BytesOfPeer, OfPeer, PeerWithin, RoomForBytes, Framing.Join;
    var e := open[f.messageId];
    if f.index !in e.received && RoomForBytes(open, peer, |f.data|) {
      EntryGrows(e, f.index, f.data);
      if |e.received[f.index := f.data]| < e.fragmentCount {
        GrowingKeepsInv(open, f.messageId, f.index, f.data);
      } else {
        SubsetKeepsInv(open - {f.messageId}, open);
      }
    }
  }

  /** One fragment, whatever it is, keeps the accounting and every limit, and a
      complete set never stays: its missing-part exit cannot be taken. */
  lemma AddKeepsInv(pending: Pending, w: Wire, peer: PeerId, now: int)
    requires PendingInv(pending)
    ensures PendingInv(Add(pending, w, peer, now).0)
  {
    hide Total, SetSizes, BytesOfPeer, OfPeer, PeerWithin, RoomForSet, RoomForBytes, EntryInv, Kept;
    var live := Unexpired(pending, now, MAX_AGE_MS);
    SubsetKeepsInv(live, pending);
    var d := Decode(w);
    if d.Some? && WithSet(live, d.value, peer, now).Some? {
      WithSetKeepsInv(live, d.value, peer, now);
      KeptKeepsInv(WithSet(live, d.value, peer, now).value, d.value, peer);
    }
  }

  /** `after` holds so many sets and bytes more, all of this peer. */
  ghost predicate HoldsMore(pending: Pending, after: Pending, peer: PeerId, sets: nat, size: nat) {
    && |after| == |pending| + sets && Total(SetSizes(after)) == Total(SetSizes(pending)) + size
    && forall p :: MoreOf(pending, after, peer, sets, size, p)
  }

  ghost predicate MoreOf(pending: Pending, after: Pending, peer: PeerId, sets: nat, size: nat, p: PeerId) {
    && |OfPeer(after, p)| == |OfPeer(pending, p)| + (if p == peer then sets else 0)
    && BytesOfPeer(after, p) == BytesOfPeer(pending, p) + (if p == peer then size else 0)
  }

  lemma LimitsAfter(pending: Pending, after: Pending, peer: PeerId, sets: nat, size: nat)
    requires WithinLimits(pending) && HoldsMore(pending, after, peer, sets, size)
    ensures WithinLimits(after) <==>
              && |pending| + sets <= MAX_PENDING_SETS && Total(SetSizes(pending)) + size <= MAX_PENDING_BYTES
              && (peer != Unknown ==>
                    && |OfPeer(pending, peer)| + sets <= MAX_PENDING_SETS_PER_PEER
                    && BytesOfPeer(pending, peer) + size <= MAX_PENDING_BYTES_PER_PEER)
  {
    hide Total, SetSizes, BytesOfPeer, OfPeer;
    assert MoreOf(pending, after, peer, sets, size, peer);
    assert WithinLimits(after) ==> PeerWithin(after, peer);
    forall p | p != peer ensures PeerWithin(after, p) {
      assert PeerWithin(pending, p) && MoreOf(pending, after, peer, sets, size, p);
    }
  }

  /** A fragment whose set is pending is refused for want of room exactly when keeping
      it would break a limit. */
  lemma RoomForOneMore(pending: Pending, k: MessageId, i: nat, data: Bytes)
    requires PendingInv(pending) && k in pending && i !in pending[k].received && i < pending[k].fragmentCount
    ensures RoomForBytes(pending, pending[k].peerId, |data|) <==>
            WithinLimits(pending[k := Grown(pending[k], i, data)])
  {
    hide Total, SetSizes, BytesOfPeer, OfPeer, ReceivedBytes, PeerWithin;
    var e := pending[k];
    OneMoreHeld(pending, k, i, data);
    LimitsAfter(pending, pending[k := Grown(e, i, data)], e.peerId, 0, |data|);
    HoldsWithin(pending, e.peerId);
  }

  lemma HoldsWithin(pending: Pending, p: PeerId)
    requires WithinLimits(pending)
    ensures |pending| <= MAX_PENDING_SETS && (p != Unknown ==> |OfPeer(pending, p)| <= MAX_PENDING_SETS_PER_PEER)
  {
    hide Total, SetSizes, BytesOfPeer, OfPeer;
    assert PeerWithin(pending, p);
  }

  lemma OneMoreHeld(pending: Pending, k: MessageId, i: nat, data: Bytes)
    requires k in pending && i !in pending[k].received
    ensures HoldsMore(pending, pending[k := Grown(pending[k], i, data)], pending[k].peerId, 0, |data|)
  {
    var e := pending[k];
    var grown := Grown(e, i, data);
    hide Total, SetSizes, BytesOfPeer, OfPeer;
    ReceivedGrows(e.received, i, data);
    hide ReceivedBytes;
    SetReplaced(pending, k, grown);
    var after := pending[k := grown];
    forall p ensures MoreOf(pending, after, e.peerId, 0, |data|, p) { SetReplacedOf(pending, k, grown, p); }
  }

  /** And so is the first fragment of a set. */
  lemma RoomForFirst(pending: Pending, k: MessageId, count: nat, i: nat, data: Bytes, peer: PeerId, now: int)
    requires PendingInv(pending) && k !in pending && i < count <= MAX_FRAGMENT_COUNT
    ensures RoomForSet(pending, peer, |data|) && RoomForBytes(pending, peer, |data|) <==>
            WithinLimits(pending[k := Grown(Entry(count, map[], now, 0, peer), i, data)])
  {
    var empty := Entry(count, map[], now, 0, peer);
    hide Total, SetSizes, BytesOfPeer, OfPeer, ReceivedBytes, EntryInv, PeerWithin;
    FirstHeld(pending, k, empty, i, data);
    LimitsAfter(pending, pending[k := Grown(empty, i, data)], peer, 1, |data|);
  }

  lemma FirstHeld(pending: Pending, k: MessageId, empty: Entry, i: nat, data: Bytes)
    requires k !in pending && empty.received == map[] && i < empty.fragmentCount
    ensures HoldsMore(pending, pending[k := Grown(empty, i, data)], empty.peerId, 1, |data|)
  {
    hide Total, SetSizes, BytesOfPeer, OfPeer;
    NothingReceived(empty.received);
    ReceivedGrows(empty.received, i, data);
    hide ReceivedBytes;
    var open, grown := pending[k := empty], Grown(empty, i, data);
    SetOpened(pending, k, empty);
    SetReplaced(open, k, grown);
    assert open[k := grown] == pending[k := grown];
    var after := pending[k := grown];
    forall p ensures MoreOf(pending, after, empty.peerId, 1, |data|, p) {
      SetOpenedOf(pending, k, empty, p);
      SetReplacedOf(open, k, grown, p);
    }
  }

  // ----- The reassembler, with the counters it keeps instead of summing -----

  function Get(m: map<PeerId, int>, p: PeerId): int {
    if p in m then m[p] else 0
  }

  ghost predicate CountedAt(pending: Pending, peerSets: map<PeerId, int>, peerBytes: map<PeerId, int>, p: PeerId) {
    p != Unknown ==>
      && Get(peerSets, p) == |OfPeer(pending, p)|
      && Get(peerBytes, p) == BytesOfPeer(pending, p)
  }

  /** The five counters equal the sums they stand for. */
  ghost predicate Counted(pending: Pending, pendingBytes: int, peerSets: map<PeerId, int>,
          peerBytes: map<PeerId, int>) {
    && pendingBytes == Total(SetSizes(pending))
    && (forall p :: CountedAt(pending, peerSets, peerBytes, p))
  }

  /** Counters are kept for authenticated peers only. */
  function Raised(m: map<PeerId, int>, p: PeerId, n: int): map<PeerId, int> {
    if p == Unknown then m else m[p := Get(m, p) + n]
  }

  /** A counter lowered by n, its key dropped when nothing is left. */
  function Lowered(m: map<PeerId, int>, p: PeerId, n: int): map<PeerId, int> {
    if p == Unknown then m else if Get(m, p) <= n then m - {p} else m[p := Get(m, p) - n]
  }

  lemma RemovalCountedAt(pending: Pending, key: MessageId, peerSets: map<PeerId, int>, peerBytes: map<PeerId, int>,
          p: PeerId)
    requires CountedAt(pending, peerSets, peerBytes, p)
    requires key in pending && pending[key].bytes == ReceivedBytes(pending[key].received)
    ensures var e := pending[key];
            CountedAt(pending - {key}, Lowered(peerSets, e.peerId, 1), Lowered(peerBytes, e.peerId, e.bytes), p)
  {
    hide Total, SetSizes, BytesOfPeer, OfPeer, ReceivedBytes;
    SetRemovedOf(pending, key, p);
  }

  lemma RemovalCounted(pending: Pending, key: MessageId, pendingBytes: int, peerSets: map<PeerId, int>,
          peerBytes: map<PeerId, int>)
    requires Counted(pending, pendingBytes, peerSets, peerBytes)
    requires key in pending && pending[key].bytes == ReceivedBytes(pending[key].received)
    ensures var e := pending[key];
            Counted(pending - {key}, pendingBytes - e.bytes,
                    Lowered(peerSets, e.peerId, 1), Lowered(peerBytes, e.peerId, e.bytes))
  {
    hide Total, SetSizes, CountedAt, ReceivedBytes, Lowered;
    SetRemoved(pending, key);
    forall p | CountedAt(pending, peerSets, peerBytes, p) {
      RemovalCountedAt(pending, key, peerSets, peerBytes, p);
    }
  }

  lemma OpeningCounted(pending: Pending, key: MessageId, e: Entry,
                       pendingBytes: int, peerSets: map<PeerId, int>, peerBytes: map<PeerId, int>)
    requires Counted(pending, pendingBytes, peerSets, peerBytes)
    requires key !in pending && e.received == map[]
    ensures Counted(pending[key := e], pendingBytes, Raised(peerSets, e.peerId, 1), peerBytes)
  {
    hide Total, SetSizes, BytesOfPeer, OfPeer, ReceivedBytes;
    NothingReceived(e.received);
    SetOpened(pending, key, e);
    var sets := Raised(peerSets, e.peerId, 1);
    var after := pending[key := e];
    forall p ensures CountedAt(after, sets, peerBytes, p) {
      assert CountedAt(pending, peerSets, peerBytes, p);
      SetOpenedOf(pending, key, e, p);
    }
  }

  lemma GrowingCounted(pending: Pending, key: MessageId, i: nat, data: Bytes,
                       pendingBytes: int, peerSets: map<PeerId, int>, peerBytes: map<PeerId, int>)
    requires Counted(pending, pendingBytes, peerSets, peerBytes)
    requires key in pending && i !in pending[key].received
    ensures var e := Grown(pending[key], i, data);
            Counted(pending[key := e], pendingBytes + |data|, peerSets, Raised(peerBytes, e.peerId, |data|))
  {
    hide Total, SetSizes, BytesOfPeer, OfPeer, ReceivedBytes;
    var e := Grown(pending[key], i, data);
    ReceivedGrows(pending[key].received, i, data);
    SetReplaced(pending, key, e);
    var bytes := Raised(peerBytes, e.peerId, |data|);
    var after := pending[key := e];
    forall p ensures CountedAt(after, peerSets, bytes, p) {
      assert CountedAt(pending, peerSets, peerBytes, p);
      SetReplacedOf(pending, key, e, p);
    }
  }

  /** With counters in place of sums, the room for a set and for bytes is read off. */
  lemma RoomByCounters(pending: Pending, peer: PeerId, size: nat,
                       pendingBytes: int, peerSets: map<PeerId, int>, peerBytes: map<PeerId, int>)
    requires Counted(pending, pendingBytes, peerSets, peerBytes)
    ensures RoomForSet(pending, peer, size) <==>
            && |pending| < MAX_PENDING_SETS && size <= MAX_PENDING_BYTES
            && (peer != Unknown ==>
                  && Get(peerSets, peer) < MAX_PENDING_SETS_PER_PEER
                  && Get(peerBytes, peer) + size <= MAX_PENDING_BYTES_PER_PEER)
    ensures RoomForBytes(pending, peer, size) <==>
            && pendingBytes + size <= MAX_PENDING_BYTES
            && (peer != Unknown ==> Get(peerBytes, peer) + size <= MAX_PENDING_BYTES_PER_PEER)
  {
    hide Total, SetSizes, BytesOfPeer, OfPeer, ReceivedBytes;
    assert CountedAt(pending, peerSets, peerBytes, peer);
  }

  /** What Kept does in each of its cases. */
  lemma KeptCases(open: Pending, f: Fragment, peer: PeerId)
    requires f.messageId in open && f.index >= 0
    ensures var e := open[f.messageId];
            var g := Grown(e, f.index, f.data);
            && (f.index in e.received || !RoomForBytes(open, peer, |f.data|) ==> Kept(open, f, peer) == (open, None))
            && (f.index !in e.received && RoomForBytes(open, peer, |f.data|) ==>
                  && (|g.received| < e.fragmentCount ==> Kept(open, f, peer) == (open[f.messageId := g], None))
                  && (|g.received| >= e.fragmentCount && (forall i: nat :: i < e.fragmentCount ==> i in g.received) ==>
                        Kept(open, f, peer) == (open - {f.messageId},
                            Some(Framing.Join(Gather(g.received, e.fragmentCount))))))
  {
    hide RoomForBytes, Framing.Join;
  }

  class FragmentReassembler {
    var pending: Pending
    var pendingBytes: int
    var peerPendingSets: map<PeerId, int>
    var peerPendingBytes: map<PeerId, int>

    ghost predicate Valid()
      reads this
    {
      PendingInv(pending) && AreCounted()
    }

    ghost predicate AreCounted()
      reads this
    {
      Counted(pending, pendingBytes, peerPendingSets, peerPendingBytes)
    }

    constructor ()
      ensures Valid() && pending == map[]
    {
      pending, pendingBytes, peerPendingSets, peerPendingBytes := map[], 0, map[], map[];
      EmptyCounted();
    }

    method RemoveEntry(key: MessageId)
      requires AreCounted()
      requires key in pending && pending[key].bytes == ReceivedBytes(pending[key].received)
      modifies this
      ensures AreCounted() && pending == old(pending) - {key}
    {
      var entry := pending[key];
      RemovalCounted(pending, key, pendingBytes, peerPendingSets, peerPendingBytes);
      pending := pending - {key};
      pendingBytes := pendingBytes - entry.bytes;
      peerPendingSets := Lowered(peerPendingSets, entry.peerId, 1);
      peerPendingBytes := Lowered(peerPendingBytes, entry.peerId, entry.bytes);
    }

    method PurgeStale(now: int, maxAge: int) returns (purged: nat)
      requires Valid()
      modifies this
      ensures Valid() && pending == Unexpired(old(pending), now, maxAge)
      ensures purged == |old(pending)| - |pending|
    {
      purged := 0;
      var keys := pending.Keys;
      while keys != {}
        invariant Valid() && keys <= pending.Keys <= old(pending).Keys
        invariant forall k :: k in pending ==> pending[k] == old(pending)[k]
        invariant forall k :: k in pending && k !in keys ==> now - pending[k].firstSeenAt <= maxAge
        invariant forall k :: k in old(pending) && k !in pending ==> now - old(pending)[k].firstSeenAt > maxAge
        invariant purged == |old(pending)| - |pending|
        decreases |keys|
      {
        hide Total, SetSizes, BytesOfPeer, OfPeer, Counted, PeerWithin, ReceivedBytes;
        var key :| key in keys;
        keys := keys - {key};
        if now - pending[key].firstSeenAt > maxAge {
          SetRemoved(pending, key);
          SubsetKeepsInv(pending - {key}, pending);
          RemoveEntry(key);
          purged := purged + 1;
        }
      }
      assert pending == Unexpired(old(pending), now, maxAge);
    }

    /** `decode` is decodeEnvelope, with nothing where it throws. */
    method AddFragment<E>(w: Wire, peer: PeerId, now: int, decode: Bytes -> Option<E>) returns (r: Option<E>)
      requires Valid()
      modifies this
      ensures Valid()
      ensures var (next, joined) := Add(old(pending), w, peer, now);
              pending == next && r == if joined.Some? then decode(joined.value) else None
    {
      DecodedInRange(w);
      hide Decode, Kept, Total, SetSizes, BytesOfPeer, OfPeer, Counted, PendingInv, ReceivedBytes, RoomForSet,
          Unexpired;
      var purged := PurgeStale(now, MAX_AGE_MS);
      var decoded := Decode(w);
      if decoded.None? { return None; }
      var f := decoded.value;
      var hasSet := OpenSet(f, peer, now);
      if !hasSet { return None; }
      var joined := Keep(f, peer);
      return if joined.Some? then decode(joined.value) else None;
    }

    /** Finds or opens the fragment's set; false when the fragment is refused. */
    method OpenSet(f: Fragment, peer: PeerId, now: int) returns (ok: bool)
      requires Valid() && 1 <= f.count <= MAX_FRAGMENT_COUNT
      modifies this
      ensures Valid()
      ensures ok == WithSet(old(pending), f, peer, now).Some?
      ensures pending == if ok then WithSet(old(pending), f, peer, now).value else old(pending)
    {
      hide Total, SetSizes, BytesOfPeer, OfPeer, Counted, RoomForSet, PendingInv, ReceivedBytes;
      var key := f.messageId;
      if key in pending {
        return pending[key].fragmentCount == f.count && pending[key].peerId == peer;
      }
      RoomByCounters(pending, peer, |f.data|, pendingBytes, peerPendingSets, peerPendingBytes);
      var peerSets, peerBytes := Get(peerPendingSets, peer), Get(peerPendingBytes, peer);
      if |pending| >= MAX_PENDING_SETS { return false; }
      if peer != Unknown && peerSets >= MAX_PENDING_SETS_PER_PEER { return false; }
      if |f.data| > MAX_PENDING_BYTES { return false; }
      if peer != Unknown && peerBytes + |f.data| > MAX_PENDING_BYTES_PER_PEER { return false; }
      var entry := Entry(f.count, map[], now, 0, peer);
      OpeningKeepsInv(pending, key, entry, |f.data|);
      OpeningCounted(pending, key, entry, pendingBytes, peerPendingSets, peerPendingBytes);
      pending := pending[key := entry];
      peerPendingSets := Raised(peerPendingSets, peer, 1);
      return true;
    }

    /** Stores the fragment in its set and hands out the set when it is complete. */
    method Keep(f: Fragment, peer: PeerId) returns (r: Option<Bytes>)
      requires Valid() && f.messageId in pending && 0 <= f.index < f.count
      requires pending[f.messageId].fragmentCount == f.count && pending[f.messageId].peerId == peer
      modifies this
      ensures Valid()
      ensures (pending, r) == Kept(old(pending), f, peer)
    {
      hide Total, SetSizes, BytesOfPeer, OfPeer, Counted, RoomForSet, RoomForBytes, PeerWithin, Framing.Join, Kept;
      hide PendingInv;
      EntryOf(pending, f.messageId);
      KeptCases(pending, f, peer);
      KeptKeepsInv(pending, f, peer);
      RoomByCounters(pending, peer, |f.data|, pendingBytes, peerPendingSets, peerPendingBytes);
      var key := f.messageId;
      var entry := pending[key];
      if f.index in entry.received { return None; }
      var peerBytes := Get(peerPendingBytes, peer);
      if pendingBytes + |f.data| > MAX_PENDING_BYTES { return None; }
      if peer != Unknown && peerBytes + |f.data| > MAX_PENDING_BYTES_PER_PEER { return None; }
      EntryGrows(entry, f.index, f.data);
      Store(f, peer);
      if |pending[key].received| < pending[key].fragmentCount { return None; }
      Pigeonhole(pending[key].received, pending[key].fragmentCount);
      ghost var full := pending;
      var message := HandOut(key);
      assert full - {key} == old(pending) - {key};
      return Some(message);
    }

    /** Puts a fragment in its set and counts its bytes. */
    method Store(f: Fragment, peer: PeerId)
      requires AreCounted() && f.messageId in pending && pending[f.messageId].peerId == peer
      requires f.index >= 0 && f.index !in pending[f.messageId].received
      modifies this
      ensures AreCounted()
      ensures pending == old(pending)[f.messageId := Grown(old(pending)[f.messageId], f.index, f.data)]
    {
      hide Counted;
      GrowingCounted(pending, f.messageId, f.index, f.data, pendingBytes, peerPendingSets, peerPendingBytes);
      pending := pending[f.messageId := Grown(pending[f.messageId], f.index, f.data)];
      pendingBytes := pendingBytes + |f.data|;
      peerPendingBytes := Raised(peerPendingBytes, peer, |f.data|);
    }

    /** Removes a full set and returns its parts in order; none is missing. */
    method HandOut(key: MessageId) returns (message: Bytes)
      requires AreCounted()
      requires key in pending && pending[key].bytes == ReceivedBytes(pending[key].received)
      requires forall i: nat :: i < pending[key].fragmentCount ==> i in pending[key].received
      modifies this
      ensures AreCounted() && pending == old(pending) - {key}
      ensures message == Framing.Join(Gather(old(pending)[key].received, old(pending)[key].fragmentCount))
    {
      hide Total, SetSizes, BytesOfPeer, OfPeer, Counted, ReceivedBytes, Framing.Join;
      var parts := TakeParts(pending[key]);
      RemoveEntry(key);
      message := Framing.JoinParts(parts);
    }

    /** Collects the parts of a full set; none is missing. */
    method TakeParts(entry: Entry) returns (parts: seq<Bytes>)
      requires forall i: nat :: i < entry.fragmentCount ==> i in entry.received
      ensures parts == Gather(entry.received, entry.fragmentCount)
    {
      parts := [];
      for i := 0 to entry.fragmentCount
        invariant parts == Gather(entry.received, entry.fragmentCount)[..i]
      {
        parts := parts + [entry.received[i]];
      }
    }
  }

  lemma EmptyCounted()
    ensures PendingInv(map[]) && Counted(map[], 0, map[], map[])
  {
    assert SetSizes(map[]) == map[];
    forall p ensures PeerWithin(map[], p) && CountedAt(map[], map[], map[], p) {
      assert OfPeer(map[], p) == map[];
    }
  }
}
