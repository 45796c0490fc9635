/** chunkFrame and FrameChannel of mobile/src/frameChannel.ts. */
module Framing {
  import opened Basics
  import opened FieldPacking
  import FiniteSets

  const HEADER_LENGTH: nat := 4
  const MAX_CHUNKS: nat := 256

  datatype Error = EmptyFrame | TooManyChunks

  function ChunkSize(mtu: int): nat {
    if mtu - HEADER_LENGTH > 1 then mtu - HEADER_LENGTH else 1
  }

  function Min(a: nat, b: nat): nat { if a <= b then a else b }

  function CeilDiv(n: nat, d: nat): nat
    requires d > 0
  {
    (n + d - 1) / d
  }

  /** slice(): bounds past the end are clamped. */
  function Slice(b: Bytes, from: nat, to: nat): Bytes {
    if Min(from, |b|) <= Min(to, |b|) then b[Min(from, |b|)..Min(to, |b|)] else []
  }

  /** The first n pieces of a frame cut every `size` bytes. */
  function Pieces(frame: Bytes, size: nat, n: nat): (pieces: seq<Bytes>)
    ensures |pieces| == n
  {
    if n == 0 then [] else Pieces(frame, size, n - 1) + [Slice(frame, (n - 1) * size, n * size)]
  }

  /** A piece behind its index and the number of pieces. */
  function Label(piece: Bytes, index: nat, count: nat): Bytes {
    U16(index) + U16(count) + piece
  }

  function Labelled(pieces: seq<Bytes>): seq<Bytes> {
    seq(|pieces|, i requires 0 <= i < |pieces| => Label(pieces[i], i, |pieces|))
  }

  function PiecesOf(frame: Bytes, mtu: int): seq<Bytes> {
    Pieces(frame, ChunkSize(mtu), CeilDiv(|frame|, ChunkSize(mtu)))
  }

  function Chunks(frame: Bytes, mtu: int): Result<seq<Bytes>, Error> {
    if frame == [] then Err(EmptyFrame)
    else if |PiecesOf(frame, mtu)| > MAX_CHUNKS then Err(TooManyChunks)
    else Ok(Labelled(PiecesOf(frame, mtu)))
  }

  lemma {:induction false} PieceAt(frame: Bytes, size: nat, n: nat, i: nat)
    requires i < n
    ensures Pieces(frame, size, n)[i] == Slice(frame, i * size, (i + 1) * size)
    decreases n
  {
    if i < n - 1 { PieceAt(frame, size, n - 1, i); }
  }

  method ChunkFrame(frame: Bytes, mtu: int) returns (r: Result<seq<Bytes>, Error>)
    ensures r == Chunks(frame, mtu)
  {
    if |frame| == 0 { return Err(EmptyFrame); }
    var size := ChunkSize(mtu);
    var count := CeilDiv(|frame|, size);
    if count > MAX_CHUNKS { return Err(TooManyChunks); }
    var chunks: seq<Bytes> := [];
    for index := 0 to count
      invariant chunks == Labelled(PiecesOf(frame, mtu))[..index]
    {
      PieceAt(frame, size, count, index);
      chunks := chunks + [Label(Slice(frame, index * size, (index + 1) * size), index, count)];
    }
    assert Labelled(PiecesOf(frame, mtu))[..count] == Labelled(PiecesOf(frame, mtu));
    return Ok(chunks);
  }

  /** For an MTU of at least 5 every chunk fits it. */
  lemma ChunksFit(frame: Bytes, mtu: int, i: nat)
    requires mtu >= 5 && Chunks(frame, mtu).Ok? && i < |Chunks(frame, mtu).value|
    ensures |Chunks(frame, mtu).value[i]| <= mtu
  {
    var size := ChunkSize(mtu);
    PieceAt(frame, size, CeilDiv(|frame|, size), i);
    assert (i + 1) * size == i * size + size;
  }

  function Join(parts: seq<Bytes>): Bytes {
    if parts == [] then [] else Join(parts[..|parts| - 1]) + parts[|parts| - 1]
  }

  /** The first n pieces join to the first n * size bytes. */
  lemma {:induction false} PiecesJoin(frame: Bytes, size: nat, n: nat)
    requires size > 0
    ensures Join(Pieces(frame, size, n)) == frame[..Min(n * size, |frame|)]
    decreases n
  {
    if n > 0 {
      PiecesJoin(frame, size, n - 1);
      var last := Slice(frame, (n - 1) * size, n * size);
      assert Pieces(frame, size, n)[..n - 1] == Pieces(frame, size, n - 1);
      assert n * size == (n - 1) * size + size;
      assert frame[..Min(n * size, |frame|)] == frame[..Min((n - 1) * size, |frame|)] + last;
    }
  }

  lemma CeilDivCovers(n: nat, d: nat)
    requires d > 0
    ensures CeilDiv(n, d) * d >= n
    ensures n > 0 ==> CeilDiv(n, d) > 0
  {
    var q := (n + d - 1) / d;
    assert (n + d - 1) == q * d + (n + d - 1) % d;
  }

  /** The pieces put back together are the frame. */
  lemma PiecesAreTheFrame(frame: Bytes, mtu: int)
    ensures Join(PiecesOf(frame, mtu)) == frame
    ensures frame != [] ==> PiecesOf(frame, mtu) != []
  {
    var size := ChunkSize(mtu);
    PiecesJoin(frame, size, CeilDiv(|frame|, size));
    CeilDivCovers(|frame|, size);
    assert frame[..|frame|] == frame;
  }

  // ----- Reassembly, as functions on values -----

  datatype Partial = Partial(count: nat, parts: seq<Option<Bytes>>)

  function Blank(count: nat): Partial {
    Partial(count, seq(count, _ => None))
  }

  function Values(parts: seq<Option<Bytes>>): seq<Bytes>
    requires None !in parts
  {
    seq(|parts|, i requires 0 <= i < |parts| => assert parts[i] in parts; parts[i].value)
  }

  function IndexOf(chunk: Bytes): nat
    requires |chunk| >= HEADER_LENGTH
  {
    ReadU16(chunk)
  }

  function CountOf(chunk: Bytes): nat
    requires |chunk| >= HEADER_LENGTH
  {
    ReadU16(chunk[2..])
  }

  predicate WellFormedChunk(chunk: Bytes) {
    && |chunk| >= HEADER_LENGTH
    && 0 < CountOf(chunk) <= MAX_CHUNKS
    && IndexOf(chunk) < CountOf(chunk)
  }

  /** The entry a chunk goes into: a partial frame of another count is dropped. */
  function EntryFor(p: Option<Partial>, count: nat): Partial {
    if p.None? || p.value.count != count || |p.value.parts| != count then Blank(count) else p.value
  }

  /** What one chunk does to a peer's partial frame, and the frame it completes. */
  function Feed1(p: Option<Partial>, chunk: Bytes): (Option<Partial>, Option<Bytes>) {
    if !WellFormedChunk(chunk) then (p, None)
    else
      var entry := EntryFor(p, CountOf(chunk));
      var parts := entry.parts[IndexOf(chunk) := Some(chunk[HEADER_LENGTH..])];
      if None in parts then (Some(entry.(parts := parts)), None) else (None, Some(Join(Values(parts))))
  }

  function Feed(p: Option<Partial>, chunks: seq<Bytes>): (Option<Partial>, seq<Bytes>) {
    if chunks == [] then (p, [])
    else
      var (q, out) := Feed(p, chunks[..|chunks| - 1]);
      var (r, m) := Feed1(q, chunks[|chunks| - 1]);
      (r, if m.Some? then out + [m.value] else out)
  }

  /** Indices of one frame's chunks in arrival order: possibly repeated, and
      complete exactly with the last one. */
  predicate CompletesAtEnd(order: seq<nat>, count: nat) {
    && order != []
    && (forall k :: 0 <= k < |order| ==> order[k] < count)
    && (forall i: nat :: i < count ==> i in order)
    && order[|order| - 1] !in order[..|order| - 1]
  }

  function Arrivals(chunks: seq<Bytes>, order: seq<nat>): seq<Bytes>
    requires forall k :: 0 <= k < |order| ==> order[k] < |chunks|
  {
    seq(|order|, k requires 0 <= k < |order| => chunks[order[k]])
  }

  lemma LabelReads(piece: Bytes, index: nat, count: nat)
    requires index < count <= MAX_CHUNKS
    ensures var c := Label(piece, index, count);
            WellFormedChunk(c) && IndexOf(c) == index && CountOf(c) == count && c[HEADER_LENGTH..] == piece
  {
    var c := Label(piece, index, count);
    U16Wraps(index);
    U16Wraps(count);
    assert c[0] == U16(index)[0] && c[1] == U16(index)[1];
    assert c[2..][0] == U16(count)[0] && c[2..][1] == U16(count)[1];
    assert c[HEADER_LENGTH..] == piece;
  }

  /** The parts held after the pieces of `order` arrived. */
  function PartsAfter(pieces: seq<Bytes>, order: seq<nat>): seq<Option<Bytes>> {
    seq(|pieces|, i requires 0 <= i < |pieces| => if i in order then Some(pieces[i]) else None)
  }

  lemma PartArrives(pieces: seq<Bytes>, before: seq<nat>, i: nat)
    requires i < |pieces|
    ensures PartsAfter(pieces, before)[i := Some(pieces[i])] == PartsAfter(pieces, before + [i])
  {
  }

  /** One more labelled piece, when `before` left some pieces missing. */
  lemma FeedNext(pieces: seq<Bytes>, before: seq<nat>, i: nat)
    requires i < |pieces| <= MAX_CHUNKS
    ensures var p := if before == [] then None else Some(Partial(|pieces|, PartsAfter(pieces, before)));
            var parts := PartsAfter(pieces, before + [i]);
            Feed1(p, Label(pieces[i], i, |pieces|)) ==
            if None in parts then (Some(Partial(|pieces|, parts)), None) else (None, Some(Join(Values(parts))))
  {
    LabelReads(pieces[i], i, |pieces|);
    PartArrives(pieces, before, i);
    assert PartsAfter(pieces, []) == Blank(|pieces|).parts;
  }

  /** Until the last missing piece arrives nothing comes out. */
  lemma {:induction false} FeedPartial(pieces: seq<Bytes>, order: seq<nat>, missing: nat)
    requires |pieces| <= MAX_CHUNKS
    requires forall k :: 0 <= k < |order| ==> order[k] < |pieces|
    requires missing < |pieces| && missing !in order
    ensures Feed(None, Arrivals(Labelled(pieces), order)) ==
            (if order == [] then None else Some(Partial(|pieces|, PartsAfter(pieces, order))), [])
    decreases |order|
  {
    if order != [] {
      var before, i := order[..|order| - 1], order[|order| - 1];
      assert order == before + [i];
      FeedPartial(pieces, before, missing);
      assert Arrivals(Labelled(pieces), order)[..|order| - 1] == Arrivals(Labelled(pieces), before);
      FeedNext(pieces, before, i);
      assert PartsAfter(pieces, order)[missing] == None;
    }
  }

  lemma LastSplit<T>(s: seq<T>)
    requires s != []
    ensures s == s[..|s| - 1] + [s[|s| - 1]]
  {
  }

  lemma ArrivalsSplit(chunks: seq<Bytes>, before: seq<nat>, i: nat)
    requires forall k :: 0 <= k < |before| ==> before[k] < |chunks|
    requires i < |chunks|
    ensures forall k :: 0 <= k < |before + [i]| ==> (before + [i])[k] < |chunks|
    ensures Arrivals(chunks, before + [i]) == Arrivals(chunks, before) + [chunks[i]]
  {
  }

  lemma FeedSplit(p: Option<Partial>, chunks: seq<Bytes>, c: Bytes)
    ensures var (q, out) := Feed(p, chunks);
            var (r, m) := Feed1(q, c);
            Feed(p, chunks + [c]) == (r, if m.Some? then out + [m.value] else out)
  {
    assert (chunks + [c])[..|chunks|] == chunks;
  }

  lemma FeedComplete(pieces: seq<Bytes>, before: seq<nat>, i: nat)
    requires |pieces| <= MAX_CHUNKS && i < |pieces| && i !in before
    requires forall k :: 0 <= k < |before| ==> before[k] < |pieces|
    requires None !in PartsAfter(pieces, before + [i]) && Values(PartsAfter(pieces, before + [i])) == pieces
    ensures Feed(None, Arrivals(Labelled(pieces), before) + [Labelled(pieces)[i]]) == (None, [Join(pieces)])
  {
    FeedPartial(pieces, before, i);
    FeedNext(pieces, before, i);
    FeedSplit(None, Arrivals(Labelled(pieces), before), Labelled(pieces)[i]);
    assert [] + [Join(pieces)] == [Join(pieces)];
  }

  lemma AllPresent(pieces: seq<Bytes>, order: seq<nat>)
    requires forall i: nat :: i < |pieces| ==> i in order
    ensures var parts := PartsAfter(pieces, order); None !in parts && Values(parts) == pieces
  {
    var parts := PartsAfter(pieces, order);
    forall i | 0 <= i < |parts| ensures parts[i] == Some(pieces[i]) {
    }
  }

  /** The chunks of one frame in any order, repeated or not before the last one
      arrives, come out as that frame, unaltered, with the last of them. */
  lemma ReassemblesAnyOrder(frame: Bytes, mtu: int, order: seq<nat>)
    requires Chunks(frame, mtu).Ok? && CompletesAtEnd(order, |Chunks(frame, mtu).value|)
    ensures Feed(None, Arrivals(Chunks(frame, mtu).value, order)) == (None, [frame])
  {
    var pieces := PiecesOf(frame, mtu);
    var before, i := order[..|order| - 1], order[|order| - 1];
    AllPresent(pieces, order);
    LastSplit(order);
    ArrivalsSplit(Labelled(pieces), before, i);
    FeedComplete(pieces, before, i);
    PiecesAreTheFrame(frame, mtu);
  }

  /** A permutation of the chunks completes exactly at its end. */
  lemma PermutationCompletes(order: seq<nat>, count: nat)
    requires count > 0 && |order| == count
    requires forall k :: 0 <= k < |order| ==> order[k] < count
    requires forall j, k :: 0 <= j < k < |order| ==> order[j] != order[k]
    ensures CompletesAtEnd(order, count)
  {
    var seen := set k | 0 <= k < |order| :: order[k];
    var all := FiniteSets.Below(count);
    DistinctSize(order);
    FiniteSets.BelowSize(count);
    assert seen <= all;
    FiniteSets.FullSubset(seen, all);
    forall i: nat | i < count ensures i in order {
      assert i in all;
    }
  }

  lemma {:induction false} DistinctSize(order: seq<nat>)
    requires forall j, k :: 0 <= j < k < |order| ==> order[j] != order[k]
    ensures |set k | 0 <= k < |order| :: order[k]| == |order|
    decreases |order|
  {
    if order != [] {
      var before := order[..|order| - 1];
      DistinctSize(before);
      var seen := set k | 0 <= k < |before| :: before[k];
      assert (set k | 0 <= k < |order| :: order[k]) == seen + {order[|order| - 1]};
      assert order[|order| - 1] !in seen;
    }
  }

  lemma {:induction false} FeedAppends(p: Option<Partial>, a: seq<Bytes>, b: seq<Bytes>)
    ensures var (q, first) := Feed(p, a);
            var (r, second) := Feed(q, b);
            Feed(p, a + b) == (r, first + second)
    decreases |b|
  {
    var (q, first) := Feed(p, a);
    if b == [] {
      assert a + b == a;
      assert first + [] == first;
    } else {
      var init, c := b[..|b| - 1], b[|b| - 1];
      LastSplit(b);
      FeedAppends(p, a, init);
      assert a + b == (a + init) + [c];
      FeedSplit(p, a + init, c);
      var (r, second) := Feed(q, init);
      var (_, m) := Feed1(r, c);
      if m.Some? { assert first + second + [m.value] == first + (second + [m.value]); }
    }
  }

  /** One message: a frame and the order its chunks arrive in. */
  datatype Transfer = Transfer(frame: Bytes, order: seq<nat>)

  predicate Sound(t: Transfer, mtu: int) {
    Chunks(t.frame, mtu).Ok? && CompletesAtEnd(t.order, |Chunks(t.frame, mtu).value|)
  }

  predicate AllSound(ts: seq<Transfer>, mtu: int) {
    ts == [] || (AllSound(ts[..|ts| - 1], mtu) && Sound(ts[|ts| - 1], mtu))
  }

  function StreamOf(t: Transfer, mtu: int): seq<Bytes>
    requires Sound(t, mtu)
  {
    Arrivals(Chunks(t.frame, mtu).value, t.order)
  }

  function Stream(ts: seq<Transfer>, mtu: int): seq<Bytes>
    requires AllSound(ts, mtu)
  {
    if ts == [] then []
    else
      Stream(ts[..|ts| - 1], mtu) + StreamOf(ts[|ts| - 1], mtu)
  }

  function Frames(ts: seq<Transfer>): seq<Bytes> {
    seq(|ts|, k requires 0 <= k < |ts| => ts[k].frame)
  }

  lemma FramesSplit(ts: seq<Transfer>)
    requires ts != []
    ensures Frames(ts) == Frames(ts[..|ts| - 1]) + [ts[|ts| - 1].frame]
  {
  }

  lemma TransferComesOut(t: Transfer, mtu: int)
    requires Sound(t, mtu)
    ensures Feed(None, StreamOf(t, mtu)) == (None, [t.frame])
  {
    ReassemblesAnyOrder(t.frame, mtu, t.order);
  }

  /** Messages sent one after another, the chunks of each in any order, come out
      complete, unaltered and in the order sent. */
  lemma {:induction false} MessagesComeOutInOrder(ts: seq<Transfer>, mtu: int)
    requires AllSound(ts, mtu)
    ensures Feed(None, Stream(ts, mtu)) == (None, Frames(ts))
    decreases |ts|
  {
    if ts != [] {
      var before, last := ts[..|ts| - 1], ts[|ts| - 1];
      MessagesComeOutInOrder(before, mtu);
      TransferComesOut(last, mtu);
      FeedAppends(None, Stream(before, mtu), StreamOf(last, mtu));
      FramesSplit(ts);
      assert Feed(None, Stream(before, mtu) + StreamOf(last, mtu)) == (None, Frames(before) + [last.frame]);
    } else {
      assert Frames(ts) == [];
    }
  }

  // ----- The channel the authentication exchange reads from -----

  /** One peer's channel. receive() returns a promise, named by the number of the
      call; `resolved` is what the promises resolved so far returned. */
  class FrameChannel {
    var pending: map<string, Partial>
    var complete: seq<Bytes>
    var waiters: seq<nat>
    var resolved: map<nat, Bytes>
    var calls: nat
    /** Every frame completed so far, in completion order. */
    ghost var messages: seq<Bytes>

    /** Promise number t is resolved exactly when both it and message number t
        exist, and then with that message; what is completed and not yet handed
        out is buffered, and frames and waiters are never both waiting. */
    ghost predicate Valid()
      reads this
    {
      && (forall t: nat :: t in resolved <==> t < calls && t < |messages|)
      && (forall t: nat :: t in resolved ==> resolved[t] == messages[t])
      && (if calls <= |messages| then complete == messages[calls..] && waiters == []
          else complete == [] && |waiters| == calls - |messages| &&
               forall k :: 0 <= k < |waiters| ==> waiters[k] == |messages| + k)
    }

    constructor ()
      ensures Valid() && pending == map[] && messages == [] && calls == 0
    {
      pending, complete, waiters, resolved, calls := map[], [], [], map[], 0;
      messages := [];
    }

    function PartialOf(peer: string): Option<Partial>
      reads this
    {
      if peer in pending then Some(pending[peer]) else None
    }

    method Receive() returns (promise: nat)
      requires Valid()
      modifies this
      ensures Valid() && promise == old(calls) && calls == promise + 1
      ensures messages == old(messages) && pending == old(pending)
    {
      promise := calls;
      calls := calls + 1;
      if |complete| > 0 {
        resolved := resolved[promise := complete[0]];
        complete := complete[1..];
      } else {
        waiters := waiters + [promise];
      }
    }

    /** Feeds one transport frame: only the sender's partial frame changes, and a
        completed frame goes to the oldest waiter or the end of the buffer. */
    method Accept(peer: string, chunk: Bytes)
      requires Valid()
      modifies this
      ensures Valid() && calls == old(calls)
      ensures var (p, m) := Feed1(old(PartialOf(peer)), chunk);
              && PartialOf(peer) == p
              && messages == old(messages) + (if m.Some? then [m.value] else [])
      ensures forall other :: other != peer ==> PartialOf(other) == old(PartialOf(other))
    {
      if |chunk| < HEADER_LENGTH { return; }
      var index, count := ReadU16(chunk), ReadU16(chunk[2..]);
      if count == 0 || count > MAX_CHUNKS || index >= count { return; }
      var entry := if peer in pending then Some(pending[peer]) else None;
      var current := EntryFor(entry, count);
      var parts := current.parts[index := Some(chunk[HEADER_LENGTH..])];
      if None in parts {
        pending := pending[peer := current.(parts := parts)];
        return;
      }
      pending := pending - {peer};
      var message := JoinParts(Values(parts));
      messages := messages + [message];
      if |waiters| > 0 {
        resolved := resolved[waiters[0] := message];
        waiters := waiters[1..];
      } else {
        complete := complete + [message];
      }
    }

    /** reset(): only partial frames are dropped. */
    method Reset()
      requires Valid()
      modifies this
      ensures Valid() && pending == map[] && messages == old(messages) && calls == old(calls)
    {
      pending := map[];
    }
  }

  method JoinParts(parts: seq<Bytes>) returns (message: Bytes)
    ensures message == Join(parts)
  {
    message := [];
    for i := 0 to |parts|
      invariant message == Join(parts[..i])
    {
      assert parts[..i + 1][..i] == parts[..i];
      message := message + parts[i];
    }
    assert parts[..|parts|] == parts;
  }
}
