/** Fragment round trips: any number of envelopes, their fragments interleaved. */
module FragmentDelivery {
  import opened Basics
  import opened Totals
  import opened Fragments
  import FiniteSets
  import Framing

  /** Whose fragments belong together: one envelope, brought by one peer that cut it
      into so many pieces. Several peers may bring one envelope. */
  datatype Key = Key(id: MessageId, peer: PeerId, count: nat)

  type Plan = map<Key, seq<Bytes>>

  datatype Arrival = Arrival(key: Key, index: nat, now: int)

  /** All fragments are ones a reassembler accepts. */
  predicate PlanFits(plan: Plan) {
    forall k :: k in plan ==> PiecesFit(k, plan[k])
  }

  predicate PiecesFit(key: Key, pieces: seq<Bytes>) {
    && |key.id.bytes| == 16 && 1 <= |pieces| == key.count <= MAX_FRAGMENT_COUNT
    && forall i :: 0 <= i < |pieces| ==> |pieces[i]| <= MAX_FRAGMENT_SIZE
  }

  predicate Planned(plan: Plan, a: Arrival) {
    a.key in plan && a.index < |plan[a.key]|
  }

  function WireOf(plan: Plan, a: Arrival): Wire
    requires Planned(plan, a)
  {
    FragmentAt(a.key.id, plan[a.key], a.index)
  }

  // ----- What is under way under one id, whatever happens to the others -----

  /** Nothing, or one peer's set: the indices that came since the last was complete
      or given up, and when the first of them came. */
  datatype Progress = Idle | UnderWay(key: Key, since: int, got: set<nat>)

  /** Given up when the first fragment is too old. */
  function Aged(p: Progress, now: int): Progress {
    if p.UnderWay? && now - p.since > MAX_AGE_MS then Idle else p
  }

  /** A set of another peer, or of another cut, is under way under the same id. */
  predicate HeldUp(p: Progress, a: Arrival) {
    p.UnderWay? && p.key != a.key
  }

  function Collected(p: Progress): set<nat> {
    if p.UnderWay? then p.got else {}
  }

  predicate Completes(p: Progress, a: Arrival) {
    !HeldUp(p, a) && a.index !in Collected(p) && FiniteSets.Below(a.key.count) <= Collected(p) + {a.index}
  }

  /** The progress with one more piece. */
  function More(p: Progress, a: Arrival): Progress {
    UnderWay(a.key, if p.UnderWay? then p.since else a.now, Collected(p) + {a.index})
  }

  function Advance(p: Progress, a: Arrival): Progress {
    if HeldUp(p, a) || a.index in Collected(p) then p else if Completes(p, a) then Idle else More(p, a)
  }

  function ProgressOf(arrivals: seq<Arrival>, id: MessageId): Progress {
    if arrivals == [] then Idle
    else
      var a := arrivals[|arrivals| - 1];
      var p := Aged(ProgressOf(arrivals[..|arrivals| - 1], id), a.now);
      if a.key.id == id then Advance(p, a) else p
  }

  /** The progress the next fragment meets. */
  function Met(arrivals: seq<Arrival>, a: Arrival): Progress {
    Aged(ProgressOf(arrivals, a.key.id), a.now)
  }

  function PiecesFor(plan: Plan, key: Key): seq<Bytes> {
    if key in plan then plan[key] else []
  }

  function PiecesAt(pieces: seq<Bytes>, got: set<nat>): map<nat, Bytes> {
    map i | i in got && i < |pieces| :: pieces[i]
  }

  ghost function EntryFor(plan: Plan, p: Progress): Entry
    requires p.UnderWay?
  {
    var received := PiecesAt(PiecesFor(plan, p.key), p.got);
    Entry(p.key.count, received, p.since, ReceivedBytes(received), p.key.peer)
  }

  function Ids(plan: Plan): set<MessageId> {
    set k | k in plan :: k.id
  }

  /** The envelopes started and not complete or given up at an instant after some
      arrivals, each with exactly the pieces that came. */
  ghost function HeldAt(plan: Plan, arrivals: seq<Arrival>, now: int): Pending {
    map id | id in Ids(plan) && Aged(ProgressOf(arrivals, id), now).UnderWay? ::
      EntryFor(plan, Aged(ProgressOf(arrivals, id), now))
  }

  /** The same right after the last arrival. */
  ghost function HeldAfter(plan: Plan, arrivals: seq<Arrival>): Pending {
    map id | id in Ids(plan) && ProgressOf(arrivals, id).UnderWay? :: EntryFor(plan, ProgressOf(arrivals, id))
  }

  // ----- Schedules -----

  /** An arriving piece that is not there already, nor held up, finds room beside the
      envelopes under way at that moment, in all and of its peer. */
  ghost predicate HasRoom(plan: Plan, arrivals: seq<Arrival>, a: Arrival)
    requires Planned(plan, a)
  {
    var held, p, size := HeldAt(plan, arrivals, a.now), Met(arrivals, a), |plan[a.key][a.index]|;
    HeldUp(p, a) || a.index in Collected(p) ||
    ((p.Idle? ==> RoomForSet(held, a.key.peer, size)) && RoomForBytes(held, a.key.peer, size))
  }

  /** Any interleaving of fragments of planned envelopes, repetitions included, each
      finding room when it comes. */
  ghost predicate Schedule(plan: Plan, arrivals: seq<Arrival>) {
    arrivals == [] ||
    (Schedule(plan, arrivals[..|arrivals| - 1]) && Planned(plan, arrivals[|arrivals| - 1]) &&
     HasRoom(plan, arrivals[..|arrivals| - 1], arrivals[|arrivals| - 1]))
  }

  /** What a reassembler holds and has returned after a schedule. */
  ghost function AddAll(plan: Plan, arrivals: seq<Arrival>): (Pending, seq<Option<Bytes>>)
    requires Schedule(plan, arrivals)
  {
    if arrivals == [] then (map[], [])
    else
      var a := arrivals[|arrivals| - 1];
      var (pending, out) := AddAll(plan, arrivals[..|arrivals| - 1]);
      var (next, r) := Add(pending, WireOf(plan, a), a.key.peer, a.now);
      (next, out + [r])
  }

  // ----- One fragment -----

  /** Purging leaves what is still under way. */
  lemma PurgedIsHeld(plan: Plan, arrivals: seq<Arrival>, now: int)
    ensures Unexpired(HeldAfter(plan, arrivals), now, MAX_AGE_MS) == HeldAt(plan, arrivals, now)
  {
    hide ProgressOf, ReceivedBytes, PiecesAt, PiecesFor, Ids;
  }

  function FragmentOf(plan: Plan, a: Arrival): Fragment
    requires Planned(plan, a)
  {
    Fragment(a.key.id, a.index, |plan[a.key]|, plan[a.key][a.index])
  }

  lemma Decoded(plan: Plan, a: Arrival)
    requires PlanFits(plan) && Planned(plan, a)
    ensures Decode(WireOf(plan, a)) == Some(FragmentOf(plan, a)) && |plan[a.key]| == a.key.count
  {
    assert PiecesFit(a.key, plan[a.key]);
    FragmentAccepted(a.key.id, plan[a.key], a.index);
  }

  /** The sets under way, with one for the arriving fragment. */
  ghost function Open(held: Pending, a: Arrival): Pending {
    if a.key.id in held then held else held[a.key.id := Entry(a.key.count, map[], a.now, 0, a.key.peer)]
  }

  /** A new, empty set takes no room. */
  lemma OpeningTakesNoBytes(held: Pending, a: Arrival, size: nat)
    requires RoomForBytes(held, a.key.peer, size)
    ensures RoomForBytes(Open(held, a), a.key.peer, size)
  {
    hide Total, SetSizes, OfPeer, ReceivedBytes, BytesOfPeer;
    if a.key.id !in held {
      var e := Entry(a.key.count, map[], a.now, 0, a.key.peer);
      NothingReceived(e.received);
      SetOpened(held, a.key.id, e);
      SetOpenedOf(held, a.key.id, e, a.key.peer);
    }
  }

  /** What is under way under an id is some pieces of one cut of it, not all. */
  ghost predicate Partial(plan: Plan, p: Progress, id: MessageId) {
    p.UnderWay? ==>
      && p.key in plan && p.key.id == id && |plan[p.key]| == p.key.count
      && p.got <= FiniteSets.Below(p.key.count) && p.got != FiniteSets.Below(p.key.count)
  }

  lemma AdvanceIsPartial(plan: Plan, p: Progress, a: Arrival)
    requires PlanFits(plan) && Planned(plan, a) && Partial(plan, p, a.key.id)
    ensures Partial(plan, Advance(p, a), a.key.id)
  {
    FiniteSets.BelowSize(a.key.count);
    assert PiecesFit(a.key, plan[a.key]);
    hide FiniteSets.Below, PlanFits;
  }

  lemma {:induction false} ProgressIsPartial(plan: Plan, arrivals: seq<Arrival>, id: MessageId)
    requires PlanFits(plan) && Schedule(plan, arrivals)
    ensures Partial(plan, ProgressOf(arrivals, id), id)
    decreases |arrivals|
  {
    hide FiniteSets.Below, HasRoom, PlanFits, Advance;
    if arrivals != [] {
      var before, a := arrivals[..|arrivals| - 1], arrivals[|arrivals| - 1];
      ProgressIsPartial(plan, before, id);
      if a.key.id == id { AdvanceIsPartial(plan, Aged(ProgressOf(before, id), a.now), a); }
    }
  }

  /** A map of an envelope's pieces is full exactly when none is missing. */
  lemma FullMap(pieces: seq<Bytes>, got: set<nat>)
    requires got <= FiniteSets.Below(|pieces|)
    ensures var received, n := PiecesAt(pieces, got), |pieces|;
            && received.Keys == got
            && (|received| >= n <==> FiniteSets.Below(n) <= got)
            && (|received| >= n ==>
                  (forall i: nat :: i < n ==> i in received) && Gather(received, n) == pieces)
  {
    var received, n := PiecesAt(pieces, got), |pieces|;
    FiniteSets.BelowSize(n);
    assert received.Keys == got;
    assert |received| == |received.Keys|;
    if |received| >= n { Pigeonhole(received, n); }
    if FiniteSets.Below(n) <= got { FiniteSets.SmallerSubset(FiniteSets.Below(n), got); }
  }

  /** The set of an envelope with one more piece. */
  lemma OneMore(pieces: seq<Bytes>, got: set<nat>, i: nat)
    requires i < |pieces| && i !in got
    ensures PiecesAt(pieces, got + {i}) == PiecesAt(pieces, got)[i := pieces[i]]
    ensures ReceivedBytes(PiecesAt(pieces, got + {i})) == ReceivedBytes(PiecesAt(pieces, got)) + |pieces[i]|
  {
    hide ReceivedBytes;
    assert PiecesAt(pieces, got + {i}) == PiecesAt(pieces, got)[i := pieces[i]];
    ReceivedGrows(PiecesAt(pieces, got), i, pieces[i]);
  }

  /** What is held under the arriving fragment's id is its own set, at progress p. */
  ghost predicate HeldIs(plan: Plan, held: Pending, a: Arrival, p: Progress)
    requires Planned(plan, a)
  {
    && |plan[a.key]| == a.key.count && !HeldUp(p, a)
    && Collected(p) <= FiniteSets.Below(a.key.count)
    && (a.key.id in held <==> p.UnderWay?)
    && (p.UnderWay? ==> held[a.key.id] == EntryFor(plan, p))
  }

  /** What the fragment's set holds once opened. */
  lemma OpenHolds(plan: Plan, held: Pending, a: Arrival, p: Progress)
    requires Planned(plan, a) && HeldIs(plan, held, a, p)
    ensures var e := Open(held, a)[a.key.id];
            && e.fragmentCount == a.key.count && e.peerId == a.key.peer
            && e.received == PiecesAt(plan[a.key], Collected(p)) && e.bytes == ReceivedBytes(e.received)
            && e.firstSeenAt == if p.UnderWay? then p.since else a.now
  {
    if a.key.id !in held {
      assert PiecesAt(plan[a.key], {}) == map[];
      NothingReceived(PiecesAt(plan[a.key], {}));
    }
  }

  /** A repeated fragment changes nothing. */
  lemma KeptRepeated(plan: Plan, held: Pending, a: Arrival, p: Progress)
    requires Planned(plan, a) && HeldIs(plan, held, a, p) && a.index in Collected(p)
    ensures Kept(Open(held, a), FragmentOf(plan, a), a.key.peer) == (held, None)
  {
    hide ReceivedBytes, Gather;
    OpenHolds(plan, held, a, p);
    FullMap(plan[a.key], Collected(p));
  }

  lemma GrownIs(plan: Plan, held: Pending, a: Arrival, p: Progress)
    requires Planned(plan, a) && HeldIs(plan, held, a, p) && a.index !in Collected(p)
    ensures Grown(Open(held, a)[a.key.id], a.index, plan[a.key][a.index]) == EntryFor(plan, More(p, a))
  {
    OpenHolds(plan, held, a, p);
    OneMore(plan[a.key], Collected(p), a.index);
    hide ReceivedBytes, PiecesAt, Open, HeldIs;
  }

  /** A full set hands out the envelope, one that is not keeps the piece. */
  lemma HandsOutWhenFull(plan: Plan, p: Progress, a: Arrival)
    requires Planned(plan, a) && |plan[a.key]| == a.key.count && !HeldUp(p, a)
    requires Collected(p) <= FiniteSets.Below(a.key.count) && a.index !in Collected(p)
    ensures var g, n := EntryFor(plan, More(p, a)), a.key.count;
            && g.fragmentCount == n && (|g.received| >= n <==> Completes(p, a))
            && (Completes(p, a) ==>
                  (forall i: nat :: i < n ==> i in g.received) && Gather(g.received, n) == plan[a.key])
  {
    FiniteSets.BelowSize(a.key.count);
    hide FiniteSets.Below;
    FullMap(plan[a.key], Collected(p) + {a.index});
  }

  lemma OpenAside(held: Pending, a: Arrival, g: Entry)
    ensures Open(held, a) - {a.key.id} == held - {a.key.id}
    ensures Open(held, a)[a.key.id := g] == held[a.key.id := g]
  {
  }

  lemma NotYetHeld(plan: Plan, held: Pending, a: Arrival, p: Progress)
    requires Planned(plan, a) && HeldIs(plan, held, a, p) && a.index !in Collected(p)
    ensures a.index !in Open(held, a)[a.key.id].received
    ensures Open(held, a)[a.key.id].fragmentCount == a.key.count
  {
    OpenHolds(plan, held, a, p);
    FullMap(plan[a.key], Collected(p));
  }

  /** A new fragment is stored, and its set handed out when that fills it. */
  lemma KeptNew(plan: Plan, held: Pending, a: Arrival, p: Progress)
    requires Planned(plan, a) && HeldIs(plan, held, a, p) && a.index !in Collected(p)
    requires RoomForBytes(held, a.key.peer, |plan[a.key][a.index]|)
    ensures Kept(Open(held, a), FragmentOf(plan, a), a.key.peer) ==
            if Completes(p, a) then (held - {a.key.id}, Some(Framing.Join(plan[a.key])))
            else (held[a.key.id := EntryFor(plan, More(p, a))], None)
  {
    assert |plan[a.key]| == a.key.count && !HeldUp(p, a) && Collected(p) <= FiniteSets.Below(a.key.count);
    hide RoomForBytes, Framing.Join, ReceivedBytes, FiniteSets.Below, Kept, PiecesAt, Gather, EntryFor, Grown,
        Completes, More, HeldIs;
    NotYetHeld(plan, held, a, p);
    OpeningTakesNoBytes(held, a, |plan[a.key][a.index]|);
    GrownIs(plan, held, a, p);
    HandsOutWhenFull(plan, p, a);
    OpenAside(held, a, EntryFor(plan, More(p, a)));
    hide Open;
    KeptCases(Open(held, a), FragmentOf(plan, a), a.key.peer);
  }

  /** What is held after the fragment is what the progress under each id says. */
  lemma HeldNext(plan: Plan, before: seq<Arrival>, a: Arrival)
    requires Planned(plan, a)
    ensures var next := Advance(Met(before, a), a);
            HeldAfter(plan, before + [a]) ==
            if next.Idle? then HeldAt(plan, before, a.now) - {a.key.id}
            else HeldAt(plan, before, a.now)[a.key.id := EntryFor(plan, next)]
  {
    hide PiecesAt, ReceivedBytes, Aged, Advance, PiecesFor;
    assert (before + [a])[..|before|] == before;
    assert a.key.id in Ids(plan);
  }

  /** What is held under the arriving fragment's id. */
  lemma HeldUnder(plan: Plan, arrivals: seq<Arrival>, a: Arrival)
    requires PlanFits(plan) && Schedule(plan, arrivals) && Planned(plan, a)
    ensures var held, p := HeldAt(plan, arrivals, a.now), Met(arrivals, a);
            && Partial(plan, p, a.key.id)
            && (a.key.id in held <==> p.UnderWay?)
            && (p.UnderWay? ==> held[a.key.id] == EntryFor(plan, p))
            && (!HeldUp(p, a) ==> HeldIs(plan, held, a, p))
  {
    assert PiecesFit(a.key, plan[a.key]);
    assert a.key.id in Ids(plan);
    ProgressIsPartial(plan, arrivals, a.key.id);
    hide PlanFits, Schedule, ProgressOf, EntryFor, FiniteSets.Below, Ids;
  }

  /** A fragment held up by another set is refused, and one that is not gets as far
      as its own set. */
  lemma AddCases(plan: Plan, arrivals: seq<Arrival>, a: Arrival)
    requires PlanFits(plan) && Schedule(plan, arrivals) && Planned(plan, a) && HasRoom(plan, arrivals, a)
    ensures var held, p := HeldAt(plan, arrivals, a.now), Met(arrivals, a);
            Add(HeldAfter(plan, arrivals), WireOf(plan, a), a.key.peer, a.now) ==
            if HeldUp(p, a) then (held, None) else Kept(Open(held, a), FragmentOf(plan, a), a.key.peer)
  {
    PurgedIsHeld(plan, arrivals, a.now);
    Decoded(plan, a);
    HeldUnder(plan, arrivals, a);
    hide PlanFits, Schedule, RoomForSet, RoomForBytes, Kept, ReceivedBytes, Decode, FragmentAt, ProgressOf, PiecesAt,
        Unexpired, HeldAfter, HeldAt, FiniteSets.Below, HeldIs;
  }

  /** One more fragment, whatever is under way: its envelope comes out exactly when
      it is the last piece of its set still missing and no other set is under way
      under its id, nothing else comes out, and every other envelope's set is as it
      was or given up for its age. */
  lemma AddKeepsHeld(plan: Plan, arrivals: seq<Arrival>, a: Arrival)
    requires PlanFits(plan) && Schedule(plan, arrivals) && Planned(plan, a) && HasRoom(plan, arrivals, a)
    ensures Add(HeldAfter(plan, arrivals), WireOf(plan, a), a.key.peer, a.now) ==
            (HeldAfter(plan, arrivals + [a]),
             if Completes(Met(arrivals, a), a) then Some(Framing.Join(plan[a.key])) else None)
  {
    var held, p := HeldAt(plan, arrivals, a.now), Met(arrivals, a);
    AddCases(plan, arrivals, a);
    HeldUnder(plan, arrivals, a);
    HeldNext(plan, arrivals, a);
    AdvanceCases(p, a);
    if HeldUp(p, a) || a.index in Collected(p) { UnchangedSet(held, a.key.id); }
    hide PlanFits, Schedule, RoomForSet, RoomForBytes, Kept, Framing.Join, EntryFor, FiniteSets.Below, HeldAfter,
        HeldAt, Add, Met, Advance, HeldIs, Completes, More;
    if !HeldUp(p, a) {
      if a.index in Collected(p) { KeptRepeated(plan, held, a, p); } else { KeptNew(plan, held, a, p); }
    }
  }

  lemma UnchangedSet(held: Pending, id: MessageId)
    ensures id in held ==> held[id := held[id]] == held
  {
  }

  lemma AdvanceCases(p: Progress, a: Arrival)
    ensures var next := Advance(p, a);
            && (HeldUp(p, a) || a.index in Collected(p) ==> next == p && p.UnderWay? && !Completes(p, a))
            && (Completes(p, a) ==> next.Idle?)
            && (!Completes(p, a) && !HeldUp(p, a) && a.index !in Collected(p) ==> next == More(p, a))
  {
  }

  // ----- Whole schedules -----

  /** After any schedule the reassembler holds exactly the pieces of the sets under
      way. */
  lemma {:induction false} HoldsThroughout(plan: Plan, arrivals: seq<Arrival>)
    requires PlanFits(plan) && Schedule(plan, arrivals)
    ensures AddAll(plan, arrivals).0 == HeldAfter(plan, arrivals)
    decreases |arrivals|
  {
    hide PlanFits, HasRoom, Completes, Add, HeldAfter;
    if arrivals == [] {
      NothingHeld(plan);
    } else {
      var before, a := arrivals[..|arrivals| - 1], arrivals[|arrivals| - 1];
      HoldsThroughout(plan, before);
      AddKeepsHeld(plan, before, a);
      assert before + [a] == arrivals;
    }
  }

  lemma NothingHeld(plan: Plan)
    ensures HeldAfter(plan, []) == map[]
  {
  }

  /** Each envelope is reassembled by itself: whatever fragments of whatever other
      envelopes come between, a fragment returns its envelope's bytes exactly when
      it completes the pieces that came since the last set under its id was complete
      or given up, all of its own peer and cut, and nothing otherwise. */
  lemma EachByItself(plan: Plan, arrivals: seq<Arrival>)
    requires PlanFits(plan) && arrivals != [] && Schedule(plan, arrivals)
    ensures var before, a := arrivals[..|arrivals| - 1], arrivals[|arrivals| - 1];
            var out := AddAll(plan, arrivals).1;
            && a.key in plan && |out| > 0
            && out[|out| - 1] == if Completes(Met(before, a), a) then Some(Framing.Join(plan[a.key])) else None
  {
    hide PlanFits, HasRoom, Completes, Add, HeldAfter;
    var before, a := arrivals[..|arrivals| - 1], arrivals[|arrivals| - 1];
    HoldsThroughout(plan, before);
    AddKeepsHeld(plan, before, a);
  }

  // ----- Several peers bring one envelope -----

  /** A fragment that finds room is lost, changing nothing, exactly when it is there
      already or a set of another peer or cut is under way under its id. */
  lemma LostExactly(plan: Plan, arrivals: seq<Arrival>, a: Arrival)
    requires PlanFits(plan) && Schedule(plan, arrivals) && Planned(plan, a) && HasRoom(plan, arrivals, a)
    ensures var p := Met(arrivals, a);
            Add(HeldAfter(plan, arrivals), WireOf(plan, a), a.key.peer, a.now) == (HeldAt(plan, arrivals, a.now), None)
            <==> HeldUp(p, a) || a.index in Collected(p)
  {
    var held, p := HeldAt(plan, arrivals, a.now), Met(arrivals, a);
    AddCases(plan, arrivals, a);
    HeldUnder(plan, arrivals, a);
    if !HeldUp(p, a) {
      if a.index in Collected(p) {
        KeptRepeated(plan, held, a, p);
      } else {
        KeptNew(plan, held, a, p);
        MorePieces(plan, held, a, p);
      }
    }
  }

  lemma MorePieces(plan: Plan, held: Pending, a: Arrival, p: Progress)
    requires Planned(plan, a) && HeldIs(plan, held, a, p) && a.index !in Collected(p)
    ensures held[a.key.id := EntryFor(plan, More(p, a))] != held
  {
    hide ReceivedBytes, FiniteSets.Below;
    if p.UnderWay? {
      assert a.index in EntryFor(plan, More(p, a)).received && a.index !in held[a.key.id].received;
    } else {
      assert a.key.id !in held;
    }
  }

  /** What comes within the age limit of a set's start, from other peers only. */
  predicate OthersOnly(p: Progress, id: MessageId, later: seq<Arrival>) {
    p.UnderWay? && forall j :: 0 <= j < |later| ==>
      later[j].now - p.since <= MAX_AGE_MS && (later[j].key.id == id ==> later[j].key != p.key)
  }

  lemma {:induction false} StaysUnderWay(arrivals: seq<Arrival>, later: seq<Arrival>, id: MessageId)
    requires OthersOnly(ProgressOf(arrivals, id), id, later)
    ensures ProgressOf(arrivals + later, id) == ProgressOf(arrivals, id)
    decreases |later|
  {
    if later == [] {
      assert arrivals + later == arrivals;
    } else {
      var before, a := later[..|later| - 1], later[|later| - 1];
      assert (arrivals + later)[..|arrivals + later| - 1] == arrivals + before;
      assert forall j :: 0 <= j < |before| ==> before[j] == later[j];
      StaysUnderWay(arrivals, before, id);
    }
  }

  lemma {:induction false} StillHeldUp(arrivals: seq<Arrival>, later: seq<Arrival>, id: MessageId)
    requires later != [] && later[|later| - 1].key.id == id
    requires OthersOnly(ProgressOf(arrivals, id), id, later)
    ensures var before, a := later[..|later| - 1], later[|later| - 1]; !Completes(Met(arrivals + before, a), a)
  {
    var before, a := later[..|later| - 1], later[|later| - 1];
    assert forall j :: 0 <= j < |before| ==> before[j] == later[j];
    StaysUnderWay(arrivals, before, id);
    hide ProgressOf, FiniteSets.Below;
  }

  /** As long as one peer's set is under way, for up to 30 seconds, no other copy of
      the envelope is reassembled, though all its pieces may come. */
  lemma {:induction false} OthersHeldUp(plan: Plan, arrivals: seq<Arrival>, later: seq<Arrival>, id: MessageId)
    requires PlanFits(plan) && Schedule(plan, arrivals + later)
    requires later != [] && later[|later| - 1].key.id == id
    requires OthersOnly(ProgressOf(arrivals, id), id, later)
    ensures var out := AddAll(plan, arrivals + later).1; |out| > 0 && out[|out| - 1] == None
  {
    var before, a := later[..|later| - 1], later[|later| - 1];
    StillHeldUp(arrivals, later, id);
    var all := arrivals + later;
    assert all[..|all| - 1] == arrivals + before && all[|all| - 1] == a;
    hide *;
    EachByItself(plan, all);
  }

  lemma RoomAtFirst(peer: PeerId, size: nat)
    requires size <= MAX_FRAGMENT_SIZE
    ensures RoomForSet(map[], peer, size) && RoomForBytes(map[], peer, size)
  {
    assert SetSizes(map[]) == map[] && OfPeer(map[], peer) == map[];
  }

  lemma RoomBesideOne(id: MessageId, e: Entry, data: Bytes, peer: PeerId, size: nat)
    requires e.received == map[0 := data] && |data| <= MAX_FRAGMENT_SIZE && size <= MAX_FRAGMENT_SIZE
    ensures RoomForBytes(map[id := e], peer, size)
  {
    var one: Pending := map[id := e];
    var none: Pending := map[];
    NothingReceived(map[]);
    assert map[][0 := data] == map[0 := data];
    ReceivedGrows(map[], 0, data);
    assert SetSizes(none) == map[] && SetSizes(one) == map[][id := |data|];
    assert Total(SetSizes(none)) == 0;
    TotalSet(SetSizes(none), id, |data|);
    hide Total, ReceivedBytes;
    assert OfPeer(one, peer) == one || OfPeer(one, peer) == none;
  }

  lemma OneMoreArrival(plan: Plan, before: seq<Arrival>, a: Arrival)
    requires PlanFits(plan) && Schedule(plan, before) && Planned(plan, a) && HasRoom(plan, before, a)
    ensures Schedule(plan, before + [a])
    ensures AddAll(plan, before + [a]).1 == AddAll(plan, before).1 +
            [if Completes(Met(before, a), a) then Some(Framing.Join(plan[a.key])) else None]
    ensures ProgressOf(before + [a], a.key.id) == Advance(Met(before, a), a)
  {
    hide PlanFits, HasRoom, Completes, Add, HeldAfter, Advance, Framing.Join;
    assert (before + [a])[..|before|] == before;
    HoldsThroughout(plan, before);
    AddKeepsHeld(plan, before, a);
  }

  lemma HeldAlone(plan: Plan, arrivals: seq<Arrival>, id: MessageId, now: int)
    requires Ids(plan) == {id}
    ensures var p := Aged(ProgressOf(arrivals, id), now);
            HeldAt(plan, arrivals, now) == if p.UnderWay? then map[id := EntryFor(plan, p)] else map[]
  {
    hide Ids, EntryFor, ProgressOf;
  }

  lemma {:induction false} FirstPiece(plan: Plan, x: Arrival)
    requires PlanFits(plan) && Planned(plan, x) && Ids(plan) == {x.key.id} && x.key.count == 2 && x.index == 0
    ensures Schedule(plan, [x]) && AddAll(plan, [x]).1 == [None]
    ensures ProgressOf([x], x.key.id) == UnderWay(x.key, x.now, {0})
  {
    assert PiecesFit(x.key, plan[x.key]);
    HeldAlone(plan, [], x.key.id, x.now);
    RoomAtFirst(x.key.peer, |plan[x.key][0]|);
    assert Schedule(plan, []) && AddAll(plan, []).1 == [];
    hide PlanFits, Framing.Join, HeldAt, RoomForBytes, RoomForSet, Schedule, AddAll;
    OneMoreArrival(plan, [], x);
    assert [] + [x] == [x];
    assert FiniteSets.Below(2) == {0, 1};
  }

  /** An envelope of two pieces that are the first to come is reassembled. */
  lemma {:induction false} TwoPieces(plan: Plan, x: Arrival, y: Arrival)
    requires PlanFits(plan) && Planned(plan, x) && Planned(plan, y) && Ids(plan) == {x.key.id}
    requires x.key == y.key && x.key.count == 2 && x.index == 0 && y.index == 1 && x.now <= y.now <= x.now + MAX_AGE_MS
    ensures Schedule(plan, [x, y]) && AddAll(plan, [x, y]).1 == [None, Some(Framing.Join(plan[x.key]))]
  {
    hide *;
    FirstPiece(plan, x);
    SecondHasRoom(plan, x, y);
    SecondCompletes(x, y);
    OneMoreArrival(plan, [x], y);
    assert [x] + [y] == [x, y];
  }

  lemma SecondCompletes(x: Arrival, y: Arrival)
    requires ProgressOf([x], x.key.id) == UnderWay(x.key, x.now, {0})
    requires x.key == y.key && x.key.count == 2 && y.index == 1 && y.now <= x.now + MAX_AGE_MS
    ensures Completes(Met([x], y), y)
  {
    assert FiniteSets.Below(2) == {0, 1};
  }

  lemma SecondHasRoom(plan: Plan, x: Arrival, y: Arrival)
    requires PlanFits(plan) && Planned(plan, y) && Ids(plan) == {x.key.id} && x.key == y.key
    requires ProgressOf([x], x.key.id) == UnderWay(x.key, x.now, {0}) && y.now <= x.now + MAX_AGE_MS
    ensures HasRoom(plan, [x], y)
  {
    var p := Met([x], y);
    var data := plan[x.key][0];
    assert PiecesFit(x.key, plan[x.key]);
    HeldAlone(plan, [x], x.key.id, y.now);
    assert EntryFor(plan, p).received == map[0 := data];
    RoomBesideOne(x.key.id, EntryFor(plan, p), data, y.key.peer, |plan[y.key][y.index]|);
    hide EntryFor, PlanFits, HeldAt, RoomForBytes, ProgressOf;
  }

  lemma RefusedNext(plan: Plan, before: seq<Arrival>, a: Arrival)
    requires PlanFits(plan) && Schedule(plan, before) && Planned(plan, a) && HeldUp(Met(before, a), a)
    ensures Schedule(plan, before + [a]) && AddAll(plan, before + [a]).1 == AddAll(plan, before).1 + [None]
    ensures ProgressOf(before + [a], a.key.id) == Met(before, a)
  {
    hide PlanFits, Schedule, AddAll, Framing.Join, Met, HeldAt, RoomForBytes, RoomForSet;
    OneMoreArrival(plan, before, a);
  }

  lemma {:induction false} BothRefused(plan: Plan, first: Arrival, one: Arrival, two: Arrival)
    requires PlanFits(plan) && Planned(plan, first) && Planned(plan, one) && Planned(plan, two)
    requires Schedule(plan, [first]) && ProgressOf([first], first.key.id) == UnderWay(first.key, first.now, {0})
    requires one.key == two.key != first.key && one.key.id == first.key.id
    requires one.now <= first.now + MAX_AGE_MS && two.now <= first.now + MAX_AGE_MS
    ensures Schedule(plan, [first, one, two])
    ensures AddAll(plan, [first, one, two]).1 == AddAll(plan, [first]).1 + [None, None]
  {
    hide PlanFits, Schedule, AddAll, ProgressOf;
    RefusedNext(plan, [first], one);
    assert [first] + [one] == [first, one];
    RefusedNext(plan, [first, one], two);
    assert [first, one] + [two] == [first, one, two];
  }

  /** After one fragment of a's copy both of b's are refused, from which alone the
      envelope is reassembled. */
  lemma OnePieceHoldsUp(id: MessageId, a: PeerId, b: PeerId, pieces: seq<Bytes>)
    requires |id.bytes| == 16 && a != b
    requires |pieces| == 2 && |pieces[0]| <= MAX_FRAGMENT_SIZE && |pieces[1]| <= MAX_FRAGMENT_SIZE
    ensures var x, y := Key(id, a, 2), Key(id, b, 2);
            var plan, one, two := map[x := pieces, y := pieces], Arrival(y, 0, 1), Arrival(y, 1, 2);
            && PlanFits(plan) && Schedule(plan, [one, two]) && Schedule(plan, [Arrival(x, 0, 0), one, two])
            && AddAll(plan, [one, two]).1 == [None, Some(Framing.Join(pieces))]
            && AddAll(plan, [Arrival(x, 0, 0), one, two]).1 == [None, None, None]
  {
    var x, y := Key(id, a, 2), Key(id, b, 2);
    var plan, first, one, two := map[x := pieces, y := pieces], Arrival(x, 0, 0), Arrival(y, 0, 1), Arrival(y, 1, 2);
    assert x in plan && y in plan && Ids(plan) == {id} && PlanFits(plan);
    assert Planned(plan, first) && Planned(plan, one) && Planned(plan, two);
    hide *;
    TwoPieces(plan, one, two);
    FirstPiece(plan, first);
    BothRefused(plan, first, one, two);
  }

  // ----- In the order of a run -----

  /** The indices of a set that have arrived. */
  function Got(arrivals: seq<Arrival>, key: Key): set<nat> {
    set k | 0 <= k < |arrivals| && arrivals[k].key == key :: arrivals[k].index
  }

  predicate Full(arrivals: seq<Arrival>, key: Key) {
    FiniteSets.Below(key.count) <= Got(arrivals, key)
  }

  /** The number of the first arrival of a set. */
  function FirstOf(arrivals: seq<Arrival>, key: Key): (r: Option<nat>)
    ensures r.Some? ==> r.value < |arrivals|
  {
    if arrivals == [] then None
    else
      var before := FirstOf(arrivals[..|arrivals| - 1], key);
      if before.Some? then before
      else if arrivals[|arrivals| - 1].key == key then Some(|arrivals| - 1) else None
  }

  /** No other set was under way under its id when the first of a set came, and
      everything up to `limit` comes within the age limit of it. */
  predicate Unhindered(arrivals: seq<Arrival>, key: Key, limit: int) {
    && (forall j :: 0 <= j < |arrivals| ==> arrivals[j].now <= limit)
    && var first := FirstOf(arrivals, key);
    first.Some? ==>
      && limit - arrivals[first.value].now <= MAX_AGE_MS
      && Met(arrivals[..first.value], arrivals[first.value]).Idle?
  }

  /** The last arrival comes within the age limit of the first of its set, which no
      other set held up, on a clock that did not go back. */
  predicate InTime(arrivals: seq<Arrival>) {
    arrivals != [] ==> Unhindered(arrivals, arrivals[|arrivals| - 1].key, arrivals[|arrivals| - 1].now)
  }

  lemma GotGrows(arrivals: seq<Arrival>, a: Arrival, k: Key)
    ensures Got(arrivals + [a], k) == if a.key == k then Got(arrivals, k) + {a.index} else Got(arrivals, k)
  {
    var after := arrivals + [a];
    forall i | i in Got(arrivals, k) ensures i in Got(after, k) {
      var j :| 0 <= j < |arrivals| && arrivals[j].key == k && arrivals[j].index == i;
      assert after[j] == arrivals[j];
    }
    if a.key == k { assert after[|arrivals|] == a; }
  }

  lemma UnhinderedBefore(before: seq<Arrival>, a: Arrival, key: Key, limit: int)
    requires Unhindered(before + [a], key, limit)
    ensures Unhindered(before, key, limit) && a.now <= limit
    ensures FirstOf(before, key).Some? ==> FirstOf(before + [a], key) == FirstOf(before, key)
    ensures FirstOf(before, key).None? && a.key == key ==> Met(before, a).Idle?
  {
    hide Met;
    var arrivals := before + [a];
    assert arrivals[..|before|] == before && arrivals[|before|] == a;
    forall j | 0 <= j < |before| ensures before[j].now <= limit { assert arrivals[j] == before[j]; }
    var first := FirstOf(before, key);
    if first.Some? { assert arrivals[..first.value] == before[..first.value]; }
  }

  /** Of a set that nothing hindered, and that is not complete, everything that came
      is under way. */
  lemma {:induction false} AllIsUnderWay(arrivals: seq<Arrival>, key: Key, limit: int)
    requires !Full(arrivals, key) && Unhindered(arrivals, key, limit)
    ensures FirstOf(arrivals, key).None? ==> Got(arrivals, key) == {}
    ensures FirstOf(arrivals, key).Some? ==>
              ProgressOf(arrivals, key.id) ==
              UnderWay(key, arrivals[FirstOf(arrivals, key).value].now, Got(arrivals, key))
    decreases |arrivals|
  {
    hide FiniteSets.Below;
    if arrivals == [] {
      assert Got(arrivals, key) == {};
    } else {
      var before, a := arrivals[..|arrivals| - 1], arrivals[|arrivals| - 1];
      assert arrivals == before + [a];
      GotGrows(before, a, key);
      UnhinderedBefore(before, a, key, limit);
      NotFullBefore(before, arrivals, key);
      AllIsUnderWay(before, key, limit);
      hide Got, Full;
      if a.key == key { NotCompleted(before, arrivals, a); }
    }
  }

  lemma NotFullBefore(before: seq<Arrival>, arrivals: seq<Arrival>, key: Key)
    requires !Full(arrivals, key) && Got(before, key) <= Got(arrivals, key)
    ensures !Full(before, key)
  {
    hide FiniteSets.Below, Got;
  }

  lemma NotCompleted(before: seq<Arrival>, arrivals: seq<Arrival>, a: Arrival)
    requires !Full(arrivals, a.key) && Got(arrivals, a.key) == Got(before, a.key) + {a.index}
    ensures forall p: Progress :: Collected(p) == Got(before, a.key) ==> !Completes(p, a)
  {
    hide FiniteSets.Below, Got;
  }

  /** The round trip. Fragments of any number of envelopes, interleaved in any order
      and with repetitions, each finding room when it comes: if this fragment comes
      within the age limit of the first of its set, which no other set held up, and
      the set was not complete before, it returns the envelope's bytes exactly when
      it is the last piece missing, and nothing otherwise. */
  lemma RoundTrip(plan: Plan, arrivals: seq<Arrival>)
    requires PlanFits(plan) && arrivals != [] && Schedule(plan, arrivals) && InTime(arrivals)
    requires !Full(arrivals[..|arrivals| - 1], arrivals[|arrivals| - 1].key)
    ensures var a, out := arrivals[|arrivals| - 1], AddAll(plan, arrivals).1;
            && |out| > 0 && a.key in plan
            && out[|out| - 1] == if Full(arrivals, a.key) then Some(Framing.Join(plan[a.key])) else None
  {
    EachByItself(plan, arrivals);
    hide PlanFits, Schedule, Framing.Join, AddAll, Full, InTime, Completes, Met;
    LastCompletes(arrivals);
  }

  lemma LastCompletes(arrivals: seq<Arrival>)
    requires arrivals != [] && InTime(arrivals)
    requires !Full(arrivals[..|arrivals| - 1], arrivals[|arrivals| - 1].key)
    ensures var before, a := arrivals[..|arrivals| - 1], arrivals[|arrivals| - 1];
            Completes(Met(before, a), a) <==> Full(arrivals, a.key)
  {
    var before, a := arrivals[..|arrivals| - 1], arrivals[|arrivals| - 1];
    assert arrivals == before + [a];
    UnhinderedBefore(before, a, a.key, a.now);
    AllIsUnderWay(before, a.key, a.now);
    GotGrows(before, a, a.key);
    hide FiniteSets.Below, Got, Full, Completes, ProgressOf;
    CompletesWhenFull(before, arrivals, a, Met(before, a));
  }

  lemma CompletesWhenFull(before: seq<Arrival>, arrivals: seq<Arrival>, a: Arrival, p: Progress)
    requires !Full(before, a.key) && Collected(p) == Got(before, a.key) && !HeldUp(p, a)
    requires Got(arrivals, a.key) == Got(before, a.key) + {a.index}
    ensures Completes(p, a) <==> Full(arrivals, a.key)
  {
    hide FiniteSets.Below, Got;
    if a.index in Collected(p) { assert Got(before, a.key) + {a.index} == Got(before, a.key); }
  }

  // ----- What fragmentEnvelope sends -----

  /** The pieces of an encoding join to it, and are all acceptable exactly when the
      MTU cuts it into pieces of at most MAX_FRAGMENT_SIZE. */
  lemma EnvelopePieces(bytes: Bytes, mtu: int)
    ensures Framing.Join(PiecesOf(bytes, mtu)) == bytes
    ensures (forall i :: 0 <= i < |PiecesOf(bytes, mtu)| ==> |PiecesOf(bytes, mtu)[i]| <= MAX_FRAGMENT_SIZE) <==>
            ChunkSize(mtu) <= MAX_FRAGMENT_SIZE || |bytes| <= MAX_FRAGMENT_SIZE
  {
    hide Framing.Pieces, Framing.Slice, Framing.CeilDiv, Framing.Join;
    var size, pieces := ChunkSize(mtu), PiecesOf(bytes, mtu);
    Framing.PiecesJoin(bytes, size, |pieces|);
    Framing.CeilDivCovers(|bytes|, size);
    assert bytes[..|bytes|] == bytes;
    forall i | 0 <= i < |pieces| ensures |pieces[i]| <= size && |pieces[i]| <= |bytes| {
      PieceSize(bytes, size, |pieces|, i);
    }
    if size > MAX_FRAGMENT_SIZE && |bytes| > MAX_FRAGMENT_SIZE {
      PieceSize(bytes, size, |pieces|, 0);
      assert |pieces[0]| > MAX_FRAGMENT_SIZE;
    }
  }

  lemma PieceSize(bytes: Bytes, size: nat, n: nat, i: nat)
    requires i < n
    ensures |Framing.Pieces(bytes, size, n)[i]| <= size && |Framing.Pieces(bytes, size, n)[i]| <= |bytes|
    ensures i == 0 ==> |Framing.Pieces(bytes, size, n)[i]| == Framing.Min(size, |bytes|)
  {
    Framing.PieceAt(bytes, size, n, i);
    assert (i + 1) * size == i * size + size;
  }

  /** The receiver accepts every fragment fragmentEnvelope sends exactly when the
      chunk size, or the whole encoding, is at most MAX_FRAGMENT_SIZE. */
  lemma SentAreAccepted(id: MessageId, bytes: Bytes, mtu: int)
    requires |id.bytes| == 16 && FragmentsOf(id, bytes, mtu).Some?
    ensures (forall i :: 0 <= i < |FragmentsOf(id, bytes, mtu).value| ==>
               Decode(FragmentsOf(id, bytes, mtu).value[i]).Some?) <==>
            ChunkSize(mtu) <= MAX_FRAGMENT_SIZE || |bytes| <= MAX_FRAGMENT_SIZE
  {
    hide Decode, FragmentAt, ChunkSize;
    var pieces, sent := PiecesOf(bytes, mtu), FragmentsOf(id, bytes, mtu).value;
    EnvelopePieces(bytes, mtu);
    hide PiecesOf;
    forall i | 0 <= i < |pieces| ensures Decode(sent[i]).Some? <==> |pieces[i]| <= MAX_FRAGMENT_SIZE {
      FragmentAccepted(id, pieces, i);
    }
  }

  /** An envelope that is never reassembled: 5000 bytes over an MTU that leaves room
      for 4999 are sent as two fragments, of which the receiver refuses the first. */
  lemma RefusedFragment(id: MessageId, bytes: Bytes)
    requires |id.bytes| == 16 && |bytes| == 5000
    ensures FragmentsOf(id, bytes, 4999).Some? && |FragmentsOf(id, bytes, 4999).value| == 2
    ensures Decode(FragmentsOf(id, bytes, 4999).value[0]) == None
  {
    var pieces := PiecesOf(bytes, 4999);
    assert |pieces| == 2;
    PieceSize(bytes, ChunkSize(4999), 2, 0);
    FragmentAccepted(id, pieces, 0);
  }

  /** Every fragment fragmentEnvelope sends fits the MTU exactly when the MTU leaves
      room for the overhead the program reckons with, or is large enough for the last
      fragment of one byte. An encoder may put up to four bytes of tags before the two
      byte strings of a fragment. */
  lemma FragmentsFit(id: MessageId, bytes: Bytes, mtu: int, tags: nat)
    requires |id.bytes| == 16 && FragmentsOf(id, bytes, mtu).Some? && tags <= 4
    requires |bytes| < if tags == 0 then 0x1_0000_0000 else 0x100_0000
    ensures (forall i :: 0 <= i < |FragmentsOf(id, bytes, mtu).value| ==>
               FragmentsOf(id, bytes, mtu).value[i].length + tags <= mtu) <==>
            || bytes == [] || mtu > FRAGMENT_OVERHEAD_ESTIMATE
            || 20 + CborHead(|bytes| - 1) + CborHead(|bytes|) + tags <= mtu
  {
    var pieces, sent := PiecesOf(bytes, mtu), FragmentsOf(id, bytes, mtu).value;
    if mtu > FRAGMENT_OVERHEAD_ESTIMATE {
      forall i | 0 <= i < |pieces| ensures sent[i].length + tags <= mtu { LargeFits(id, bytes, mtu, tags, i); }
    } else {
      forall i | 0 <= i < |bytes|
        ensures |pieces| == |bytes| && sent[i].length == 20 + CborHead(i) + CborHead(|bytes|)
        ensures CborHead(i) <= CborHead(|bytes| - 1)
      {
        OneByteLength(id, bytes, mtu, i);
      }
      if bytes != [] { assert sent[|bytes| - 1].length == 20 + CborHead(|bytes| - 1) + CborHead(|bytes|); }
      assert |pieces| == |bytes| by { OneByteEach(bytes, mtu); }
    }
  }

  lemma OneByteEach(bytes: Bytes, mtu: int)
    requires mtu <= FRAGMENT_OVERHEAD_ESTIMATE
    ensures |PiecesOf(bytes, mtu)| == |bytes|
  {
  }

  lemma OneByteLength(id: MessageId, bytes: Bytes, mtu: int, i: nat)
    requires |id.bytes| == 16 && FragmentsOf(id, bytes, mtu).Some?
    requires mtu <= FRAGMENT_OVERHEAD_ESTIMATE && i < |bytes|
    ensures |PiecesOf(bytes, mtu)| == |bytes|
    ensures FragmentsOf(id, bytes, mtu).value[i].length == 20 + CborHead(i) + CborHead(|bytes|)
  {
    OneByteEach(bytes, mtu);
    Framing.PieceAt(bytes, 1, |bytes|, i);
  }

  lemma LargeFits(id: MessageId, bytes: Bytes, mtu: int, tags: nat, i: nat)
    requires |id.bytes| == 16 && FragmentsOf(id, bytes, mtu).Some? && i < |PiecesOf(bytes, mtu)|
    requires tags <= 4 && |bytes| < if tags == 0 then 0x1_0000_0000 else 0x100_0000
    requires mtu > FRAGMENT_OVERHEAD_ESTIMATE
    ensures FragmentsOf(id, bytes, mtu).value[i].length + tags <= mtu
  {
    hide Framing.Pieces, Framing.CeilDiv;
    var size, n := ChunkSize(mtu), Framing.CeilDiv(|bytes|, ChunkSize(mtu));
    PieceSize(bytes, size, n, i);
    if size >= 0x1_0000 && |bytes| < 0x100_0000 { FewLargePieces(|bytes|, size); }
  }

  lemma FewLargePieces(length: nat, size: nat)
    requires size >= 0x1_0000 && length < 0x100_0000
    ensures Framing.CeilDiv(length, size) <= 0x100
  {
  }

  /** What fragmentEnvelope sends is what the plan delivers. */
  lemma SentIsDelivered(plan: Plan, a: Arrival, bytes: Bytes, mtu: int)
    requires Planned(plan, a) && plan[a.key] == PiecesOf(bytes, mtu) && FragmentsOf(a.key.id, bytes, mtu).Some?
    ensures a.index < |FragmentsOf(a.key.id, bytes, mtu).value|
    ensures WireOf(plan, a) == FragmentsOf(a.key.id, bytes, mtu).value[a.index]
  {
    hide FragmentAt, PiecesOf;
  }

  /** The round trip of an envelope fragmentEnvelope has cut: what comes back is its
      encoding. */
  lemma EnvelopeRoundTrip(plan: Plan, arrivals: seq<Arrival>, bytes: Bytes, mtu: int)
    requires PlanFits(plan) && arrivals != [] && Schedule(plan, arrivals) && InTime(arrivals)
    requires !Full(arrivals[..|arrivals| - 1], arrivals[|arrivals| - 1].key)
    requires PiecesFor(plan, arrivals[|arrivals| - 1].key) == PiecesOf(bytes, mtu)
    ensures var a, out := arrivals[|arrivals| - 1], AddAll(plan, arrivals).1;
            && FragmentsOf(a.key.id, bytes, mtu).Some? && a.index < |FragmentsOf(a.key.id, bytes, mtu).value|
            && WireOf(plan, a) == FragmentsOf(a.key.id, bytes, mtu).value[a.index]
            && |out| > 0 && out[|out| - 1] == if Full(arrivals, a.key) then Some(bytes) else None
  {
    RoundTrip(plan, arrivals);
    EnvelopePieces(bytes, mtu);
    var a := arrivals[|arrivals| - 1];
    assert PiecesFit(a.key, plan[a.key]);
    hide PiecesOf, Framing.Join, AddAll, Full, InTime;
    SentIsDelivered(plan, a, bytes, mtu);
  }
}
