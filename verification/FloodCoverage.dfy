/** Whom a flood reaches when nothing is lost or refused. */
module FloodCoverage {
  import opened Basics
  import opened BroadcastFlood
  import FiniteSets

  /** Every neighbor is a relay of the network. */
  predicate Closed(links: Links) {
    forall n :: n in links ==> forall m :: m in links[n] ==> m in links
  }

  /** The transport accepts what n sends to its neighbors. */
  predicate AllUp(links: Links, n: NeighborId, up: set<NeighborId>) {
    forall m :: m in Neighbors(links, n) ==> m in up
  }

  /** The event neither loses nor refuses a frame of this id. */
  predicate Smooth(links: Links, w: World, e: Event, id: MessageId) {
    match e
    case Originates(n, other, _, up) => other == id ==> AllUp(links, n, up)
    case Arrives(i, headerOk, verified, up) =>
      i < |w.flight| && w.flight[i].id == id ==> headerOk && verified && AllUp(links, w.flight[i].to, up)
    case Lost(i) => i < |w.flight| ==> w.flight[i].id != id
  }

  ghost predicate SmoothRun(links: Links, events: seq<Event>, id: MessageId) {
    forall k :: 0 <= k < |events| ==> Smooth(links, Run(links, events[..k]), events[k], id)
  }

  /** Nothing of this id is in flight. */
  predicate Quiet(w: World, id: MessageId) {
    forall i :: 0 <= i < |w.flight| ==> w.flight[i].id != id
  }

  // ----- What a relay does with a frame -----

  /** What goes out: one frame to every accepting neighbor but the one left out. */
  lemma {:induction false} OutReaches(n: NeighborId, to: seq<NeighborId>, except: Option<NeighborId>, id: MessageId,
          ttl: int, up: set<NeighborId>, m: NeighborId)
    ensures Frame(n, m, id, ttl) in Out(n, to, except, id, ttl, up) <==> m in to && Some(m) != except && m in up
    ensures forall f :: f in Out(n, to, except, id, ttl, up) ==> f == Frame(n, f.to, id, ttl)
  {
    if to != [] { OutReaches(n, to[..|to| - 1], except, id, ttl, up, m); }
  }

  /** A relay that sees an authentic broadcast for the first time, with hops left,
      delivers it, and sends it with one hop less to exactly the neighbors its
      transport reaches, but the one it came from; what it has seen, what has no
      hops left and what is not authentic goes nowhere. */
  lemma HandlesExactly(links: Links, w: World, f: Frame, headerOk: bool, verified: bool, up: set<NeighborId>,
          m: NeighborId)
    ensures var next := Handle(links, w, f, headerOk, verified, up);
            var first := headerOk && f.ttl > 0 && f.id !in SeenBy(w, f.to);
            && (if first && verified then
                  && next.delivered == w.delivered + [Delivery(f.to, f.id)]
                  && exists out: seq<Frame> :: next.flight == w.flight + out && next.transmitted == w.transmitted + out
                       && (Frame(f.to, m, f.id, f.ttl - 1) in out <==>
                           m in Neighbors(links, f.to) && m != f.from && m in up)
                       && (forall g :: g in out ==> g == Frame(f.to, g.to, f.id, f.ttl - 1))
                else next.delivered == w.delivered && next.flight == w.flight && next.transmitted == w.transmitted)
            && (forall n, id :: id in SeenBy(next, n) <==> id in SeenBy(w, n) || (first && n == f.to && id == f.id))
  {
    var to := Neighbors(links, f.to);
    OutReaches(f.to, to, Some(f.from), f.id, f.ttl - 1, up, m);
    var out := Out(f.to, to, Some(f.from), f.id, f.ttl - 1, up);
    hide Out;
    assert Frame(f.to, m, f.id, f.ttl - 1) in out <==> m in to && m != f.from && m in up;
  }

  // ----- What a flood keeps, as long as nothing of it is lost or refused -----

  function SeenRelays(links: Links, w: World, id: MessageId): set<NeighborId> {
    set n | n in links && id in SeenBy(w, n)
  }

  predicate Informed(w: World, id: MessageId, n: NeighborId) {
    id in SeenBy(w, n) || (id in w.started && n == w.started[id].origin)
  }

  /** As many relays have seen the id as the frame has lost hops, and its sender knows. */
  predicate Behind(links: Links, w: World, f: Frame) {
    && f.id in w.started && f.to in links && Informed(w, f.id, f.from)
    && w.started[f.id].ttl - f.ttl <= |SeenRelays(links, w, f.id)|
  }

  ghost predicate FramesBehind(links: Links, w: World, id: MessageId) {
    forall i :: 0 <= i < |w.flight| && w.flight[i].id == id ==> Behind(links, w, w.flight[i])
  }

  /** Whatever was sent with hops left is on its way or was seen where it went. */
  predicate Landed(w: World, id: MessageId) {
    forall f :: f in w.transmitted && f.id == id && f.ttl > 0 ==> f in w.flight || id in SeenBy(w, f.to)
  }

  /** Whoever saw it delivered it. */
  ghost predicate SeenDelivered(w: World, id: MessageId) {
    forall n :: id in SeenBy(w, n) ==> Delivery(n, id) in w.delivered
  }

  ghost predicate Unstarted(w: World, id: MessageId) {
    id !in w.started ==> Quiet(w, id) && (forall f :: f in w.transmitted ==> f.id != id)
                         && forall n :: id !in SeenBy(w, n)
  }

  ghost predicate Flooding(links: Links, w: World, id: MessageId) {
    FramesBehind(links, w, id) && Landed(w, id) && SeenDelivered(w, id) && Unstarted(w, id)
  }

  /** The neighbor m was sent the broadcast with hops left, or knows of it. */
  ghost predicate Told(w: World, id: MessageId, m: NeighborId) {
    Informed(w, id, m) || exists f :: f in w.transmitted && f.id == id && f.to == m && f.ttl > 0
  }

  /** Every neighbor of an informed relay is told. */
  ghost predicate PassedOn(links: Links, w: World, id: MessageId) {
    forall n, m :: Informed(w, id, n) && m in Neighbors(links, n) ==> Told(w, id, m)
  }

  // ----- Steps -----

  /** Frames of other broadcasts do not matter. */
  lemma OthersOnly(links: Links, w: World, next: World, id: MessageId, out: seq<Frame>)
    requires Flooding(links, w, id) && next.flight == w.flight + out && next.transmitted == w.transmitted + out
    requires forall f :: f in out ==> f.id != id
    requires forall n :: id in SeenBy(next, n) <==> id in SeenBy(w, n)
    requires id in next.started <==> id in w.started
    requires id in w.started ==> next.started[id] == w.started[id]
    requires forall d :: d in w.delivered ==> d in next.delivered
    ensures Flooding(links, next, id) && (PassedOn(links, w, id) ==> PassedOn(links, next, id))
  {
    hide SeenBy;
    assert SeenRelays(links, next, id) == SeenRelays(links, w, id);
    forall i | 0 <= i < |next.flight| && next.flight[i].id == id ensures Behind(links, next, next.flight[i]) {
      assert next.flight[i] in out || next.flight[i] == w.flight[i];
    }
    if PassedOn(links, w, id) {
      forall n, m | Informed(next, id, n) && m in Neighbors(links, n) ensures Told(next, id, m) {
        assert Informed(w, id, n) && Told(w, id, m);
      }
    }
  }

  lemma {:induction false} OutAll(n: NeighborId, to: seq<NeighborId>, except: Option<NeighborId>, id: MessageId,
          ttl: int, up: set<NeighborId>)
    ensures var out := Out(n, to, except, id, ttl, up);
            && (forall m :: Frame(n, m, id, ttl) in out <==> m in to && Some(m) != except && m in up)
            && (forall f :: f in out ==> f == Frame(n, f.to, id, ttl))
  {
    var out := Out(n, to, except, id, ttl, up);
    forall m ensures Frame(n, m, id, ttl) in out <==> m in to && Some(m) != except && m in up {
      OutReaches(n, to, except, id, ttl, up, m);
    }
    OutReaches(n, to, except, id, ttl, up, n);
  }

  lemma StartFloods(links: Links, w: World, n: NeighborId, id: MessageId, ttl: int, up: set<NeighborId>)
    requires Closed(links) && Flooding(links, w, id) && n in links && id !in w.started && AllUp(links, n, up)
    ensures var next := Step(links, w, Originates(n, id, ttl, up));
            && Flooding(links, next, id)
            && (ttl > 0 ==> PassedOn(links, next, id))
  {
    var next := Step(links, w, Originates(n, id, ttl, up));
    var out := Out(n, links[n], None, id, ttl, up);
    OutAll(n, links[n], None, id, ttl, up);
    hide Out;
    forall i | 0 <= i < |next.flight| && next.flight[i].id == id ensures Behind(links, next, next.flight[i]) {
      assert next.flight[i] in out;
    }
    if ttl > 0 {
      forall a, m | Informed(next, id, a) && m in Neighbors(links, a) ensures Told(next, id, m) {
        assert id !in SeenBy(w, a) && a == n;
        assert Frame(n, m, id, ttl) in out;
      }
    }
  }

  /** A frame is taken whose relay has seen the id, or that has no hops left. */
  lemma TakenFloods(links: Links, w: World, i: nat, id: MessageId)
    requires Flooding(links, w, id) && i < |w.flight|
    requires w.flight[i].id == id ==> id in SeenBy(w, w.flight[i].to) || w.flight[i].ttl <= 0
    ensures Flooding(links, Taken(w, i), id) && (PassedOn(links, w, id) ==> PassedOn(links, Taken(w, i), id))
  {
    var next, f := Taken(w, i), w.flight[i];
    assert forall n :: SeenBy(next, n) == SeenBy(w, n);
    hide SeenBy;
    assert SeenRelays(links, next, id) == SeenRelays(links, w, id);
    forall k | 0 <= k < |next.flight| ensures next.flight[k] in w.flight {
      assert next.flight[k] == w.flight[if k < i then k else k + 1];
    }
    forall k | 0 <= k < |next.flight| && next.flight[k].id == id ensures Behind(links, next, next.flight[k]) {
      var g := next.flight[k];
      assert g in w.flight && Behind(links, w, g);
    }
    forall g | g in w.flight && g != f ensures g in next.flight { StillFlying(w, i, g); }
    if PassedOn(links, w, id) {
      forall n, m | Informed(next, id, n) && m in Neighbors(links, n) ensures Told(next, id, m) {
        assert Informed(w, id, n) && Told(w, id, m);
      }
    }
  }

  lemma StillFlying(w: World, i: nat, g: Frame)
    requires i < |w.flight| && g in w.flight && g != w.flight[i]
    ensures g in Taken(w, i).flight
  {
    var k :| 0 <= k < |w.flight| && w.flight[k] == g;
    assert Taken(w, i).flight[if k < i then k else k - 1] == g;
  }

  /** A relay that had not seen the id is one more that has. */
  lemma OneMoreSeen(links: Links, w: World, next: World, n: NeighborId, id: MessageId)
    requires n in links && id !in SeenBy(w, n)
    requires forall m :: id in SeenBy(next, m) <==> id in SeenBy(w, m) || m == n
    ensures |SeenRelays(links, next, id)| == |SeenRelays(links, w, id)| + 1
  {
    hide SeenBy;
    assert SeenRelays(links, next, id) == SeenRelays(links, w, id) + {n};
  }

  /** A relay sees the id for the first time, delivers it and sends it on. */
  ghost predicate SeesFirst(links: Links, w: World, i: nat, next: World)
    requires i < |w.flight|
  {
    var f := w.flight[i];
    && f.ttl > 0 && f.id !in SeenBy(w, f.to) && f.to in links
    && (forall m :: f.id in SeenBy(next, m) <==> f.id in SeenBy(w, m) || m == f.to)
    && next.delivered == w.delivered + [Delivery(f.to, f.id)] && next.started == w.started
    && exists out: seq<Frame> ::
         && next.flight == Taken(w, i).flight + out && next.transmitted == w.transmitted + out
         && (forall m :: m in links[f.to] && m != f.from ==> Frame(f.to, m, f.id, f.ttl - 1) in out)
         && (forall g :: g in out ==> g == Frame(f.to, g.to, f.id, f.ttl - 1) && g.to in links[f.to])
  }

  lemma ArrivalSees(links: Links, w: World, i: nat, up: set<NeighborId>)
    requires i < |w.flight| && w.flight[i].to in links && AllUp(links, w.flight[i].to, up)
    requires w.flight[i].ttl > 0 && w.flight[i].id !in SeenBy(w, w.flight[i].to)
    ensures SeesFirst(links, w, i, Step(links, w, Arrives(i, true, true, up)))
  {
    var f, next := w.flight[i], Step(links, w, Arrives(i, true, true, up));
    var out := Out(f.to, links[f.to], Some(f.from), f.id, f.ttl - 1, up);
    OutAll(f.to, links[f.to], Some(f.from), f.id, f.ttl - 1, up);
    hide Out;
    assert next.flight == Taken(w, i).flight + out && next.transmitted == w.transmitted + out;
    forall g | g in out ensures g == Frame(f.to, g.to, f.id, f.ttl - 1) && g.to in links[f.to] {
      assert Frame(f.to, g.to, f.id, f.ttl - 1) in out;
    }
  }

  lemma SightKeepsBehind(links: Links, w: World, i: nat, next: World)
    requires Closed(links) && i < |w.flight| && FramesBehind(links, w, w.flight[i].id) && SeesFirst(links, w, i, next)
    ensures FramesBehind(links, next, w.flight[i].id)
  {
    var f := w.flight[i];
    OneMoreSeen(links, w, next, f.to, f.id);
    assert Behind(links, w, f);
    hide SeenBy, SeenRelays;
    forall k | 0 <= k < |next.flight| && next.flight[k].id == f.id ensures Behind(links, next, next.flight[k]) {
      var g := next.flight[k];
      if k < |w.flight| - 1 {
        assert g == w.flight[if k < i then k else k + 1] && Behind(links, w, g);
      } else {
        assert g == Frame(f.to, g.to, f.id, f.ttl - 1) && g.to in links[f.to];
      }
    }
  }

  lemma SightKeepsLanded(links: Links, w: World, i: nat, next: World)
    requires i < |w.flight| && Landed(w, w.flight[i].id) && SeesFirst(links, w, i, next)
    ensures Landed(next, w.flight[i].id)
  {
    var f := w.flight[i];
    hide SeenBy, Taken;
    forall g | g in next.transmitted && g.id == f.id && g.ttl > 0
      ensures g in next.flight || f.id in SeenBy(next, g.to)
    {
      if g in w.transmitted && g in w.flight && g != f { StillFlying(w, i, g); }
    }
  }

  /** With as many hops as there are relays, the last hop is lost only where all
      relays have seen it. */
  lemma SightPassesOn(links: Links, w: World, i: nat, next: World)
    requires Closed(links) && i < |w.flight| && SeesFirst(links, w, i, next)
    requires PassedOn(links, w, w.flight[i].id) && FramesBehind(links, w, w.flight[i].id)
    requires w.flight[i].id in w.started && w.started[w.flight[i].id].ttl >= |links|
    ensures PassedOn(links, next, w.flight[i].id)
  {
    var f := w.flight[i];
    var id := f.id;
    assert Behind(links, w, f);
    OneMoreSeen(links, w, next, f.to, id);
    hide SeenBy, SeenRelays;
    forall n, m | Informed(next, id, n) && m in Neighbors(links, n) ensures Told(next, id, m) {
      if n != f.to {
        assert Informed(w, id, n) && Told(w, id, m);
      } else if m == f.from {
        assert Informed(w, id, m);
      } else if f.ttl > 1 {
        assert Frame(f.to, m, id, f.ttl - 1) in next.transmitted;
      } else {
        AllSeen(links, next, id, m);
      }
    }
  }

  lemma AllSeen(links: Links, w: World, id: MessageId, m: NeighborId)
    requires m in links && |SeenRelays(links, w, id)| >= |links|
    ensures id in SeenBy(w, m)
  {
    hide SeenBy;
    assert |links| == |links.Keys|;
    FiniteSets.SmallerSubset(SeenRelays(links, w, id), links.Keys);
    FiniteSets.FullSubset(SeenRelays(links, w, id), links.Keys);
  }

  /** An arrival of the flood's own frames. */
  lemma ArrivalFloods(links: Links, w: World, i: nat, up: set<NeighborId>)
    requires Closed(links) && i < |w.flight| && Flooding(links, w, w.flight[i].id)
    requires AllUp(links, w.flight[i].to, up)
    ensures var next, id := Step(links, w, Arrives(i, true, true, up)), w.flight[i].id;
            && Flooding(links, next, id) && next.started == w.started
            && (PassedOn(links, w, id) && id in w.started && w.started[id].ttl >= |links| ==> PassedOn(links, next, id))
  {
    var f, next := w.flight[i], Step(links, w, Arrives(i, true, true, up));
    assert Behind(links, w, f);
    if f.ttl > 0 && f.id !in SeenBy(w, f.to) {
      ArrivalSees(links, w, i, up);
      SightKeepsBehind(links, w, i, next);
      SightKeepsLanded(links, w, i, next);
      if PassedOn(links, w, f.id) && w.started[f.id].ttl >= |links| { SightPassesOn(links, w, i, next); }
      hide SeenBy, Step, Taken, FramesBehind, Landed;
    } else {
      TakenFloods(links, w, i, f.id);
      assert SeenBy(Taken(w, i), f.to) == SeenBy(w, f.to);
      hide SeenBy, Out, Taken, Flooding, PassedOn;
    }
  }

  /** An arrival of another broadcast's frame. */
  lemma OtherArrival(links: Links, w: World, i: nat, headerOk: bool, verified: bool, up: set<NeighborId>,
          id: MessageId)
    requires i < |w.flight| && w.flight[i].id != id && Flooding(links, w, id)
    ensures var next := Step(links, w, Arrives(i, headerOk, verified, up));
            && Flooding(links, next, id) && next.started == w.started
            && (PassedOn(links, w, id) ==> PassedOn(links, next, id))
  {
    var f, taken := w.flight[i], Taken(w, i);
    TakenFloods(links, w, i, id);
    if f.to in links {
      var next := Handle(links, taken, f, headerOk, verified, up);
      HandlesExactly(links, taken, f, headerOk, verified, up, f.to);
      hide Flooding, PassedOn, Handle, Out;
      var out: seq<Frame> :| next.flight == taken.flight + out && next.transmitted == taken.transmitted + out
                             && forall g :: g in out ==> g.id != id;
      OthersOnly(links, taken, next, id, out);
    }
  }

  /** What a flood keeps; with enough hops, that informed relays tell all neighbors. */
  ghost predicate Spreading(links: Links, w: World, id: MessageId) {
    && Flooding(links, w, id)
    && (id in w.started && w.started[id].ttl >= |links| ==> PassedOn(links, w, id))
  }

  lemma OtherStarts(links: Links, w: World, n: NeighborId, sent: MessageId, ttl: int, up: set<NeighborId>,
          id: MessageId)
    requires n in links && sent !in w.started && sent != id && Flooding(links, w, id)
    ensures var next := Step(links, w, Originates(n, sent, ttl, up));
            Flooding(links, next, id) && (PassedOn(links, w, id) ==> PassedOn(links, next, id))
  {
    var out := Out(n, links[n], None, sent, ttl, up);
    OutAll(n, links[n], None, sent, ttl, up);
    hide Flooding, PassedOn, Out;
    OthersOnly(links, w, Step(links, w, Originates(n, sent, ttl, up)), id, out);
  }

  lemma StepSpreads(links: Links, w: World, e: Event, id: MessageId)
    requires Closed(links) && Spreading(links, w, id) && Smooth(links, w, e, id)
    ensures Spreading(links, Step(links, w, e), id)
  {
    hide Flooding, PassedOn, AllUp, Handle, Out;
    match e
    case Originates(n, sent, ttl, up) =>
      if n in links && sent !in w.started {
        if sent == id {
          LinksCount(links, n);
          StartFloods(links, w, n, id, ttl, up);
        } else {
          OtherStarts(links, w, n, sent, ttl, up, id);
        }
      }
    case Arrives(i, headerOk, verified, up) =>
      if i < |w.flight| {
        if w.flight[i].id == id {
          ArrivalFloods(links, w, i, up);
        } else {
          OtherArrival(links, w, i, headerOk, verified, up, id);
        }
      }
    case Lost(i) =>
      if i < |w.flight| { TakenFloods(links, w, i, id); }
  }

  lemma LinksCount(links: Links, n: NeighborId)
    requires n in links
    ensures |links| > 0
  {
  }

  lemma PrefixSmooth(links: Links, events: seq<Event>, k: nat, id: MessageId)
    requires k <= |events| && SmoothRun(links, events, id)
    ensures SmoothRun(links, events[..k], id)
  {
    hide Run, Smooth;
    var before := events[..k];
    forall j | 0 <= j < |before| ensures Smooth(links, Run(links, before[..j]), before[j], id) {
      assert before[..j] == events[..j] && before[j] == events[j];
    }
  }

  lemma {:induction false} RunSpreads(links: Links, events: seq<Event>, id: MessageId)
    requires Closed(links) && SmoothRun(links, events, id)
    ensures Spreading(links, Run(links, events), id)
    decreases |events|
  {
    hide Step, Flooding, PassedOn, Smooth;
    if events == [] {
      NothingYet(links, id);
    } else {
      var before := events[..|events| - 1];
      PrefixSmooth(links, events, |before|, id);
      RunSpreads(links, before, id);
      assert events[..|events| - 1] == before;
      StepSpreads(links, Run(links, before), events[|events| - 1], id);
    }
  }

  lemma NothingYet(links: Links, id: MessageId)
    ensures Spreading(links, NewWorld(links), id)
  {
  }

  // ----- The theorems -----

  /** Whoever is reached by a walk from an informed relay is informed, once nothing is
      in flight. */
  lemma {:induction false} WalkInforms(links: Links, w: World, id: MessageId, n: NeighborId, h: nat)
    requires Flooding(links, w, id) && PassedOn(links, w, id) && Quiet(w, id) && id in w.started
    requires Reaches(links, w.started[id].origin, n, h)
    ensures Informed(w, id, n)
    decreases h
  {
    hide SeenBy;
    if h > 0 {
      var m :| m in links && Reaches(links, w.started[id].origin, m, h - 1) && n in links[m];
      WalkInforms(links, w, id, m, h - 1);
      assert Told(w, id, n);
    }
  }

  /** Coverage. When nothing of a broadcast was lost or refused and nothing of it is
      left in flight, every relay the origin reaches has delivered it, as long as its
      TTL is at least the number of relays: then a longer path that comes first
      costs nothing. */
  lemma EveryoneDelivers(links: Links, events: seq<Event>, id: MessageId, n: NeighborId, h: nat)
    requires Closed(links) && SmoothRun(links, events, id)
    requires var w := Run(links, events);
             && id in w.started && w.started[id].ttl >= |links| && Quiet(w, id)
             && n != w.started[id].origin && Reaches(links, w.started[id].origin, n, h)
    ensures Delivery(n, id) in Run(links, events).delivered
  {
    hide Run, SmoothRun, Reaches, PassedOn;
    RunSpreads(links, events, id);
    WalkInforms(links, Run(links, events), id, n, h);
  }

  lemma {:induction false} SentStays(links: Links, events: seq<Event>, k: nat, f: Frame)
    requires k <= |events| && f in Run(links, events[..k]).transmitted
    ensures f in Run(links, events).transmitted
    decreases |events| - k
  {
    hide Run, Out;
    if k == |events| {
      assert events[..k] == events;
    } else {
      StepSends(links, events, k);
      SentStays(links, events, k + 1, f);
    }
  }

  lemma {:induction false} InformedStays(links: Links, events: seq<Event>, k: nat, id: MessageId, n: NeighborId)
    requires k <= |events| && Informed(Run(links, events[..k]), id, n)
    ensures Informed(Run(links, events), id, n)
    decreases |events| - k
  {
    hide Run, Out, Informed;
    if k == |events| {
      assert events[..k] == events;
    } else {
      StepInforms(links, events, k, id, n);
      InformedStays(links, events, k + 1, id, n);
    }
  }

  lemma StepInforms(links: Links, events: seq<Event>, k: nat, id: MessageId, n: NeighborId)
    requires k < |events| && Informed(Run(links, events[..k]), id, n)
    ensures Informed(Run(links, events[..k + 1]), id, n)
  {
    hide Out;
    assert events[..k + 1][..|events[..k + 1]| - 1] == events[..k];
  }

  lemma StepSends(links: Links, events: seq<Event>, k: nat)
    requires k < |events|
    ensures Run(links, events[..k]).transmitted <= Run(links, events[..k + 1]).transmitted
  {
    hide Out;
    assert events[..k + 1][..|events[..k + 1]| - 1] == events[..k];
  }

  /** With any TTL: of a relay that saw the broadcast for the first time with hops left
      beyond the next, and so delivered it, every neighbor has seen it in the end, but
      perhaps the origin. */
  lemma NeighborsSee(links: Links, events: seq<Event>, k: nat, id: MessageId, m: NeighborId)
    requires Closed(links) && SmoothRun(links, events, id) && Quiet(Run(links, events), id)
    requires k < |events| && events[k].Arrives? && events[k].index < |Run(links, events[..k]).flight|
    requires var w := Run(links, events[..k]);
             var f := w.flight[events[k].index];
             && f.id == id && f.ttl > 1 && id !in SeenBy(w, f.to) && m in Neighbors(links, f.to)
    ensures var f := Run(links, events[..k]).flight[events[k].index];
            Delivery(f.to, id) in Run(links, events[..k + 1]).delivered
    ensures Informed(Run(links, events), id, m)
  {
    var w := Run(links, events[..k]);
    var i := events[k].index;
    var f := w.flight[i];
    PrefixSmooth(links, events, k, id);
    RunSpreads(links, events, id);
    RunSpreads(links, events[..k], id);
    assert events[..k + 1][..|events[..k + 1]| - 1] == events[..k];
    assert Behind(links, w, f) && Smooth(links, w, events[k], id);
    ArrivalSees(links, w, i, events[k].up);
    hide Run, SmoothRun, Step, SeenBy, Neighbors;
    if m == f.from {
      InformedStays(links, events, k, id, m);
    } else {
      SentStays(links, events, k + 1, Frame(f.to, m, id, f.ttl - 1));
    }
  }

  lemma OutOne(n: NeighborId, m: NeighborId, except: Option<NeighborId>, id: MessageId, ttl: int,
          up: set<NeighborId>)
    requires m in up && Some(m) != except
    ensures Out(n, [m], except, id, ttl, up) == [Frame(n, m, id, ttl)]
    ensures forall k :: k in up && Some(k) != except ==>
              Out(n, [m, k], except, id, ttl, up) == [Frame(n, m, id, ttl), Frame(n, k, id, ttl)]
  {
    assert [m][..0] == [];
    forall k ensures [m, k][..1] == [m] { }
  }

  /** Four relays: o is linked to y and x, y to x, x to z. */
  datatype Four = Four(o: NeighborId, x: NeighborId, y: NeighborId, z: NeighborId, id: MessageId) {
    predicate Distinct() { o != x && o != y && o != z && x != y && x != z && y != z }

    function Links(): Links { map[o := [y, x], y := [x], x := [z], z := []] }

    function All(): set<NeighborId> { {o, x, y, z} }

    /** o's frame comes to y, then y's to x, before o's own. */
    function Events(): seq<Event> {
      [Originates(o, id, 2, All()), Arrives(0, true, true, All()), Arrives(1, true, true, All()),
       Arrives(0, true, true, All()), Arrives(0, true, true, All())]
    }

    function Sent(): seq<Frame> {
      [Frame(o, y, id, 2), Frame(o, x, id, 2), Frame(y, x, id, 1), Frame(x, z, id, 0)]
    }

    /** The network after the first k events. */
    function At(k: nat): World {
      var s := Sent();
      var seen := map[o := {}, y := if k >= 2 then {id} else {}, x := if k >= 3 then {id} else {}, z := {}];
      var started := if k >= 1 then map[id := Start(o, 2)] else map[];
      var delivered := (if k >= 2 then [Delivery(y, id)] else []) + if k >= 3 then [Delivery(x, id)] else [];
      match k
      case 0 => World(seen, [], started, [], [], delivered)
      case 1 => World(seen, [s[0], s[1]], started, s[..2], [], delivered)
      case 2 => World(seen, [s[1], s[2]], started, s[..3], [s[0]], delivered)
      case 3 => World(seen, [s[1], s[3]], started, s, [s[0], s[2]], delivered)
      case 4 => World(seen, [s[3]], started, s, [s[0], s[2], s[1]], delivered)
      case _ => World(seen, [], started, s, [s[0], s[2], s[1], s[3]], delivered)
    }
  }

  predicate Stepped(four: Four, k: nat)
    requires k < 5
  {
    && Step(four.Links(), four.At(k), four.Events()[k]) == four.At(k + 1)
    && Smooth(four.Links(), four.At(k), four.Events()[k], four.id)
  }

  lemma FourStarts(four: Four)
    requires four.Distinct()
    ensures Stepped(four, 0)
  {
    OutOne(four.o, four.y, None, four.id, 2, four.All());
    hide Out;
    assert four.Sent()[..2] == [four.Sent()[0], four.Sent()[1]];
  }

  lemma FourSeesY(four: Four)
    requires four.Distinct()
    ensures Stepped(four, 1)
  {
    OutOne(four.y, four.x, Some(four.o), four.id, 1, four.All());
    hide Out;
    var s := four.Sent();
    assert four.At(1).flight[..0] + four.At(1).flight[1..] == [s[1]];
    assert s[..2] + [s[2]] == s[..3];
    var next, w := Step(four.Links(), four.At(1), four.Events()[1]), four.At(2);
    assert SeenBy(four.At(1), four.y) + {four.id} == {four.id};
    assert next.seen == w.seen;
    assert next.flight == w.flight && next.handled == w.handled;
    assert next.delivered == w.delivered && next.transmitted == w.transmitted && next.started == w.started;
  }

  lemma FourSeesX(four: Four)
    requires four.Distinct()
    ensures Stepped(four, 2)
  {
    OutOne(four.x, four.z, Some(four.y), four.id, 0, four.All());
    hide Out;
    var s := four.Sent();
    assert four.At(2).flight[..1] + four.At(2).flight[2..] == [s[1]];
    assert s[..3] + [s[3]] == s;
    var next, w := Step(four.Links(), four.At(2), four.Events()[2]), four.At(3);
    assert SeenBy(four.At(2), four.x) + {four.id} == {four.id};
    assert next.seen == w.seen;
    assert next.flight == w.flight && next.handled == w.handled;
    assert next.delivered == w.delivered && next.transmitted == w.transmitted && next.started == w.started;
  }

  lemma FourDrops(four: Four, k: nat)
    requires four.Distinct() && 3 <= k < 5
    ensures Stepped(four, k)
  {
    hide Out;
    var w := four.At(k);
    assert w.flight[..0] + w.flight[1..] == four.At(k + 1).flight;
  }

  lemma FourStep(four: Four, k: nat)
    requires four.Distinct() && k < 5
    ensures Stepped(four, k)
  {
    hide Stepped;
    if k == 0 { FourStarts(four); } else if k == 1 { FourSeesY(four); } else if k == 2 { FourSeesX(four); }
    else { FourDrops(four, k); }
  }

  lemma {:induction false} FourRun(four: Four, k: nat)
    requires four.Distinct() && k <= 5
    ensures Run(four.Links(), four.Events()[..k]) == four.At(k)
    decreases k
  {
    hide Step, Smooth;
    if k > 0 {
      FourRun(four, k - 1);
      FourStep(four, k - 1);
      assert four.Events()[..k][..k - 1] == four.Events()[..k - 1];
    }
  }

  /** With fewer hops a relay within reach may miss the broadcast: o sends with two
      hops, x sees y's frame first and with its last hop, and cannot pass it on to z,
      two hops from o. */
  lemma LongerPathFirst(four: Four)
    requires four.Distinct()
    ensures var w := Run(four.Links(), four.Events());
            && Closed(four.Links()) && SmoothRun(four.Links(), four.Events(), four.id) && Quiet(w, four.id)
            && four.id in w.started && w.started[four.id].ttl == 2 && Reaches(four.Links(), four.o, four.z, 2)
            && Delivery(four.z, four.id) !in w.delivered
  {
    hide Run, Smooth, Step;
    FourRun(four, 5);
    assert four.Events()[..5] == four.Events();
    forall k | 0 <= k < 5 ensures Smooth(four.Links(), Run(four.Links(), four.Events()[..k]), four.Events()[k], four.id)
    {
      FourRun(four, k);
      FourStep(four, k);
    }
    FourReach(four);
    hide Reaches;
  }

  lemma FourReach(four: Four)
    requires four.Distinct()
    ensures Reaches(four.Links(), four.o, four.z, 2)
  {
    var links := four.Links();
    assert four.x in links[four.o] && four.z in links[four.x];
    assert Reaches(four.Links(), four.o, four.o, 0);
    assert Reaches(four.Links(), four.o, four.x, 1);
  }
}
