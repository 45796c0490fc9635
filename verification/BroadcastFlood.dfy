/** Flooding of emergency broadcasts (src/routing/routing.ts, handleBroadcastPacket). */
module BroadcastFlood {
  import opened Basics
  import opened Totals
  import B = BroadcastBudget

  /** Which neighbors each relay discovers. */
  type Links = map<NeighborId, seq<NeighborId>>

  /** A broadcast envelope on its way. */
  datatype Frame = Frame(from: NeighborId, to: NeighborId, id: MessageId, ttl: int)

  datatype Start = Start(origin: NeighborId, ttl: int)

  datatype Delivery = Delivery(node: NeighborId, id: MessageId)

  /** Seen records are kept. The last three fields are history. */
  datatype World = World(
    seen: map<NeighborId, set<MessageId>>, flight: seq<Frame>,
    started: map<MessageId, Start>, transmitted: seq<Frame>, handled: seq<Frame>, delivered: seq<Delivery>)

  datatype Event =
    | Originates(node: NeighborId, id: MessageId, ttl: int, up: set<NeighborId>)
    | Arrives(index: nat, headerOk: bool, verified: bool, up: set<NeighborId>)
    | Lost(index: nat)

  function NewWorld(links: Links): World {
    World(map n | n in links :: {}, [], map[], [], [], [])
  }

  function Neighbors(links: Links, n: NeighborId): seq<NeighborId> {
    if n in links then links[n] else []
  }

  /** The frames accepted by the transport when n sends to its neighbors. */
  function Out(n: NeighborId, to: seq<NeighborId>, except: Option<NeighborId>, id: MessageId, ttl: int,
          up: set<NeighborId>): seq<Frame> {
    if to == [] then []
    else
      var last := to[|to| - 1];
      Out(n, to[..|to| - 1], except, id, ttl, up) + if Some(last) != except && last in up
          then [Frame(n, last, id, ttl)] else []
  }

  function Transmit(w: World, frames: seq<Frame>): World {
    w.(flight := w.flight + frames, transmitted := w.transmitted + frames)
  }

  function SeenBy(w: World, n: NeighborId): set<MessageId> {
    if n in w.seen then w.seen[n] else {}
  }

  /** handleBroadcastPacket on a relay of the network; a relay forwards to everyone
      but the sender what it sees for the first time and can verify. */
  function Handle(links: Links, w: World, f: Frame, headerOk: bool, verified: bool, up: set<NeighborId>): World {
    if !headerOk || f.ttl <= 0 || f.id in SeenBy(w, f.to) then w
    else
      var marked := w.(seen := w.seen[f.to := SeenBy(w, f.to) + {f.id}]);
      if !verified then marked
      else
        Transmit(marked.(delivered := w.delivered + [Delivery(f.to, f.id)]),
                 Out(f.to, Neighbors(links, f.to), Some(f.from), f.id, f.ttl - 1, up))
  }

  function Taken(w: World, i: nat): World
    requires i < |w.flight|
  {
    w.(flight := w.flight[..i] + w.flight[i + 1..], handled := w.handled + [w.flight[i]])
  }

  /** Message ids are random, so no id is started twice. */
  function Step(links: Links, w: World, e: Event): World {
    match e
    case Originates(n, id, ttl, up) =>
      if n !in links || id in w.started then w
      else Transmit(w.(started := w.started[id := Start(n, ttl)]), Out(n, Neighbors(links, n), None, id, ttl, up))
    case Arrives(i, headerOk, verified, up) =>
      if i >= |w.flight| then w
      else if w.flight[i].to !in links then Taken(w, i)
      else Handle(links, Taken(w, i), w.flight[i], headerOk, verified, up)
    case Lost(i) =>
      if i >= |w.flight| then w else Taken(w, i)
  }

  function Run(links: Links, events: seq<Event>): World {
    if events == [] then NewWorld(links) else Step(links, Run(links, events[..|events| - 1]), events[|events| - 1])
  }

  // ----- Hops -----

  /** There is a walk of h links from a to b. */
  ghost predicate Reaches(links: Links, a: NeighborId, b: NeighborId, h: nat)
    decreases h
  {
    if h == 0 then a == b
    else exists m :: m in links && Reaches(links, a, m, h - 1) && b in links[m]
  }

  /** A frame has come as many hops as its TTL has lost, and one more. */
  ghost predicate FrameWithin(links: Links, w: World, f: Frame) {
    && f.id in w.started
    && f.ttl <= w.started[f.id].ttl
    && Reaches(links, w.started[f.id].origin, f.to, w.started[f.id].ttl - f.ttl + 1)
  }

  ghost predicate DeliveryWithin(links: Links, w: World, d: Delivery) {
    && d.id in w.started && d.id in SeenBy(w, d.node)
    && exists h: nat :: h <= w.started[d.id].ttl && Reaches(links, w.started[d.id].origin, d.node, h)
  }

  // ----- Counting frames of one id -----

  function Count(id: MessageId, frames: seq<Frame>): nat {
    if frames == [] then 0 else (if frames[0].id == id then 1 else 0) + Count(id, frames[1..])
  }

  /** The degrees of the relays that have seen the id. */
  ghost function SeenDegrees(links: Links, w: World, id: MessageId): map<NeighborId, nat> {
    map n | n in links && id in SeenBy(w, n) :: |links[n]|
  }

  /** The degree of the origin, which may send the message twice. */
  ghost function OriginDegree(links: Links, w: World, id: MessageId): nat {
    if id in w.started then |Neighbors(links, w.started[id].origin)| else 0
  }

  ghost function Degrees(links: Links): map<NeighborId, nat> {
    map n | n in links :: |links[n]|
  }

  ghost predicate Inv(links: Links, w: World) {
    && w.seen.Keys == links.Keys
    && (forall i :: 0 <= i < |w.flight| ==> FrameWithin(links, w, w.flight[i]))
    && (forall i :: 0 <= i < |w.delivered| ==> DeliveryWithin(links, w, w.delivered[i]))
    && (forall i, j :: 0 <= i < j < |w.delivered| ==> w.delivered[i] != w.delivered[j])
  }

  /** Every frame of the id sent so far is in flight or handled, and there are at
      most the origin's neighbors and those of the relays that have seen it. */
  ghost predicate Counted(links: Links, w: World, id: MessageId) {
    && Count(id, w.transmitted) == Count(id, w.flight) + Count(id, w.handled)
    && Count(id, w.transmitted) <= OriginDegree(links, w, id) + Total(SeenDegrees(links, w, id))
  }

  lemma {:induction false} CountAppend(id: MessageId, a: seq<Frame>, b: seq<Frame>)
    ensures Count(id, a + b) == Count(id, a) + Count(id, b)
  {
    if a == [] {
      assert a + b == b;
    } else {
      CountAppend(id, a[1..], b);
      assert (a + b)[1..] == a[1..] + b;
    }
  }

  lemma {:induction false} OutFrames(n: NeighborId, to: seq<NeighborId>, except: Option<NeighborId>, id: MessageId,
          ttl: int, up: set<NeighborId>)
    ensures var out := Out(n, to, except, id, ttl, up);
            && Count(id, out) <= |to|
            && (forall other :: other != id ==> Count(other, out) == 0)
            && (forall i :: 0 <= i < |out| ==> out[i].id == id && out[i].ttl == ttl && out[i].to in to)
  {
    if to != [] {
      var last := to[|to| - 1];
      OutFrames(n, to[..|to| - 1], except, id, ttl, up);
      var here := if Some(last) != except && last in up then [Frame(n, last, id, ttl)] else [];
      var rest := Out(n, to[..|to| - 1], except, id, ttl, up);
      forall x ensures Count(x, rest + here) == Count(x, rest) + (if here != [] && x == id then 1 else 0) {
        CountAppend(x, rest, here);
        if here != [] { assert here[1..] == []; }
      }
      assert Out(n, to, except, id, ttl, up) == rest + here;
    }
  }

  lemma TakenCounts(w: World, i: nat, id: MessageId)
    requires i < |w.flight|
    ensures Count(id, Taken(w, i).flight) + Count(id, Taken(w, i).handled) == Count(id, w.flight) + Count(id, w.handled)
  {
    var a, f, b := w.flight[..i], [w.flight[i]], w.flight[i + 1..];
    assert w.flight == a + (f + b);
    CountAppend(id, a, f + b);
    CountAppend(id, f, b);
    CountAppend(id, a, b);
    CountAppend(id, w.handled, f);
  }

  lemma SendingCounts(w: World, n: NeighborId, to: seq<NeighborId>, except: Option<NeighborId>, sent: MessageId,
          ttl: int, up: set<NeighborId>, id: MessageId)
    requires Count(id, w.transmitted) == Count(id, w.flight) + Count(id, w.handled)
    ensures var next := Transmit(w, Out(n, to, except, sent, ttl, up));
            && Count(id, next.transmitted) == Count(id, next.flight) + Count(id, next.handled)
            && Count(id, next.transmitted) <= Count(id, w.transmitted) + if id == sent then |to| else 0
  {
    hide Count, Out;
    var out := Out(n, to, except, sent, ttl, up);
    OutFrames(n, to, except, sent, ttl, up);
    CountAppend(id, w.flight, out);
    CountAppend(id, w.transmitted, out);
  }

  /** A relay that sees an id for the first time adds its degree. */
  lemma SeeingAddsDegree(links: Links, w: World, n: NeighborId, id: MessageId)
    requires n in links && id !in SeenBy(w, n)
    ensures var next := w.(seen := w.seen[n := SeenBy(w, n) + {id}]);
            && Total(SeenDegrees(links, next, id)) == Total(SeenDegrees(links, w, id)) + |links[n]|
            && (forall other :: other != id ==> SeenDegrees(links, next, other) == SeenDegrees(links, w, other))
  {
    hide Total;
    var next := w.(seen := w.seen[n := SeenBy(w, n) + {id}]);
    assert SeenDegrees(links, next, id) == SeenDegrees(links, w, id)[n := |links[n]|];
    TotalSet(SeenDegrees(links, w, id), n, |links[n]|);
    forall other | other != id ensures SeenDegrees(links, next, other) == SeenDegrees(links, w, other) {
      SameSeen(links, w, n, id, other);
    }
  }

  lemma SameSeen(links: Links, w: World, n: NeighborId, id: MessageId, other: MessageId)
    requires other != id
    ensures SeenDegrees(links, w.(seen := w.seen[n := SeenBy(w, n) + {id}]), other) == SeenDegrees(links, w, other)
  {
  }

  lemma HandleCounts(links: Links, w: World, f: Frame, headerOk: bool, verified: bool, up: set<NeighborId>,
          id: MessageId)
    requires f.to in links && Counted(links, w, id)
    ensures Counted(links, Handle(links, w, f, headerOk, verified, up), id)
  {
    hide Count, Out, Total, SeenDegrees;
    if headerOk && f.ttl > 0 && f.id !in SeenBy(w, f.to) {
      SeeingAddsDegree(links, w, f.to, f.id);
      var marked := w.(seen := w.seen[f.to := SeenBy(w, f.to) + {f.id}]);
      SameDegrees(links, marked, Handle(links, w, f, headerOk, verified, up), id);
      if verified {
        SendingCounts(marked.(delivered := w.delivered + [Delivery(f.to, f.id)]), f.to, links[f.to], Some(f.from),
            f.id, f.ttl - 1, up, id);
      }
    }
  }

  lemma SameDegrees(links: Links, a: World, b: World, id: MessageId)
    requires a.seen == b.seen
    ensures SeenDegrees(links, a, id) == SeenDegrees(links, b, id)
  {
  }

  lemma StepCounts(links: Links, w: World, e: Event, id: MessageId)
    requires Counted(links, w, id)
    ensures Counted(links, Step(links, w, e), id)
  {
    hide Count, Out, Total, SeenDegrees, Handle;
    match e
    case Originates(n, sent, ttl, up) =>
      if n in links && sent !in w.started {
        var next := Step(links, w, e);
        SendingCounts(w.(started := w.started[sent := Start(n, ttl)]), n, links[n], None, sent, ttl, up, id);
        SameDegrees(links, w, next, id);
      }
    case Arrives(i, headerOk, verified, up) =>
      if i < |w.flight| {
        TakenCounts(w, i, id);
        SameDegrees(links, w, Taken(w, i), id);
        if w.flight[i].to in links { HandleCounts(links, Taken(w, i), w.flight[i], headerOk, verified, up, id); }
      }
    case Lost(i) =>
      if i < |w.flight| {
        TakenCounts(w, i, id);
        SameDegrees(links, w, Taken(w, i), id);
      }
  }

  // ----- The invariant -----

  lemma OneFurther(links: Links, w: World, f: Frame, next: Frame)
    requires FrameWithin(links, w, f) && f.to in links
    requires next.id == f.id && next.ttl == f.ttl - 1 && next.to in links[f.to]
    ensures FrameWithin(links, w, next)
  {
  }

  lemma FirstHop(links: Links, w: World, f: Frame)
    requires f.id in w.started && f.ttl == w.started[f.id].ttl
    requires w.started[f.id].origin in links && f.to in links[w.started[f.id].origin]
    ensures FrameWithin(links, w, f)
  {
    assert Reaches(links, w.started[f.id].origin, w.started[f.id].origin, 0);
  }

  /** What is known of a frame or a delivery survives whatever only adds to the past. */
  lemma WithinStays(links: Links, a: World, b: World)
    requires forall id :: id in a.started ==> id in b.started && b.started[id] == a.started[id]
    requires forall n :: SeenBy(a, n) <= SeenBy(b, n)
    ensures forall f :: FrameWithin(links, a, f) ==> FrameWithin(links, b, f)
    ensures forall d :: DeliveryWithin(links, a, d) ==> DeliveryWithin(links, b, d)
  {
    hide Reaches, SeenBy;
  }

  lemma TakenKeepsInv(links: Links, w: World, i: nat)
    requires Inv(links, w) && i < |w.flight|
    ensures Inv(links, Taken(w, i)) && FrameWithin(links, Taken(w, i), w.flight[i])
  {
    hide FrameWithin, DeliveryWithin;
    WithinStays(links, w, Taken(w, i));
  }

  lemma TransmitKeepsInv(links: Links, w: World, frames: seq<Frame>)
    requires Inv(links, w) && forall i :: 0 <= i < |frames| ==> FrameWithin(links, w, frames[i])
    ensures Inv(links, Transmit(w, frames))
  {
    hide FrameWithin, DeliveryWithin;
    WithinStays(links, w, Transmit(w, frames));
  }

  lemma MarkKeepsInv(links: Links, w: World, n: NeighborId, id: MessageId)
    requires Inv(links, w) && n in links
    ensures Inv(links, w.(seen := w.seen[n := SeenBy(w, n) + {id}]))
  {
    hide FrameWithin, DeliveryWithin;
    WithinStays(links, w, w.(seen := w.seen[n := SeenBy(w, n) + {id}]));
  }

  /** A delivery to a relay that had not seen the id is new. */
  lemma DeliverKeepsInv(links: Links, w: World, d: Delivery)
    requires Inv(links, w) && DeliveryWithin(links, w, d)
    requires forall i :: 0 <= i < |w.delivered| ==> w.delivered[i] != d
    ensures Inv(links, w.(delivered := w.delivered + [d]))
  {
    hide FrameWithin, DeliveryWithin;
    WithinStays(links, w, w.(delivered := w.delivered + [d]));
  }

  lemma ArrivalDelivers(links: Links, w: World, f: Frame)
    requires FrameWithin(links, w, f) && f.ttl > 0 && f.id in SeenBy(w, f.to)
    ensures DeliveryWithin(links, w, Delivery(f.to, f.id))
  {
    hide Reaches;
    var h: nat := w.started[f.id].ttl - f.ttl + 1;
    assert h <= w.started[f.id].ttl && Reaches(links, w.started[f.id].origin, f.to, h);
  }

  lemma HandleKeepsInv(links: Links, w: World, f: Frame, headerOk: bool, verified: bool, up: set<NeighborId>)
    requires Inv(links, w) && FrameWithin(links, w, f) && f.to in links
    ensures Inv(links, Handle(links, w, f, headerOk, verified, up))
  {
    hide Inv, FrameWithin, DeliveryWithin, Out;
    if headerOk && f.ttl > 0 && f.id !in SeenBy(w, f.to) {
      var marked := w.(seen := w.seen[f.to := SeenBy(w, f.to) + {f.id}]);
      MarkKeepsInv(links, w, f.to, f.id);
      if verified {
        WithinStays(links, w, marked);
        ArrivalDelivers(links, marked, f);
        UnseenUndelivered(links, w, f.to, f.id);
        DeliverKeepsInv(links, marked, Delivery(f.to, f.id));
        var delivered := marked.(delivered := w.delivered + [Delivery(f.to, f.id)]);
        WithinStays(links, marked, delivered);
        var out := Out(f.to, links[f.to], Some(f.from), f.id, f.ttl - 1, up);
        OutFrames(f.to, links[f.to], Some(f.from), f.id, f.ttl - 1, up);
        forall i | 0 <= i < |out| ensures FrameWithin(links, delivered, out[i]) {
          OneFurther(links, delivered, f, out[i]);
        }
        TransmitKeepsInv(links, delivered, out);
      }
    }
  }

  lemma UnseenUndelivered(links: Links, w: World, n: NeighborId, id: MessageId)
    requires Inv(links, w) && id !in SeenBy(w, n)
    ensures forall i :: 0 <= i < |w.delivered| ==> w.delivered[i] != Delivery(n, id)
  {
    forall i | 0 <= i < |w.delivered| ensures w.delivered[i] != Delivery(n, id) {
      assert DeliveryWithin(links, w, w.delivered[i]);
    }
  }

  lemma StepKeepsInv(links: Links, w: World, e: Event)
    requires Inv(links, w)
    ensures Inv(links, Step(links, w, e))
  {
    hide Inv, FrameWithin, DeliveryWithin, Out, Handle;
    match e
    case Originates(n, id, ttl, up) =>
      if n in links && id !in w.started {
        var started := w.(started := w.started[id := Start(n, ttl)]);
        StartKeepsInv(links, w, id, Start(n, ttl));
        var out := Out(n, links[n], None, id, ttl, up);
        OutFrames(n, links[n], None, id, ttl, up);
        forall i | 0 <= i < |out| ensures FrameWithin(links, started, out[i]) {
          FirstHop(links, started, out[i]);
        }
        TransmitKeepsInv(links, started, out);
      }
    case Arrives(i, headerOk, verified, up) =>
      if i < |w.flight| {
        TakenKeepsInv(links, w, i);
        if w.flight[i].to in links { HandleKeepsInv(links, Taken(w, i), w.flight[i], headerOk, verified, up); }
      }
    case Lost(i) =>
      if i < |w.flight| { TakenKeepsInv(links, w, i); }
  }

  lemma StartKeepsInv(links: Links, w: World, id: MessageId, start: Start)
    requires Inv(links, w) && id !in w.started
    ensures Inv(links, w.(started := w.started[id := start]))
  {
    hide FrameWithin, DeliveryWithin;
    WithinStays(links, w, w.(started := w.started[id := start]));
  }

  lemma {:induction false} Throughout(links: Links, events: seq<Event>, id: MessageId)
    ensures Inv(links, Run(links, events)) && Counted(links, Run(links, events), id)
  {
    hide Step, Inv, Counted;
    if events == [] {
      NewInv(links, id);
    } else {
      Throughout(links, events[..|events| - 1], id);
      StepKeepsInv(links, Run(links, events[..|events| - 1]), events[|events| - 1]);
      StepCounts(links, Run(links, events[..|events| - 1]), events[|events| - 1], id);
    }
  }

  lemma NewInv(links: Links, id: MessageId)
    ensures Inv(links, NewWorld(links)) && Counted(links, NewWorld(links), id)
  {
  }

  // ----- The theorems -----

  /** While seen records are kept, no relay delivers a broadcast twice, and only
      relays within TTL hops of the origin deliver it at all. */
  lemma DeliversOnceAndNear(links: Links, events: seq<Event>, i: nat)
    requires i < |Run(links, events).delivered|
    ensures var w := Run(links, events);
            var d := w.delivered[i];
            && (forall j :: 0 <= j < |w.delivered| && j != i ==> w.delivered[j] != d)
            && d.id in w.started
            && exists h: nat :: h <= w.started[d.id].ttl && Reaches(links, w.started[d.id].origin, d.node, h)
  {
    hide Run, Reaches, FrameWithin;
    var w := Run(links, events);
    Throughout(links, events, w.delivered[i].id);
    assert DeliveryWithin(links, w, w.delivered[i]);
  }

  /** A flood ends: over any run the frames of one broadcast, each of which is
      handled or lost once, number at most the origin's degree plus the sum of all
      degrees. Once so many have been handled nothing is left in flight. */
  lemma FloodEnds(links: Links, events: seq<Event>, id: MessageId)
    ensures var w := Run(links, events);
            var bound := OriginDegree(links, w, id) + Total(Degrees(links));
            && Count(id, w.transmitted) <= bound
            && Count(id, w.handled) + Count(id, w.flight) == Count(id, w.transmitted)
            && (Count(id, w.handled) == bound ==> Count(id, w.flight) == 0)
  {
    hide Run, Count, Total, Inv;
    var w := Run(links, events);
    Throughout(links, events, id);
    TotalMonotone(SeenDegrees(links, w, id), Degrees(links));
  }

  // ----- One relay's part of a flood, as it is kept -----

  class BroadcastRelay {
    const name: NeighborId
    const identity: nat
    const neighbors: seq<NeighborId>
    /** The rate windows, which all relays of a process share. */
    const limiter: B.BroadcastLimiter
    var seen: set<MessageId>
    var sent: seq<Frame>
    var delivered: seq<MessageId>

    constructor (name: NeighborId, identity: nat, neighbors: seq<NeighborId>, limiter: B.BroadcastLimiter)
      ensures this.name == name && this.identity == identity && this.neighbors == neighbors
      ensures this.limiter == limiter && seen == {} && sent == [] && delivered == []
    {
      this.name, this.identity, this.neighbors, this.limiter := name, identity, neighbors, limiter;
      seen, sent, delivered := {}, [], [];
    }

    method SendToNeighbors(except: Option<NeighborId>, id: MessageId, ttl: int, up: set<NeighborId>)
      modifies this`sent
      ensures sent == old(sent) + Out(name, neighbors, except, id, ttl, up)
    {
      for i := 0 to |neighbors|
        invariant sent == old(sent) + Out(name, neighbors[..i], except, id, ttl, up)
      {
        assert neighbors[..i + 1][..i] == neighbors[..i];
        var n := neighbors[i];
        if Some(n) != except && n in up { sent := sent + [Frame(name, n, id, ttl)]; }
      }
      assert neighbors[..|neighbors|] == neighbors;
    }

    /** broadcast(): nothing is sent unless the message may be created; the origin
        does not mark its own message as seen. */
    method Broadcast(content: Bytes, id: MessageId, ttl: int, now: nat, up: set<NeighborId>)
      returns (r: Result<B.BroadcastMessage, B.Error>)
      modifies this`sent, limiter
      ensures r.Ok? <==> |content| <= B.MAX_BROADCAST_CONTENT_BYTES &&
                         B.Consume(B.Purge(old(limiter.creation), now), identity, now).1
      ensures r.Ok? ==> B.Authentic(r.value) && r.value.sender == identity && r.value.content == content
      ensures sent == old(sent) + if r.Ok? then Out(name, neighbors, None, id, ttl, up) else []
      ensures limiter.creation ==
              if |content| > B.MAX_BROADCAST_CONTENT_BYTES then old(limiter.creation)
              else B.Consume(B.Purge(old(limiter.creation), now), identity, now).0
    {
      hide B.Consume, B.Purge, Out;
      r := limiter.CreateBroadcastMessage(identity, content, now);
      if r.Ok? { SendToNeighbors(None, id, ttl, up); }
    }

    /** A packet that is new is marked as seen before its message is verified, and
        verifying an authentic message uses up its origin's budget. */
    method HandleBroadcastPacket(f: Frame, message: B.BroadcastMessage, headerOk: bool, now: nat, up: set<NeighborId>)
      requires f.to == name
      modifies this, limiter
      ensures var windows := B.Purge(old(limiter.receive), now);
              var verified := B.Authentic(message) && B.Consume(windows, message.sender, now).1;
              var w := World(map[name := old(seen)], [], map[], old(sent), [], []);
              var next := Handle(map[name := neighbors], w, f, headerOk, verified, up);
              && seen == next.seen[name] && sent == next.transmitted
              && delivered == old(delivered) + (if next.delivered == [] then [] else [f.id])
              && limiter.receive ==
                 if headerOk && f.ttl > 0 && f.id !in old(seen) && B.Authentic(message)
                 then B.Consume(windows, message.sender, now).0 else old(limiter.receive)
    {
      hide B.Consume, B.Purge, Out;
      if !headerOk || f.ttl <= 0 { return; }
      if f.id in seen { return; }
      seen := seen + {f.id};
      var verified := limiter.VerifyBroadcastMessage(message, now);
      if !verified { return; }
      delivered := delivered + [f.id];
      SendToNeighbors(Some(f.from), f.id, f.ttl - 1, up);
    }
  }
}
