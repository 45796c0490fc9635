/**
  A network of relays and the frames between them. Links may lose frames and may
  carry forged ones, but do not copy them.
 */
module MeshNetwork {
  import opened Basics
  import opened OrderedMaps
  import opened Totals
  import opened Envelopes
  import opened RouteTable
  import opened Relay
  import opened MeshAccounting
  import Q = ForwardQueue

  datatype Frame = Frame(from: NeighborId, to: NeighborId, envelope: Envelope)

  /** The relays, the frames in flight, and what has become of everything else. */
  datatype World = World(
    nodes: map<NeighborId, Node>, flight: seq<Frame>,
    delivered: seq<Envelope>, dropped: seq<Envelope>, transmitted: seq<Envelope>)

  datatype NetEvent =
    | Calls(node: NeighborId, event: NodeEvent, now: nat)
    | Arrives(index: nat, now: nat, up: bool)
    | Lost(index: nat)
    | Forged(frame: Frame)

  function NewWorld(identities: map<NeighborId, nat>): World {
    World(map n | n in identities :: NewNode(identities[n]), [], [], [], [])
  }

  function FramesOf(from: NeighborId, sent: seq<Transmission>): seq<Frame> {
    if sent == [] then [] else [Frame(from, sent[0].to, sent[0].envelope)] + FramesOf(from, sent[1..])
  }

  function EnvelopesOf(sent: seq<Transmission>): seq<Envelope> {
    if sent == [] then [] else [sent[0].envelope] + EnvelopesOf(sent[1..])
  }

  function CallNode(w: World, n: NeighborId, event: NodeEvent, now: nat): World
    requires n in w.nodes
  {
    var (next, effects) := NodeStep(w.nodes[n], event, now);
    World(w.nodes[n := next], w.flight + FramesOf(n, effects.sent),
          w.delivered + effects.delivered, w.dropped + effects.dropped, w.transmitted + EnvelopesOf(effects.sent))
  }

  function WithoutFrame(w: World, i: nat): World
    requires i < |w.flight|
  {
    w.(flight := w.flight[..i] + w.flight[i + 1..])
  }

  function NetStep(w: World, event: NetEvent): World {
    match event
    case Calls(n, e, now) => if n in w.nodes then CallNode(w, n, e, now) else w
    case Forged(frame) => w.(flight := w.flight + [frame])
    case Lost(i) =>
      if i < |w.flight| then WithoutFrame(w, i).(dropped := w.dropped + [w.flight[i].envelope]) else w
    case Arrives(i, now, up) =>
      if i >= |w.flight| then w
      else
        var frame := w.flight[i];
        var rest := WithoutFrame(w, i);
        if frame.to in w.nodes then CallNode(rest, frame.to, Receives(frame.envelope, Some(frame.from), up), now)
        else rest.(dropped := w.dropped + [frame.envelope])
  }

  function NetRun(identities: map<NeighborId, nat>, events: seq<NetEvent>): World {
    if events == [] then NewWorld(identities)
    else NetStep(NetRun(identities, events[..|events| - 1]), events[|events| - 1])
  }

  // ----- Totals over the network -----

  function FlightSum(m: Measure, flight: seq<Frame>): nat {
    if flight == [] then 0 else Weigh(m, flight[0].envelope) + FlightSum(m, flight[1..])
  }

  function CostSum(m: Measure, sent: seq<Envelope>): nat {
    if sent == [] then 0 else Cost(m, sent[0]) + CostSum(m, sent[1..])
  }

  ghost function NodeSums(m: Measure, nodes: map<NeighborId, Node>): map<NeighborId, nat> {
    map n | n in nodes :: QueueSum(m, nodes[n].queue)
  }

  ghost function Queued(m: Measure, w: World): nat {
    Total(NodeSums(m, w.nodes))
  }

  /** What is in flight, queued, delivered or dropped. */
  ghost function Placed(m: Measure, w: World): nat {
    FlightSum(m, w.flight) + Queued(m, w) + Sum(m, w.delivered) + Sum(m, w.dropped)
  }

  /** Where everything measured is: in one of those places, or spent. */
  ghost function Everywhere(m: Measure, w: World): nat {
    Placed(m, w) + CostSum(m, w.transmitted)
  }

  /** What the events put into the network. Arrivals and losses bring nothing. */
  ghost function BroughtBy(m: Measure, w: World, event: NetEvent): nat {
    match event
    case Calls(n, e, now) => if n in w.nodes then Brought(m, w.nodes[n], e, now) else 0
    case Forged(frame) => Weigh(m, frame.envelope)
    case _ => 0
  }

  ghost function BroughtIn(m: Measure, identities: map<NeighborId, nat>, events: seq<NetEvent>): nat {
    if events == [] then 0
    else
      var before := events[..|events| - 1];
      BroughtIn(m, identities, before) + BroughtBy(m, NetRun(identities, before), events[|events| - 1])
  }

  /** Every relay's queue is within its quotas. */
  ghost predicate QueuesInv(w: World) {
    forall n :: n in w.nodes ==> Q.QueueInv(w.nodes[n].queue)
  }

  lemma {:induction false} FlightAppend(m: Measure, a: seq<Frame>, b: seq<Frame>)
    ensures FlightSum(m, a + b) == FlightSum(m, a) + FlightSum(m, b)
  {
    if a == [] {
      assert a + b == b;
    } else {
      FlightAppend(m, a[1..], b);
      assert (a + b)[1..] == a[1..] + b;
    }
  }

  lemma {:induction false} CostAppend(m: Measure, a: seq<Envelope>, b: seq<Envelope>)
    ensures CostSum(m, a + b) == CostSum(m, a) + CostSum(m, b)
  {
    if a == [] {
      assert a + b == b;
    } else {
      CostAppend(m, a[1..], b);
      assert (a + b)[1..] == a[1..] + b;
    }
  }

  lemma {:induction false} SentSplit(m: Measure, n: NeighborId, sent: seq<Transmission>)
    ensures FlightSum(m, FramesOf(n, sent)) + CostSum(m, EnvelopesOf(sent)) == SumSent(m, sent)
  {
    if sent != [] {
      SentSplit(m, n, sent[1..]);
      assert FramesOf(n, sent)[1..] == FramesOf(n, sent[1..]);
      assert EnvelopesOf(sent)[1..] == EnvelopesOf(sent[1..]);
    }
  }

  lemma FrameTaken(m: Measure, w: World, i: nat)
    requires i < |w.flight|
    ensures FlightSum(m, w.flight) == FlightSum(m, WithoutFrame(w, i).flight) + Weigh(m, w.flight[i].envelope)
  {
    hide Weigh;
    var before, at, after := w.flight[..i], [w.flight[i]], w.flight[i + 1..];
    assert w.flight == before + (at + after);
    FlightAppend(m, before, at + after);
    FlightAppend(m, at, after);
    FlightAppend(m, before, after);
    assert at[1..] == [];
  }

  // ----- Steps -----

  lemma CallBalances(m: Measure, w: World, n: NeighborId, event: NodeEvent, now: nat)
    requires QueuesInv(w) && n in w.nodes
    ensures var next := CallNode(w, n, event, now);
            && Everywhere(m, next) <= Everywhere(m, w) + Brought(m, w.nodes[n], event, now)
            && (!m.Hops? ==> Everywhere(m, next) == Everywhere(m, w) + Brought(m, w.nodes[n], event, now))
            && QueuesInv(next)
  {
    hide NodeStep, Total, QueueSum, Sum, SumSent, CostSum, FlightSum, Brought, Q.QueueInv, FramesOf, EnvelopesOf;
    var node := w.nodes[n];
    StepBalances(m, node, event, now);
    var (next, effects) := NodeStep(node, event, now);
    SentSplit(m, n, effects.sent);
    FlightAppend(m, w.flight, FramesOf(n, effects.sent));
    CostAppend(m, w.transmitted, EnvelopesOf(effects.sent));
    SumAppend(m, w.delivered, effects.delivered);
    SumAppend(m, w.dropped, effects.dropped);
    TotalSet(NodeSums(m, w.nodes), n, QueueSum(m, next.queue));
    assert NodeSums(m, w.nodes[n := next]) == NodeSums(m, w.nodes)[n := QueueSum(m, next.queue)];
  }

  lemma StepConserves(m: Measure, w: World, event: NetEvent)
    requires QueuesInv(w)
    ensures var next := NetStep(w, event);
            && Everywhere(m, next) <= Everywhere(m, w) + BroughtBy(m, w, event)
            && (!m.Hops? ==> Everywhere(m, next) == Everywhere(m, w) + BroughtBy(m, w, event))
            && QueuesInv(next)
  {
    hide CallNode, Queued, Sum, FlightSum, CostSum, Brought, Weigh, QueuesInv;
    match event
    case Calls(n, e, now) => if n in w.nodes { CallBalances(m, w, n, e, now); }
    case Forged(frame) =>
      FlightAppend(m, w.flight, [frame]);
      FlightOne(m, frame);
      SameNodes(m, w, NetStep(w, event));
    case Lost(i) =>
      if i < |w.flight| {
        FrameTaken(m, w, i);
        SumAppend(m, w.dropped, [w.flight[i].envelope]);
        SumOne(m, w.flight[i].envelope);
        SameNodes(m, w, NetStep(w, event));
      }
    case Arrives(i, now, up) =>
      if i < |w.flight| {
        var frame, rest := w.flight[i], WithoutFrame(w, i);
        FrameTaken(m, w, i);
        SameNodes(m, w, rest);
        if frame.to in w.nodes {
          CallBalances(m, rest, frame.to, Receives(frame.envelope, Some(frame.from), up), now);
          ArrivalBrings(m, w.nodes[frame.to], frame, up, now);
        } else {
          SumAppend(m, w.dropped, [frame.envelope]);
          SumOne(m, frame.envelope);
          SameNodes(m, w, NetStep(w, event));
        }
      }
  }

  lemma ArrivalBrings(m: Measure, node: Node, frame: Frame, up: bool, now: nat)
    ensures Brought(m, node, Receives(frame.envelope, Some(frame.from), up), now) == Weigh(m, frame.envelope)
  {
  }

  lemma FlightOne(m: Measure, frame: Frame)
    ensures FlightSum(m, [frame]) == Weigh(m, frame.envelope)
  {
    assert [frame][1..] == [];
  }

  lemma SameNodes(m: Measure, a: World, b: World)
    requires a.nodes == b.nodes && QueuesInv(a)
    ensures Queued(m, a) == Queued(m, b) && QueuesInv(b)
  {
  }

  lemma {:induction false} NewWorldIsEmpty(m: Measure, sums: map<NeighborId, nat>)
    requires forall n :: n in sums ==> sums[n] == 0
    ensures Total(sums) == 0
    decreases |sums|
  {
    if sums != map[] {
      var n :| n in sums;
      TotalOf(sums, n);
      NewWorldIsEmpty(m, sums - {n});
    }
  }

  /** The books of the whole network balance in every run: of copies, everything
      put in is somewhere; of hops, what is left and what was made never exceeds
      what was put in. All queues stay within their quotas. */
  lemma {:induction false} BooksBalance(m: Measure, identities: map<NeighborId, nat>, events: seq<NetEvent>)
    ensures var w := NetRun(identities, events);
            && Everywhere(m, w) <= BroughtIn(m, identities, events)
            && (!m.Hops? ==> Everywhere(m, w) == BroughtIn(m, identities, events))
            && QueuesInv(w)
  {
    hide NetStep, Everywhere, BroughtBy;
    if events == [] {
      var w := NewWorld(identities);
      NewBooks(m, identities);
    } else {
      BooksBalance(m, identities, events[..|events| - 1]);
      StepConserves(m, NetRun(identities, events[..|events| - 1]), events[|events| - 1]);
    }
  }

  lemma NewBooks(m: Measure, identities: map<NeighborId, nat>)
    ensures Everywhere(m, NewWorld(identities)) == 0 && QueuesInv(NewWorld(identities))
  {
    hide Total;
    var w := NewWorld(identities);
    NewWorldIsEmpty(m, NodeSums(m, w.nodes));
    forall n ensures Q.FromNeighbor(Q.EMPTY, n) == {} {
    }
  }

  // ----- One envelope, put in once -----

  /** The event puts an envelope with this id into the network. */
  predicate Introduces(event: NetEvent, id: MessageId) {
    match event
    case Calls(_, Receives(e, _, _), _) => e.header.messageId == id
    case Calls(_, Sends(e, _), _) => e.header.messageId == id
    case Calls(_, SendsAck(ack, _, _, _), _) => ack == id
    case Forged(frame) => frame.envelope.header.messageId == id
    case _ => false
  }

  /** Event k, at a relay of the network or on a link, puts the id in; no other
      event does. */
  predicate OnlyAt(identities: map<NeighborId, nat>, events: seq<NetEvent>, k: nat, id: MessageId) {
    && k < |events| && Introduces(events[k], id)
    && (events[k].Calls? ==> events[k].node in identities)
    && (forall j :: 0 <= j < |events| && j != k ==> !Introduces(events[j], id))
  }

  lemma {:induction false} NodesStay(identities: map<NeighborId, nat>, events: seq<NetEvent>)
    ensures NetRun(identities, events).nodes.Keys == identities.Keys
  {
    hide NodeStep;
    if events != [] { NodesStay(identities, events[..|events| - 1]); }
  }

  lemma OthersBringNothing(m: Measure, w: World, event: NetEvent)
    requires !Introduces(event, m.Id())
    ensures BroughtBy(m, w, event) == 0
  {
  }

  lemma {:induction false} BroughtOnce(m: Measure, identities: map<NeighborId, nat>, events: seq<NetEvent>, k: nat)
    requires k <= |events| && forall j :: 0 <= j < |events| && j != k ==> !Introduces(events[j], m.Id())
    ensures BroughtIn(m, identities, events) ==
            if k < |events| then BroughtBy(m, NetRun(identities, events[..k]), events[k]) else 0
    decreases |events|
  {
    hide NetRun, BroughtBy, Introduces;
    if events != [] {
      var before := events[..|events| - 1];
      if k != |before| { OthersBringNothing(m, NetRun(identities, before), events[|before|]); }
      if k < |before| {
        BroughtOnce(m, identities, before, k);
        assert before[..k] == events[..k];
      } else {
        BroughtOnce(m, identities, before, |before|);
      }
    }
  }

  lemma NoCopySpent(m: Measure, sent: seq<Envelope>)
    requires !m.Hops?
    ensures CostSum(m, sent) == 0
  {
  }

  lemma HopsMade(id: MessageId, w: World)
    ensures CostSum(Hops(id), w.transmitted) <= Everywhere(Hops(id), w)
  {
    hide Queued, FlightSum, Sum, CostSum;
  }

  /** The envelope an event puts in, at the moment w. */
  function PutIn(w: World, event: NetEvent): Option<Envelope> {
    match event
    case Calls(_, Receives(e, _, _), _) => Some(e)
    case Calls(_, Sends(e, _), _) => Some(e)
    case Calls(n, SendsAck(id, hint, acknowledged, _), now) =>
      if n in w.nodes then Some(CreateAck(id, hint, acknowledged, w.nodes[n].identity, now)) else None
    case Forged(frame) => Some(frame.envelope)
    case _ => None
  }

  /** Where the books of one measure stand when its id is put in once. */
  lemma PutInOnce(m: Measure, identities: map<NeighborId, nat>, events: seq<NetEvent>, k: nat)
    requires !m.Hops? && OnlyAt(identities, events, k, m.Id())
    ensures PutIn(NetRun(identities, events[..k]), events[k]).Some?
    ensures Everywhere(m, NetRun(identities, events)) ==
            Weigh(m, PutIn(NetRun(identities, events[..k]), events[k]).value)
  {
    hide NetRun, FlightSum, Queued, Sum, CreateAck, Everywhere;
    BooksBalance(m, identities, events);
    BroughtOnce(m, identities, events, k);
    NodesStay(identities, events[..k]);
    BringsItsEnvelope(m, NetRun(identities, events[..k]), events[k]);
  }

  lemma BringsItsEnvelope(m: Measure, w: World, event: NetEvent)
    requires !m.Hops? && Introduces(event, m.Id()) && (event.Calls? ==> event.node in w.nodes)
    ensures PutIn(w, event).Some? && PutIn(w, event).value.header.messageId == m.Id()
    ensures BroughtBy(m, w, event) == Weigh(m, PutIn(w, event).value)
  {
  }

  /** An envelope put in once, under a fresh id, is in exactly one place ever after:
      in flight, in one queue, delivered, or dropped; and what is there is that
      envelope, but for the hops it has left. */
  lemma ExactlyOnePlace(identities: map<NeighborId, nat>, events: seq<NetEvent>, k: nat, id: MessageId)
    requires OnlyAt(identities, events, k, id)
    ensures var w, original := NetRun(identities, events), PutIn(NetRun(identities, events[..k]), events[k]);
            original.Some? && Placed(Copies(id), w) == 1 && Placed(Same(original.value), w) == 1
  {
    hide NetRun, Placed, CreateAck, BroughtBy, CostSum;
    NodesStay(identities, events[..k]);
    BringsItsEnvelope(Copies(id), NetRun(identities, events[..k]), events[k]);
    var w, original := NetRun(identities, events), PutIn(NetRun(identities, events[..k]), events[k]).value;
    PutInOnce(Copies(id), identities, events, k);
    PutInOnce(Same(original), identities, events, k);
    NoCopySpent(Copies(id), w.transmitted);
    NoCopySpent(Same(original), w.transmitted);
  }

  /** An envelope that is in flight, queued, delivered or dropped. */
  ghost predicate Located(w: World, e: Envelope) {
    || (exists i :: 0 <= i < |w.flight| && w.flight[i].envelope == e)
    || (exists n, id :: n in w.nodes && id in w.nodes[n].queue.at && w.nodes[n].queue.at[id].envelope == e)
    || e in w.delivered || e in w.dropped
  }

  lemma {:induction false} SumAtLeast(m: Measure, s: seq<Envelope>, e: Envelope)
    requires e in s
    ensures Sum(m, s) >= Weigh(m, e)
  {
    hide Weigh;
    if s[0] != e { SumAtLeast(m, s[1..], e); }
  }

  lemma {:induction false} OrderAtLeast(m: Measure, order: seq<MessageId>, at: map<MessageId, Q.Stored>, id: MessageId)
    requires id in order && id in at
    ensures OrderSum(m, order, at) >= Weigh(m, at[id].envelope)
  {
    hide Weigh;
    if order[0] != id { OrderAtLeast(m, order[1..], at, id); }
  }

  lemma QueueAtLeast(m: Measure, q: Q.Queue, id: MessageId)
    requires Q.QueueInv(q) && id in q.at
    ensures QueueSum(m, q) >= Weigh(m, q.at[id].envelope)
  {
    OrderAtLeast(m, q.order, q.at, id);
  }

  lemma LocatedWeighs(m: Measure, w: World, e: Envelope)
    requires QueuesInv(w) && Located(w, e)
    ensures Everywhere(m, w) >= Weigh(m, e)
  {
    hide Weigh, FlightSum, Sum, QueueSum, Total, Q.QueueInv, CostSum;
    if i :| 0 <= i < |w.flight| && w.flight[i].envelope == e {
      FlyingWeighs(m, w.flight, i);
    } else if n, id :| n in w.nodes && id in w.nodes[n].queue.at && w.nodes[n].queue.at[id].envelope == e {
      QueueAtLeast(m, w.nodes[n].queue, id);
      TotalOf(NodeSums(m, w.nodes), n);
    } else if e in w.delivered {
      SumAtLeast(m, w.delivered, e);
    } else {
      SumAtLeast(m, w.dropped, e);
    }
  }

  /** Whatever carries the id, wherever it is, is the envelope put in: no relay
      changes anything of it but the hops it has left. */
  lemma CarrierIsOriginal(identities: map<NeighborId, nat>, events: seq<NetEvent>, k: nat, e: Envelope)
    requires OnlyAt(identities, events, k, e.header.messageId) && Located(NetRun(identities, events), e)
    ensures PutIn(NetRun(identities, events[..k]), events[k]).Some?
    ensures SameButTtl(e, PutIn(NetRun(identities, events[..k]), events[k]).value)
  {
    hide NetRun, Located, Everywhere, CreateAck;
    NodesStay(identities, events[..k]);
    BringsItsEnvelope(Copies(e.header.messageId), NetRun(identities, events[..k]), events[k]);
    var original := PutIn(NetRun(identities, events[..k]), events[k]).value;
    PutInOnce(Altered(original), identities, events, k);
    BooksBalance(Altered(original), identities, events);
    LocatedWeighs(Altered(original), NetRun(identities, events), e);
  }

  // ----- One queue, no duplicate -----

  lemma HeldWeighs(id: MessageId, q: Q.Queue)
    requires Q.QueueInv(q) && id in q.at
    ensures QueueSum(Copies(id), q) >= 1
  {
    QueueAtLeast(Copies(id), q, id);
  }

  lemma TotalAtLeast(sums: map<NeighborId, nat>, a: NeighborId, b: NeighborId)
    requires a in sums && b in sums && a != b
    ensures Total(sums) >= sums[a] + sums[b]
  {
    TotalOf(sums, a);
    TotalOf(sums - {a}, b);
  }

  lemma {:induction false} FlyingWeighs(m: Measure, flight: seq<Frame>, i: nat)
    requires i < |flight|
    ensures FlightSum(m, flight) >= Weigh(m, flight[i].envelope)
  {
    if i > 0 { FlyingWeighs(m, flight[1..], i - 1); }
  }

  /** No two relays queue it. */
  lemma OneQueueOnly(identities: map<NeighborId, nat>, events: seq<NetEvent>, k: nat, id: MessageId, a: NeighborId,
          b: NeighborId)
    requires OnlyAt(identities, events, k, id)
    requires var nodes := NetRun(identities, events).nodes;
             a in nodes && b in nodes && id in nodes[a].queue.at && id in nodes[b].queue.at
    ensures a == b
  {
    hide NetRun, FlightSum, Sum, QueueSum, Total, Q.QueueInv;
    ExactlyOnePlace(identities, events, k, id);
    BooksBalance(Copies(id), identities, events);
    var w := NetRun(identities, events);
    HeldWeighs(id, w.nodes[a].queue);
    HeldWeighs(id, w.nodes[b].queue);
    if a != b { TotalAtLeast(NodeSums(Copies(id), w.nodes), a, b); }
  }

  /** While it is in flight no relay queues it, so no queue ever meets a duplicate. */
  lemma NoDuplicateArrives(identities: map<NeighborId, nat>, events: seq<NetEvent>, k: nat, id: MessageId, i: nat,
          n: NeighborId)
    requires OnlyAt(identities, events, k, id)
    requires var w := NetRun(identities, events);
             i < |w.flight| && w.flight[i].envelope.header.messageId == id && n in w.nodes
    ensures id !in NetRun(identities, events).nodes[n].queue.at
  {
    hide NetRun, FlightSum, Sum, QueueSum, Total, Q.QueueInv;
    ExactlyOnePlace(identities, events, k, id);
    BooksBalance(Copies(id), identities, events);
    var w := NetRun(identities, events);
    FlyingWeighs(Copies(id), w.flight, i);
    if id in w.nodes[n].queue.at {
      HeldWeighs(id, w.nodes[n].queue);
      TotalOf(NodeSums(Copies(id), w.nodes), n);
    }
  }

  // ----- Hop bounds -----

  /** Whatever the routing tables say, loops included, and however long it waits in
      queues, an envelope sent with TTL T is transmitted at most T times. */
  lemma HopBound(identities: map<NeighborId, nat>, events: seq<NetEvent>, k: nat)
    requires k < |events| && events[k].Calls? && events[k].event.Sends?
    requires OnlyAt(identities, events, k, events[k].event.envelope.header.messageId)
    ensures var e := events[k].event.envelope;
            CostSum(Hops(e.header.messageId), NetRun(identities, events).transmitted) <= if e.header.ttl > 0
                then e.header.ttl else 0
  {
    hide NetRun, FlightSum, Queued, Sum, CostSum;
    var id := events[k].event.envelope.header.messageId;
    BooksBalance(Hops(id), identities, events);
    BroughtOnce(Hops(id), identities, events, k);
    HopsMade(id, NetRun(identities, events));
  }

  /** An acknowledgement is transmitted at most once more than its TTL: the first
      transmission does not lower it. */
  lemma AckHopBound(identities: map<NeighborId, nat>, events: seq<NetEvent>, k: nat)
    requires k < |events| && events[k].Calls? && events[k].event.SendsAck?
    requires OnlyAt(identities, events, k, events[k].event.id)
    ensures CostSum(Hops(events[k].event.id), NetRun(identities, events).transmitted) <= DEFAULT_TTL + 1
  {
    hide NetRun, FlightSum, Queued, Sum, CostSum;
    var id := events[k].event.id;
    BooksBalance(Hops(id), identities, events);
    BroughtOnce(Hops(id), identities, events, k);
    HopsMade(id, NetRun(identities, events));
  }
}
