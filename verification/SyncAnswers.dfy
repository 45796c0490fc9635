/** How much a request is answered with, and how far a transfer is received. */
module SyncAnswers {
  import opened Basics
  import opened OrderedMaps
  import opened Envelopes
  import opened RouteTable
  import opened Relay
  import opened SyncProtocol
  import opened SyncRounds
  import Q = ForwardQueue

  // ----- The answer to a request -----

  /** The encoded size of the first i envelopes. */
  function SizeUpTo(envelopes: seq<Envelope>, lengths: Lengths, i: nat): nat
    requires i <= |envelopes|
  {
    if i == 0 then 0 else SizeUpTo(envelopes, lengths, i - 1) + LengthOf(lengths, envelopes[i - 1])
  }

  lemma {:induction false} SizeFromFirst(envelopes: seq<Envelope>, lengths: Lengths, i: nat)
    requires 0 < i <= |envelopes|
    ensures SizeUpTo(envelopes, lengths, i) ==
            LengthOf(lengths, envelopes[0]) + SizeUpTo(envelopes[1..], lengths, i - 1)
    decreases i
  {
    if i > 1 { SizeFromFirst(envelopes, lengths, i - 1); }
  }

  /** n is the greatest number of first envelopes that fit 512 KiB. */
  ghost predicate Longest(envelopes: seq<Envelope>, lengths: Lengths, used: nat, n: nat) {
    && n <= |envelopes|
    && (n > 0 ==> used + SizeUpTo(envelopes, lengths, n) <= 524288)
    && (n < |envelopes| ==> used + SizeUpTo(envelopes, lengths, n + 1) > 524288)
  }

  lemma {:induction false} WithinLimitIsLongest(envelopes: seq<Envelope>, lengths: Lengths, used: nat)
    ensures var r := WithinLimit(envelopes, lengths, used);
            r <= envelopes && Longest(envelopes, lengths, used, |r|)
  {
    if envelopes != [] {
      var length := LengthOf(lengths, envelopes[0]);
      if used + length <= MAX_SYNC_TRANSFER_BYTES {
        var rest := WithinLimit(envelopes[1..], lengths, used + length);
        WithinLimitIsLongest(envelopes[1..], lengths, used + length);
        SizeFromFirst(envelopes, lengths, |rest| + 1);
        if |rest| + 1 < |envelopes| { SizeFromFirst(envelopes, lengths, |rest| + 2); }
      }
    }
  }

  /** A request is answered with the first of the envelopes held and asked for, in the
      order they were stored: as many as fit 512 KiB, of the first 128. */
  lemma SuppliesAllThatFits(q: Q.Queue, ids: seq<MessageId>, lengths: Lengths)
    ensures var asked := Q.WithIds(q, set id | id in ids, |q.order|);
            var first := if |asked| <= 128 then asked else asked[..128];
            var r := Supplied(q, ids, lengths);
            r <= first && Longest(first, lengths, 0, |r|)
  {
    var asked := Q.WithIds(q, set id | id in ids, |q.order|);
    WithinLimitIsLongest(Take(asked, MAX_SYNC_TRANSFER_ENVELOPES), lengths, 0);
  }

  /** What is asked for is listed in the order it was stored. */
  lemma {:induction false} AskedInOrder(q: Q.Queue, ids: set<MessageId>, n: nat, i: nat, j: nat)
    returns (a: nat, b: nat)
    requires Q.QueueInv(q) && n <= |q.order| && i < j < |Q.WithIds(q, ids, n)|
    ensures a < b < n && q.order[a] in q.at && q.order[b] in q.at
    ensures q.at[q.order[a]].envelope == Q.WithIds(q, ids, n)[i]
    ensures q.at[q.order[b]].envelope == Q.WithIds(q, ids, n)[j]
    decreases n
  {
    hide Q.FromNeighbor;
    var before := Q.WithIds(q, ids, n - 1);
    if j < |before| {
      a, b := AskedInOrder(q, ids, n - 1, i, j);
    } else {
      WithIdsExact(q, ids, n - 1, before[i]);
      a :| 0 <= a < n - 1 && q.order[a] == before[i].header.messageId;
      b := n - 1;
    }
  }

  // ----- Receiving a transfer -----

  /** The relay once the first i envelopes of e's transfer were received one by one,
      with what that did. */
  function ReceivedUpTo(node: SyncNode, e: Envelope, i: nat, from: NeighborId, lengths: Lengths, now: nat,
          nested: seq<Answers>): (SyncNode, Effects)
    requires i <= |WiresOf(e)|
  {
    if i == 0 then (node, NOTHING)
    else
      var (before, effects) := ReceivedUpTo(node, e, i - 1, from, lengths, now, nested);
      match WiresOf(e)[i - 1]
      case NoEnvelope(_) => (before, effects)
      case Encoded(_, x) =>
        var s := ReceivePacket(before, x, Some(from), lengths, now, AnswerAt(nested, i - 1));
        (s.node, Plus(effects, s.effects))
  }

  function BytesUpTo(wires: seq<Wire>, i: nat): nat
    requires i <= |wires|
  {
    if i == 0 then 0 else BytesUpTo(wires, i - 1) + wires[i - 1].length
  }

  /** Wire i is the first that does not decode or exceeds the limit, or there is none
      such and i is their number. */
  predicate StopsAt(wires: seq<Wire>, i: nat) {
    && i <= |wires|
    && (forall j :: 0 <= j < i ==> wires[j].Encoded? && BytesUpTo(wires, j + 1) <= 524288)
    && (i < |wires| ==> wires[i].NoEnvelope? || BytesUpTo(wires, i + 1) > 524288)
  }

  /** What comes after number i of a transfer, from there on. */
  lemma {:induction false} AcceptsFrom(node: SyncNode, e: Envelope, i: nat, stop: nat, from: NeighborId,
          lengths: Lengths, now: nat, nested: seq<Answers>)
    requires i <= stop && StopsAt(WiresOf(e), stop)
    ensures var (at, effects) := ReceivedUpTo(node, e, i, from, lengths, now, nested);
            var (end, all) := ReceivedUpTo(node, e, stop, from, lengths, now, nested);
            var s := AcceptWires(at, e, i, BytesUpTo(WiresOf(e), i), from, lengths, now, nested);
            s.node == end && Plus(effects, s.effects) == all && (s.outcome.Accepted? <==> stop == |WiresOf(e)|)
    decreases stop - i
  {
    hide ReceivePacket, WiresOf;
    var wires := WiresOf(e);
    var (at, effects) := ReceivedUpTo(node, e, i, from, lengths, now, nested);
    if i < stop {
      assert BytesUpTo(wires, i + 1) == BytesUpTo(wires, i) + wires[i].length <= 524288;
      AcceptsFrom(node, e, i + 1, stop, from, lengths, now, nested);
      var first := ReceivePacket(at, wires[i].envelope, Some(from), lengths, now, AnswerAt(nested, i));
      var rest := AcceptWires(first.node, e, i + 1, BytesUpTo(wires, i + 1), from, lengths, now, nested);
      PlusAssociates(effects, first.effects, rest.effects);
    } else {
      PlusNone(effects);
      StopsHere(at, e, i, from, lengths, now, nested);
    }
  }

  lemma StopsHere(at: SyncNode, e: Envelope, i: nat, from: NeighborId, lengths: Lengths, now: nat,
          nested: seq<Answers>)
    requires StopsAt(WiresOf(e), i)
    ensures var s := AcceptWires(at, e, i, BytesUpTo(WiresOf(e), i), from, lengths, now, nested);
            s.node == at && s.effects == NOTHING && (s.outcome.Accepted? <==> i == |WiresOf(e)|)
  {
    hide ReceivePacket, WiresOf;
    if i < |WiresOf(e)| { assert BytesUpTo(WiresOf(e), i + 1) == BytesUpTo(WiresOf(e), i) + WiresOf(e)[i].length; }
  }

  lemma PlusNone(effects: Effects)
    ensures Plus(effects, NOTHING) == effects == Plus(NOTHING, effects)
  {
  }

  /** A transfer is received one envelope after another up to the first that does not
      decode or would bring it above 512 KiB; what was received stays, and the transfer
      is accepted exactly when all of it was. */
  lemma TransferExactly(node: SyncNode, e: Envelope, stop: nat, from: NeighborId, lengths: Lengths, now: nat,
          nested: seq<Answers>)
    requires StopsAt(WiresOf(e), stop)
    ensures var (end, all) := ReceivedUpTo(node, e, stop, from, lengths, now, nested);
            var s := AcceptWires(node, e, 0, 0, from, lengths, now, nested);
            s.node == end && s.effects == all && (s.outcome.Accepted? <==> stop == |WiresOf(e)|)
  {
    AcceptsFrom(node, e, 0, stop, from, lengths, now, nested);
    PlusNone(AcceptWires(node, e, 0, 0, from, lengths, now, nested).effects);
  }

  /** The message is within the limits of its kind: at most 512 entries or ids, ids of 16
      bytes, hop counts that are safe integers, at most 128 envelopes. */
  predicate WithinLimits(message: SyncMessage) {
    match message
    case Summary(entries) =>
      |entries| <= 512 && forall x :: x in entries ==> |x.id.bytes| == 16 && 0 <= x.ttl <= 0x1F_FFFF_FFFF_FFFF
    case Request(ids) => |ids| <= 512 && forall id :: id in ids ==> |id.bytes| == 16
    case Transfer(wires) => |wires| <= 128
  }

  /** A message beyond the limits of its kind is refused and changes nothing; a summary
      or a request within them is accepted. */
  lemma RefusedBeyondLimits(node: SyncNode, e: Envelope, n: NeighborId, session: Session, message: SyncMessage,
          lengths: Lengths, now: nat, answers: Answers)
    ensures var s := HandleMessage(node, e, n, session, message, lengths, now, answers);
            && (!WithinLimits(message) ==> s.outcome.Refused? && s.node == node && s.effects == NOTHING)
            && (WithinLimits(message) && !message.Transfer? ==> s.outcome.Accepted?)
  {
    hide Q.Purged, ExpiredIn, SummaryOf, Supplied, Missing, Wires, AcceptWires;
  }
}
