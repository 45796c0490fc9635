/** A frame channel over whole runs: chunks arriving and frames asked for, in any order. */
module ChannelRuns {
  import opened Basics
  import opened Framing

  datatype Happening = Chunk(peer: string, bytes: Bytes) | Ask

  /** The chunks of one peer. */
  function ChunksOf(run: seq<Happening>, peer: string): seq<Bytes> {
    if run == [] then []
    else
      var last := run[|run| - 1];
      ChunksOf(run[..|run| - 1], peer) + if last.Chunk? && last.peer == peer then [last.bytes] else []
  }

  function Asked(run: seq<Happening>): nat {
    if run == [] then 0 else Asked(run[..|run| - 1]) + if run[|run| - 1].Ask? then 1 else 0
  }

  function PartialOf(run: seq<Happening>, peer: string): Option<Partial> {
    Feed(None, ChunksOf(run, peer)).0
  }

  /** The frames completed, in the order they were, with the peers they came from. */
  function Completed(run: seq<Happening>): seq<(string, Bytes)> {
    if run == [] then []
    else
      var before, last := run[..|run| - 1], run[|run| - 1];
      Completed(before) +
      if last.Ask? then []
      else
        match Feed1(PartialOf(before, last.peer), last.bytes).1
        case None => []
        case Some(frame) => [(last.peer, frame)]
  }

  /** The frames from one peer, and all of them without their peers. */
  function From(frames: seq<(string, Bytes)>, peer: string): seq<Bytes> {
    if frames == [] then []
    else
      var last := frames[|frames| - 1];
      From(frames[..|frames| - 1], peer) + if last.0 == peer then [last.1] else []
  }

  function Plain(frames: seq<(string, Bytes)>): seq<Bytes> {
    seq(|frames|, i requires 0 <= i < |frames| => frames[i].1)
  }

  lemma FromOneMore(frames: seq<(string, Bytes)>, more: (string, Bytes), peer: string)
    ensures From(frames + [more], peer) == From(frames, peer) + if more.0 == peer then [more.1] else []
  {
    assert (frames + [more])[..|frames|] == frames;
  }

  lemma NextChunk(run: seq<Happening>, peer: string)
    requires run != []
    ensures var before, last := run[..|run| - 1], run[|run| - 1];
            if last.Chunk? && last.peer == peer
            then ChunksOf(run, peer) == ChunksOf(before, peer) + [last.bytes]
            else ChunksOf(run, peer) == ChunksOf(before, peer)
  {
  }

  /** What one peer completes depends on its own chunks only, whatever others send
      and whenever frames are asked for. */
  lemma {:induction false} PeersApart(run: seq<Happening>, peer: string)
    ensures From(Completed(run), peer) == Feed(None, ChunksOf(run, peer)).1
    decreases |run|
  {
    hide Feed1, ChunksOf;
    if run == [] {
      assert ChunksOf(run, peer) == [] by { NoChunks(run, peer); }
    } else {
      var before, last := run[..|run| - 1], run[|run| - 1];
      PeersApart(before, peer);
      NextChunk(run, peer);
      assert Completed(before) + [] == Completed(before);
      if last.Chunk? {
        var (p, m) := Feed1(PartialOf(before, last.peer), last.bytes);
        if m.Some? { FromOneMore(Completed(before), (last.peer, m.value), peer); }
        if last.peer == peer { FeedSplit(None, ChunksOf(before, peer), last.bytes); }
      }
    }
  }

  lemma NoChunks(run: seq<Happening>, peer: string)
    requires run == []
    ensures ChunksOf(run, peer) == []
  {
  }

  /** A peer that sends messages one after another, the chunks of each in any order,
      has them completed unaltered and in order, whatever comes between. */
  lemma MessagesArrive(run: seq<Happening>, peer: string, ts: seq<Transfer>, mtu: int)
    requires AllSound(ts, mtu) && ChunksOf(run, peer) == Stream(ts, mtu)
    ensures From(Completed(run), peer) == Frames(ts)
  {
    PeersApart(run, peer);
    MessagesComeOutInOrder(ts, mtu);
  }

  lemma {:induction false} OnlyFrom(frames: seq<(string, Bytes)>, peer: string)
    requires forall i :: 0 <= i < |frames| ==> frames[i].0 == peer
    ensures From(frames, peer) == Plain(frames)
    decreases |frames|
  {
    if frames != [] {
      var before := frames[..|frames| - 1];
      assert frames == before + [frames[|frames| - 1]];
      OnlyFrom(before, peer);
    }
  }

  lemma {:induction false} CompletedBySenders(run: seq<Happening>, peer: string)
    requires forall k :: 0 <= k < |run| && run[k].Chunk? ==> run[k].peer == peer
    ensures forall i :: 0 <= i < |Completed(run)| ==> Completed(run)[i].0 == peer
    decreases |run|
  {
    hide Feed1, PartialOf;
    if run != [] {
      var before := run[..|run| - 1];
      assert forall k :: 0 <= k < |before| ==> before[k] == run[k];
      CompletedBySenders(before, peer);
    }
  }

  /** A channel through a whole run. Promise number t is resolved exactly when as
      many frames were asked for and completed, and then with frame number t. */
  method RunChannel(run: seq<Happening>) returns (channel: FrameChannel)
    ensures fresh(channel) && channel.Valid()
    ensures channel.calls == Asked(run) && channel.messages == Plain(Completed(run))
    ensures forall t: nat :: t in channel.resolved <==> t < Asked(run) && t < |Completed(run)|
    ensures forall t: nat :: t in channel.resolved ==> channel.resolved[t] == Completed(run)[t].1
  {
    hide Feed1, Feed;
    channel := new FrameChannel();
    assert forall peer :: PartialOf([], peer) == None by { NothingPartial(); }
    for k := 0 to |run|
      invariant fresh(channel) && channel.Valid()
      invariant channel.calls == Asked(run[..k]) && channel.messages == Plain(Completed(run[..k]))
      invariant forall peer :: channel.PartialOf(peer) == PartialOf(run[..k], peer)
    {
      var now := run[..k + 1];
      assert now[..|now| - 1] == run[..k] && now[|now| - 1] == run[k];
      forall peer ensures PartialOf(now, peer) ==
          if run[k].Chunk? && run[k].peer == peer then Feed1(PartialOf(run[..k], peer), run[k].bytes).0
          else PartialOf(run[..k], peer)
      {
        PartialNext(now, peer);
      }
      match run[k]
      case Ask => var promise := channel.Receive();
      case Chunk(peer, bytes) => channel.Accept(peer, bytes);
    }
    assert run[..|run|] == run;
  }

  lemma NothingPartial()
    ensures forall peer :: PartialOf([], peer) == None
  {
  }

  lemma PartialNext(run: seq<Happening>, peer: string)
    requires run != []
    ensures var before, last := run[..|run| - 1], run[|run| - 1];
            PartialOf(run, peer) == if last.Chunk? && last.peer == peer
                                    then Feed1(PartialOf(before, peer), last.bytes).0 else PartialOf(before, peer)
  {
    var before, last := run[..|run| - 1], run[|run| - 1];
    NextChunk(run, peer);
    hide Feed1;
    if last.Chunk? && last.peer == peer { FeedSplit(None, ChunksOf(before, peer), last.bytes); }
  }

  /** With one peer sending: however asking and arriving interleave, promise number
      t returns message number t. */
  method PromisesReturnMessages(run: seq<Happening>, peer: string, ts: seq<Transfer>, mtu: int)
    returns (channel: FrameChannel)
    requires AllSound(ts, mtu) && ChunksOf(run, peer) == Stream(ts, mtu)
    requires forall k :: 0 <= k < |run| && run[k].Chunk? ==> run[k].peer == peer
    ensures fresh(channel)
    ensures forall t: nat :: t in channel.resolved <==> t < Asked(run) && t < |ts|
    ensures forall t: nat :: t in channel.resolved ==> channel.resolved[t] == ts[t].frame
  {
    MessagesArrive(run, peer, ts, mtu);
    CompletedBySenders(run, peer);
    OnlyFrom(Completed(run), peer);
    channel := RunChannel(run);
    assert Plain(Completed(run)) == Frames(ts);
    assert |Completed(run)| == |Plain(Completed(run))| == |ts|;
    forall t: nat | t < |ts| ensures Completed(run)[t].1 == ts[t].frame {
      assert Plain(Completed(run))[t] == Frames(ts)[t];
    }
  }
}
