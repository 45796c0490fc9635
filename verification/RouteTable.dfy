/**
  The routing table of src/routing/routing.ts and the trust bindings of
  src/routing/route-provenance.ts.
 */
module RouteTable {
  import opened Basics
  import opened OrderedMaps
  import opened Totals
  import opened Envelopes

  const ROUTE_PROBATION_MS: int := 30 * 1000
  const ROUTE_VALIDATION_TTL_MS: int := 5 * 60 * 1000

  datatype Status = Probation | Validated

  /** Which destination key acknowledged, through which authenticated session. */
  datatype Binding = Binding(
    destination: nat, destinationHint: Hint, advertiser: nat, neighborId: NeighborId, sessionEpoch: int,
        validatedAt: int)

  datatype Route = Route(status: Status, lastAdvertisedAt: int, expiresAt: int, binding: Option<Binding>)

  type Candidates = OrderedMap<NeighborId, Route>

  type Routes = map<Hint, Candidates>

  /** The session with a peer: its name and the key for either direction. */
  datatype Session = Session(sessionId: string, sendKey: nat, receiveKey: nat)

  datatype AuthenticatedPeer = AuthenticatedPeer(identity: nat, establishedAt: int, session: Option<Session>)

  type Peers = OrderedMap<NeighborId, AuthenticatedPeer>

  type Trust = map<NeighborId, nat>

  const NO_CANDIDATES: Candidates := OrderedMap([], map[])

  // ----- The table as a value -----

  function CandidatesFor(routes: Routes, hint: Hint): Candidates {
    if hint in routes then routes[hint] else NO_CANDIDATES
  }

  predicate HasRoute(routes: Routes, hint: Hint, n: NeighborId) {
    hint in routes && n in routes[hint].at
  }

  function RouteAt(routes: Routes, hint: Hint, n: NeighborId): Route
    requires HasRoute(routes, hint, n)
  {
    routes[hint].at[n]
  }

  function WithRoute(routes: Routes, hint: Hint, n: NeighborId, r: Route): Routes {
    routes[hint := Put(CandidatesFor(routes, hint), n, r)]
  }

  /** The route after its neighbor advertised the hint: validation and binding
      survive if they still apply to the neighbor's current session. */
  function Advertised(existing: Option<Route>, peer: AuthenticatedPeer, now: int): Route {
    var stillValid := existing.Some? && existing.value.status == Validated && existing.value.expiresAt > now;
    var binding := if existing.Some? then existing.value.binding else None;
    var stillBound := binding.Some? && binding.value.sessionEpoch == peer.establishedAt && binding.value.advertiser ==
        peer.identity;
    Route(
      if stillValid then Validated else Probation, now,
      if stillValid then now + ROUTE_VALIDATION_TTL_MS else now + ROUTE_PROBATION_MS,
      if stillBound then binding else None)
  }

  function LearnHint(routes: Routes, hint: Hint, n: NeighborId, peer: AuthenticatedPeer, now: int): Routes {
    WithRoute(routes, hint, n, Advertised(Find(CandidatesFor(routes, hint), n), peer, now))
  }

  /** learnFromAdvertisement, for a verified advertisement. */
  function Learn(routes: Routes, hints: seq<Hint>, n: NeighborId, peer: AuthenticatedPeer, now: int): Routes {
    if hints == [] then routes
    else LearnHint(Learn(routes, hints[..|hints| - 1], n, peer, now), hints[|hints| - 1], n, peer, now)
  }

  function MarkValidated(routes: Routes, hint: Hint, destination: nat, n: NeighborId, peer: AuthenticatedPeer,
          now: int): Routes {
    if !HasRoute(routes, hint, n) || hint != HintOf(destination) then routes
    else WithRoute(routes, hint, n,
                   Route(Validated, now, now + ROUTE_VALIDATION_TTL_MS,
                         Some(Binding(destination, hint, peer.identity, n, peer.establishedAt, now))))
  }

  function Demote(routes: Routes, hint: Hint, n: NeighborId): Routes {
    if !HasRoute(routes, hint, n) then routes
    else WithRoute(routes, hint, n, RouteAt(routes, hint, n).(status := Probation, expiresAt := 0, binding := None))
  }

  function LiveCandidates(c: Candidates, now: int): set<NeighborId> {
    set n | n in c.at && c.at[n].expiresAt > now
  }

  function PurgedCandidates(c: Candidates, now: int): Candidates {
    Restrict(c, LiveCandidates(c, now))
  }

  function Purged(routes: Routes, now: int): Routes {
    map h | h in routes && LiveCandidates(routes[h], now) != {} :: PurgedCandidates(routes[h], now)
  }

  /** May the route through n carry traffic for the hint, with the given status? */
  predicate Usable(c: Candidates, hint: Hint, n: NeighborId, status: Status, peers: Peers) {
    && n in c.at && n in peers.at
    && c.at[n].status == status
    && (status == Validated ==> Matches(c.at[n].binding, hint, n, peers.at[n]))
  }

  /** matchesRouteTrustBinding against what the peer's current session implies. */
  predicate Matches(b: Option<Binding>, hint: Hint, n: NeighborId, peer: AuthenticatedPeer) {
    && b.Some?
    && b.value.neighborId == n
    && b.value.sessionEpoch == peer.establishedAt
    && b.value.destinationHint == hint
    && b.value.advertiser == peer.identity
  }

  function Score(trust: Trust, n: NeighborId): nat {
    if n in trust then trust[n] else 0
  }

  /** The first usable candidate with the highest score among the first i. */
  function Best(c: Candidates, i: nat, hint: Hint, status: Status, trust: Trust, peers: Peers): Option<NeighborId>
    requires i <= |c.order|
  {
    if i == 0 then None
    else
      var best := Best(c, i - 1, hint, status, trust, peers);
      var n := c.order[i - 1];
      if Usable(c, hint, n, status, peers) && (best.None? || Score(trust, n) > Score(trust, best.value))
      then Some(n) else best
  }

  /** lookup() on a table that has just been purged. */
  function Lookup(routes: Routes, hint: Hint, trust: Trust, peers: Peers): Option<NeighborId> {
    var c := CandidatesFor(routes, hint);
    var validated := Best(c, |c.order|, hint, Validated, trust, peers);
    if validated.Some? then validated else Best(c, |c.order|, hint, Probation, trust, peers)
  }

  ghost predicate TableInv(routes: Routes) {
    forall h :: h in routes ==> Listed(routes[h])
  }

  // ----- What lookup chooses -----

  /** n is usable with this status, and no usable candidate scores higher, nor as
      high if it was learned before n. */
  ghost predicate IsFirstBest(c: Candidates, n: NeighborId, hint: Hint, status: Status, trust: Trust, peers: Peers) {
    exists i :: 0 <= i < |c.order| && c.order[i] == n && BestAt(c, i, |c.order|, hint, status, trust, peers)
  }

  ghost predicate BestAt(c: Candidates, i: nat, end: nat, hint: Hint, status: Status, trust: Trust, peers: Peers)
    requires i < end <= |c.order|
  {
    && Usable(c, hint, c.order[i], status, peers)
    && (forall j :: 0 <= j < end && Usable(c, hint, c.order[j], status, peers) ==>
          if j < i then Score(trust, c.order[j]) < Score(trust, c.order[i])
          else Score(trust, c.order[j]) <= Score(trust, c.order[i]))
  }

  /** No candidate can carry traffic with this status. */
  ghost predicate NoneUsable(c: Candidates, end: nat, hint: Hint, status: Status, peers: Peers)
    requires end <= |c.order|
  {
    forall j :: 0 <= j < end ==> !Usable(c, hint, c.order[j], status, peers)
  }

  lemma {:induction false} BestFound(c: Candidates, end: nat, hint: Hint, status: Status, trust: Trust, peers: Peers)
    returns (i: nat)
    requires end <= |c.order|
    ensures var best := Best(c, end, hint, status, trust, peers);
            if best.None? then NoneUsable(c, end, hint, status, peers)
            else i < end && c.order[i] == best.value && BestAt(c, i, end, hint, status, trust, peers)
    decreases end
  {
    i := 0;
    if end > 0 {
      i := BestFound(c, end - 1, hint, status, trust, peers);
      var before := Best(c, end - 1, hint, status, trust, peers);
      if Best(c, end, hint, status, trust, peers) != before || before.None? { i := end - 1; }
    }
  }

  lemma BestIsUnique(c: Candidates, i: nat, j: nat, hint: Hint, status: Status, trust: Trust, peers: Peers)
    requires i < |c.order| && j < |c.order|
    requires BestAt(c, i, |c.order|, hint, status, trust, peers) && BestAt(c, j, |c.order|, hint, status, trust, peers)
    ensures i == j
  {
  }

  lemma BestExact(c: Candidates, n: NeighborId, hint: Hint, status: Status, trust: Trust, peers: Peers)
    ensures Best(c, |c.order|, hint, status, trust, peers) == Some(n) <==> IsFirstBest(c, n, hint, status, trust, peers)
    ensures Best(c, |c.order|, hint, status, trust, peers) == None <==> NoneUsable(c, |c.order|, hint, status, peers)
  {
    var i := BestFound(c, |c.order|, hint, status, trust, peers);
    if IsFirstBest(c, n, hint, status, trust, peers) {
      var j :| 0 <= j < |c.order| && c.order[j] == n && BestAt(c, j, |c.order|, hint, status, trust, peers);
      BestIsUnique(c, i, j, hint, status, trust, peers);
    }
  }

  /** lookup returns n exactly when n is the first best of the validated routes
      whose binding matches the neighbor's current session or, none of those
      being left, the first best of the routes on probation. */
  lemma LookupExact(routes: Routes, hint: Hint, trust: Trust, peers: Peers, n: NeighborId)
    ensures var c := CandidatesFor(routes, hint);
            Lookup(routes, hint, trust, peers) == Some(n) <==>
              || IsFirstBest(c, n, hint, Validated, trust, peers)
              || (NoneUsable(c, |c.order|, hint, Validated, peers) && IsFirstBest(c, n, hint, Probation, trust, peers))
  {
    hide Best, IsFirstBest, NoneUsable;
    var c := CandidatesFor(routes, hint);
    BestExact(c, n, hint, Validated, trust, peers);
    BestExact(c, n, hint, Probation, trust, peers);
    var v := Best(c, |c.order|, hint, Validated, trust, peers);
    if v.Some? { BestExact(c, v.value, hint, Validated, trust, peers); }
  }

  // ----- Advertisements -----

  const MAX_ROUTING_AD_AGE_MS: int := 5 * 60 * 1000
  const MAX_ROUTING_AD_FUTURE_SKEW_MS: int := 30 * 1000
  const MAX_ROUTING_AD_DESTINATIONS: nat := 256
  const DESTINATION_HINT_LENGTH: nat := 8

  datatype AdSignature = AdSigned(key: nat, destinations: seq<Hint>, timestamp: int) | NoAdSignature(bytes: Bytes)

  datatype Advertisement = Advertisement(advertiser: nat, destinations: seq<Hint>, timestamp: int,
          signature: AdSignature)

  predicate VerifyAdvertisement(ad: Advertisement, nowMs: nat) {
    && ad.timestamp >= 0
    && |ad.destinations| <= MAX_ROUTING_AD_DESTINATIONS
    && (forall h :: h in ad.destinations ==> |h| == DESTINATION_HINT_LENGTH)
    && nowMs - MAX_ROUTING_AD_AGE_MS <= ad.timestamp * 1000 <= nowMs + MAX_ROUTING_AD_FUTURE_SKEW_MS
    && ad.signature == AdSigned(ad.advertiser, ad.destinations, ad.timestamp)
  }

  // ----- Every operation keeps the table listed, and touches only its own routes -----

  lemma WithRouteListed(routes: Routes, hint: Hint, n: NeighborId, r: Route)
    requires TableInv(routes)
    ensures TableInv(WithRoute(routes, hint, n, r))
  {
    hide Put, Listed;
    NoneListed();
    PutListed(CandidatesFor(routes, hint), n, r);
  }

  lemma NoneListed()
    ensures Listed(NO_CANDIDATES)
  {
  }

  lemma PurgedListed(routes: Routes, now: int)
    requires TableInv(routes)
    ensures TableInv(Purged(routes, now))
  {
    hide Listed, Restrict;
    forall h | h in Purged(routes, now) ensures Listed(Purged(routes, now)[h]) {
      RestrictListed(routes[h], LiveCandidates(routes[h], now));
    }
  }

  lemma {:induction false} LearnListed(routes: Routes, hints: seq<Hint>, n: NeighborId, peer: AuthenticatedPeer,
          now: int)
    requires TableInv(routes)
    ensures TableInv(Learn(routes, hints, n, peer, now))
  {
    hide TableInv, WithRoute, Advertised;
    if hints != [] {
      var before := Learn(routes, hints[..|hints| - 1], n, peer, now);
      LearnListed(routes, hints[..|hints| - 1], n, peer, now);
      var hint := hints[|hints| - 1];
      WithRouteListed(before, hint, n, Advertised(Find(CandidatesFor(before, hint), n), peer, now));
    }
  }

  /** No route in the table has expired, and no list of candidates is empty. */
  ghost predicate NoneExpired(routes: Routes, now: int) {
    forall h :: h in routes ==>
      && routes[h].at.Keys != {} && LiveCandidates(routes[h], now) == routes[h].at.Keys
      && forall n :: n in routes[h].order ==> n in routes[h].at
  }

  lemma PurgedHasNoneExpired(routes: Routes, now: int)
    ensures NoneExpired(Purged(routes, now), now)
  {
    hide Only;
    forall h | h in Purged(routes, now)
      ensures forall n :: n in PurgedCandidates(routes[h], now).order ==> n in PurgedCandidates(routes[h], now).at
    {
      forall n | n in PurgedCandidates(routes[h], now).order ensures n in PurgedCandidates(routes[h], now).at {
        OnlyIn(routes[h].order, LiveCandidates(routes[h], now), n);
      }
    }
  }

  lemma NoneExpiredIsPurged(routes: Routes, now: int)
    requires NoneExpired(routes, now)
    ensures Purged(routes, now) == routes
  {
    hide Only;
    forall h | h in routes ensures PurgedCandidates(routes[h], now) == routes[h] {
      OnlyAll(routes[h].order, LiveCandidates(routes[h], now));
    }
  }

  lemma RouteKeepsNoneExpired(routes: Routes, h: Hint, n: NeighborId, r: Route, now: int)
    requires NoneExpired(routes, now) && r.expiresAt > now
    ensures NoneExpired(WithRoute(routes, h, n, r), now)
  {
    var next := WithRoute(routes, h, n, r);
    assert n in next[h].at;
  }

  lemma PurgedRoute(routes: Routes, now: int, h: Hint, m: NeighborId)
    ensures HasRoute(Purged(routes, now), h, m) <==> HasRoute(routes, h, m) && RouteAt(routes, h, m).expiresAt > now
    ensures HasRoute(Purged(routes, now), h, m) ==> RouteAt(Purged(routes, now), h, m) == RouteAt(routes, h, m)
  {
    hide Only;
    if HasRoute(routes, h, m) && RouteAt(routes, h, m).expiresAt > now {
      assert m in LiveCandidates(routes[h], now);
    }
  }

  /** An advertisement touches only its sender's routes to the hints it lists. */
  lemma {:induction false} LearnElsewhere(routes: Routes, hints: seq<Hint>, n: NeighborId, peer: AuthenticatedPeer,
          now: int, h: Hint, m: NeighborId)
    requires m != n || h !in hints
    ensures HasRoute(Learn(routes, hints, n, peer, now), h, m) == HasRoute(routes, h, m)
    ensures HasRoute(routes, h, m) ==> RouteAt(Learn(routes, hints, n, peer, now), h, m) == RouteAt(routes, h, m)
  {
    if hints != [] { LearnElsewhere(routes, hints[..|hints| - 1], n, peer, now, h, m); }
  }

  /** It never makes a binding: a binding it leaves was there before. */
  lemma {:induction false} LearnBindsNothing(routes: Routes, hints: seq<Hint>, n: NeighborId,
          peer: AuthenticatedPeer, now: int, h: Hint, m: NeighborId)
    requires HasRoute(Learn(routes, hints, n, peer, now), h, m)
    requires RouteAt(Learn(routes, hints, n, peer, now), h, m).binding.Some?
    ensures HasRoute(routes, h, m)
    ensures RouteAt(Learn(routes, hints, n, peer, now), h, m).binding == RouteAt(routes, h, m).binding
  {
    if hints != [] { LearnBindsNothing(routes, hints[..|hints| - 1], n, peer, now, h, m); }
  }

  // ----- The table the node keeps -----

  /** The table once the destinations in `done` have been purged. */
  ghost function PurgedAmong(routes: Routes, done: set<Hint>, now: int): Routes {
    map h | h in routes && (h in done ==> LiveCandidates(routes[h], now) != {}) ::
      if h in done then PurgedCandidates(routes[h], now) else routes[h]
  }

  lemma LiveEmpty(c: Candidates, now: int)
    ensures PurgedCandidates(c, now).at == map[] <==> LiveCandidates(c, now) == {}
  {
    hide Only;
    assert PurgedCandidates(c, now).at.Keys == LiveCandidates(c, now);
  }

  lemma PurgedAmongNext(routes: Routes, done: set<Hint>, hint: Hint, now: int)
    requires hint in routes && hint !in done
    ensures hint in PurgedAmong(routes, done, now) && PurgedAmong(routes, done, now)[hint] == routes[hint]
    ensures var live := PurgedCandidates(routes[hint], now);
            PurgedAmong(routes, done + {hint}, now) ==
            if live.at == map[] then PurgedAmong(routes, done, now) - {hint}
                else PurgedAmong(routes, done, now)[hint := live]
  {
    hide PurgedCandidates, LiveCandidates;
    LiveEmpty(routes[hint], now);
  }

  lemma ListedAt(routes: Routes, hint: Hint)
    requires TableInv(routes) && hint in routes
    ensures Listed(routes[hint])
  {
  }

  lemma CandidatesReplaced(routes: Routes, hint: Hint, c: Candidates)
    requires TableInv(routes) && Listed(c)
    ensures TableInv(routes - {hint}) && TableInv(routes[hint := c])
    ensures |c.at| == 0 <==> c.at == map[]
  {
    hide Listed;
  }

  lemma PurgedAmongNone(routes: Routes, now: int)
    ensures PurgedAmong(routes, {}, now) == routes
    ensures PurgedAmong(routes, routes.Keys, now) == Purged(routes, now)
  {
    hide PurgedCandidates, LiveCandidates;
  }

  lemma PurgeCounted(routes: Routes, hint: Hint, now: int)
    requires hint in routes
    ensures var live := PurgedCandidates(routes[hint], now);
            var next := if live.at == map[] then routes - {hint} else routes[hint := live];
            Total(RouteCounts(next)) == Total(RouteCounts(routes)) - |routes[hint].at| + |live.at|
  {
    hide Total, PurgedCandidates;
    var live := PurgedCandidates(routes[hint], now);
    TotalSet(RouteCounts(routes), hint, |live.at|);
    assert RouteCounts(routes[hint := live]) == RouteCounts(routes)[hint := |live.at|];
    TotalOf(RouteCounts(routes), hint);
    assert RouteCounts(routes - {hint}) == RouteCounts(routes) - {hint};
  }

  ghost function RouteCounts(routes: Routes): map<Hint, nat> {
    map h | h in routes :: |routes[h].at|
  }

  class RoutingTable {
    var routes: Routes

    ghost predicate Valid()
      reads this
    {
      TableInv(routes)
    }

    constructor ()
      ensures Valid() && routes == map[]
    {
      routes := map[];
    }

    method LearnFromAdvertisement(n: NeighborId, ad: Advertisement, peer: AuthenticatedPeer, now: nat)
      requires Valid()
      modifies this
      ensures Valid()
      ensures routes == if VerifyAdvertisement(ad, now) then Learn(old(routes), ad.destinations, n, peer, now)
          else old(routes)
    {
      hide TableInv, LearnHint;
      if !VerifyAdvertisement(ad, now) { return; }
      LearnListed(routes, ad.destinations, n, peer, now);
      for i := 0 to |ad.destinations|
        invariant routes == Learn(old(routes), ad.destinations[..i], n, peer, now)
      {
        assert ad.destinations[..i + 1] == ad.destinations[..i] + [ad.destinations[i]];
        routes := LearnHint(routes, ad.destinations[i], n, peer, now);
      }
      assert ad.destinations[..|ad.destinations|] == ad.destinations;
    }

    method Validate(hint: Hint, destination: nat, n: NeighborId, peer: AuthenticatedPeer, now: int)
      requires Valid()
      modifies this
      ensures Valid() && routes == MarkValidated(old(routes), hint, destination, n, peer, now)
    {
      hide TableInv, WithRoute;
      if !HasRoute(routes, hint, n) || hint != HintOf(destination) { return; }
      var binding := Binding(destination, hint, peer.identity, n, peer.establishedAt, now);
      var route := Route(Validated, now, now + ROUTE_VALIDATION_TTL_MS, Some(binding));
      WithRouteListed(routes, hint, n, route);
      routes := WithRoute(routes, hint, n, route);
    }

    method DemoteRoute(hint: Hint, n: NeighborId)
      requires Valid()
      modifies this
      ensures Valid() && routes == Demote(old(routes), hint, n)
    {
      hide TableInv, WithRoute;
      if !HasRoute(routes, hint, n) { return; }
      var route := RouteAt(routes, hint, n).(status := Probation, expiresAt := 0, binding := None);
      WithRouteListed(routes, hint, n, route);
      routes := WithRoute(routes, hint, n, route);
    }

    /** Deletes the expired routes to one destination. */
    method PurgeDestination(hint: Hint, now: int) returns (purged: nat)
      requires Valid() && hint in routes
      modifies this
      ensures Valid()
      ensures var live := PurgedCandidates(old(routes)[hint], now);
              && purged == |old(routes)[hint].at| - |live.at|
              && routes == if live.at == map[] then old(routes) - {hint} else old(routes)[hint := live]
    {
      hide Restrict, Drop, Swept, Listed, TableInv;
      purged := 0;
      assert Listed(routes[hint]) by { ListedAt(routes, hint); }
      var candidates := routes[hint];
      ghost var all, good := candidates, LiveCandidates(candidates, now);
      SweepStarts(all, good);
      var keys := candidates.order;
      for i := 0 to |keys|
        invariant routes == old(routes) && keys == all.order
        invariant candidates == Restrict(all, Swept(all, i, good))
        invariant purged == |all.at| - |candidates.at|
      {
        SweepMoves(all, i, good);
        if candidates.at[keys[i]].expiresAt <= now {
          candidates := Drop(candidates, keys[i]);
          purged := purged + 1;
        }
      }
      SweepEnds(all, good);
      RestrictListed(all, good);
      CandidatesReplaced(routes, hint, candidates);
      routes := if |candidates.at| == 0 then routes - {hint} else routes[hint := candidates];
    }

    method PurgeExpired(now: int) returns (purged: nat)
      requires Valid()
      modifies this
      ensures Valid() && routes == Purged(old(routes), now)
      ensures purged == Total(RouteCounts(old(routes))) - Total(RouteCounts(routes))
    {
      hide Restrict, PurgedCandidates, Total, TableInv, PurgedAmong, Purged, RouteCounts;
      PurgedAmongNone(routes, now);
      purged := 0;
      var hints := routes.Keys;
      ghost var done: set<Hint> := {};
      while hints != {}
        invariant Valid() && hints !! done && hints + done == old(routes).Keys
        invariant routes == PurgedAmong(old(routes), done, now)
        invariant purged == Total(RouteCounts(old(routes))) - Total(RouteCounts(routes))
        decreases |hints|
      {
        var hint :| hint in hints;
        PurgedAmongNext(old(routes), done, hint, now);
        PurgeCounted(routes, hint, now);
        var n := PurgeDestination(hint, now);
        purged := purged + n;
        hints, done := hints - {hint}, done + {hint};
      }
    }

    method LookupRoute(hint: Hint, trust: Trust, peers: Peers, now: int) returns (next: Option<NeighborId>)
      requires Valid()
      modifies this
      ensures Valid() && routes == Purged(old(routes), now)
      ensures next == Lookup(routes, hint, trust, peers)
    {
      hide Usable, Purged, Listed;
      var purged := PurgeExpired(now);
      if hint !in routes { return None; }
      var candidates := routes[hint];
      var validated: Option<NeighborId>, probation: Option<NeighborId> := None, None;
      for i := 0 to |candidates.order|
        invariant validated == Best(candidates, i, hint, Validated, trust, peers)
        invariant probation == Best(candidates, i, hint, Probation, trust, peers)
      {
        var n := candidates.order[i];
        if Usable(candidates, hint, n, Validated, peers) {
          if validated.None? || Score(trust, n) > Score(trust, validated.value) { validated := Some(n); }
        }
        if Usable(candidates, hint, n, Probation, peers) {
          if probation.None? || Score(trust, n) > Score(trust, probation.value) { probation := Some(n); }
        }
      }
      return if validated.Some? then validated else probation;
    }
  }
}
