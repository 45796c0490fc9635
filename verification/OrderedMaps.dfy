/** Maps that remember the order in which their keys were first inserted. */
module OrderedMaps {
  import opened Basics
  import FiniteSets

  datatype OrderedMap<K, V> = OrderedMap(order: seq<K>, at: map<K, V>)

  /** The order lists every key once. */
  ghost predicate Listed<K, V>(m: OrderedMap<K, V>) {
    && (forall k :: k in m.at ==> k in m.order)
    && (forall k :: k in m.order ==> k in m.at)
    && (forall i, j :: 0 <= i < j < |m.order| ==> m.order[i] != m.order[j])
  }

  function Find<K(==), V>(m: OrderedMap<K, V>, k: K): Option<V> {
    if k in m.at then Some(m.at[k]) else None
  }

  /** set(): an existing key keeps its place. */
  function Put<K(==), V>(m: OrderedMap<K, V>, k: K, v: V): OrderedMap<K, V> {
    OrderedMap(if k in m.at then m.order else m.order + [k], m.at[k := v])
  }

  /** set() on a map of limited size: at the limit the oldest key makes room first. */
  function PutWithin<K(==), V>(m: OrderedMap<K, V>, k: K, v: V, limit: nat): OrderedMap<K, V> {
    var room := if |m.at| >= limit && |m.order| > 0 then Drop(m, m.order[0]) else m;
    Put(room, k, v)
  }

  function Only<K(==)>(order: seq<K>, keys: set<K>): seq<K> {
    if order == [] then []
    else (if order[0] in keys then [order[0]] else []) + Only(order[1..], keys)
  }

  /** What is left when every key outside `keys` is deleted. */
  function Restrict<K(==), V>(m: OrderedMap<K, V>, keys: set<K>): OrderedMap<K, V> {
    OrderedMap(Only(m.order, keys), map k | k in m.at && k in keys :: m.at[k])
  }

  function Drop<K(==), V>(m: OrderedMap<K, V>, k: K): OrderedMap<K, V> {
    Restrict(m, m.at.Keys - {k})
  }

  lemma {:induction false} OnlyIn<K>(order: seq<K>, keys: set<K>, k: K)
    ensures k in Only(order, keys) <==> k in order && k in keys
  {
    if order != [] { OnlyIn(order[1..], keys, k); }
  }

  lemma {:induction false} OnlyOnce<K>(order: seq<K>, keys: set<K>)
    requires forall i, j :: 0 <= i < j < |order| ==> order[i] != order[j]
    ensures forall i, j :: 0 <= i < j < |Only(order, keys)| ==> Only(order, keys)[i] != Only(order, keys)[j]
  {
    if order != [] {
      OnlyOnce(order[1..], keys);
      OnlyIn(order[1..], keys, order[0]);
    }
  }

  lemma {:induction false} OnlyOnly<K>(order: seq<K>, a: set<K>, b: set<K>)
    ensures Only(Only(order, a), b) == Only(order, a * b)
  {
    if order != [] {
      OnlyOnly(order[1..], a, b);
      if order[0] in a {
        assert Only(order, a)[1..] == Only(order[1..], a);
      } else {
        assert Only(order, a) == Only(order[1..], a);
      }
    }
  }

  lemma {:induction false} OnlyAll<K>(order: seq<K>, keys: set<K>)
    requires forall k :: k in order ==> k in keys
    ensures Only(order, keys) == order
  {
    if order != [] { OnlyAll(order[1..], keys); }
  }

  lemma PutListed<K, V>(m: OrderedMap<K, V>, k: K, v: V)
    requires Listed(m)
    ensures Listed(Put(m, k, v))
  {
  }

  lemma RestrictListed<K, V>(m: OrderedMap<K, V>, keys: set<K>)
    requires Listed(m)
    ensures Listed(Restrict(m, keys))
  {
    OnlyOnce(m.order, keys);
    forall k | k in m.order ensures k in Restrict(m, keys).at <==> k in Restrict(m, keys).order {
      OnlyIn(m.order, keys, k);
    }
    forall k | k in Only(m.order, keys) ensures k in m.order && k in keys {
      OnlyIn(m.order, keys, k);
    }
  }

  /** Deleting in two rounds is deleting once. */
  lemma RestrictTwice<K, V>(m: OrderedMap<K, V>, a: set<K>, b: set<K>)
    ensures Restrict(Restrict(m, a), b) == Restrict(m, a * b)
  {
    OnlyOnly(m.order, a, b);
  }

  lemma RestrictAll<K, V>(m: OrderedMap<K, V>, keys: set<K>)
    requires Listed(m) && m.at.Keys <= keys
    ensures Restrict(m, keys) == m
  {
    OnlyAll(m.order, keys);
  }

  lemma PutGrows<K, V>(m: OrderedMap<K, V>, k: K, v: V)
    ensures |Put(m, k, v).at| <= |m.at| + 1
  {
    assert Put(m, k, v).at.Keys == m.at.Keys + {k};
    assert |Put(m, k, v).at| == |Put(m, k, v).at.Keys| && |m.at| == |m.at.Keys|;
  }

  lemma RestrictShrinks<K, V>(m: OrderedMap<K, V>, keys: set<K>)
    requires Listed(m)
    ensures Listed(Restrict(m, keys)) && |Restrict(m, keys).at| <= |m.at|
  {
    hide Only;
    RestrictListed(m, keys);
    FiniteSets.SmallerMap(Restrict(m, keys).at, m.at);
  }

  lemma DropShrinks<K, V>(m: OrderedMap<K, V>, k: K)
    requires k in m.at
    ensures |Drop(m, k).at| == |m.at| - 1
  {
    hide Only;
    assert Drop(m, k).at.Keys == m.at.Keys - {k};
    assert |Drop(m, k).at| == |Drop(m, k).at.Keys| && |m.at| == |m.at.Keys|;
  }

  lemma NoOrder<K, V>(m: OrderedMap<K, V>)
    requires Listed(m) && |m.order| == 0
    ensures |m.at| == 0
  {
    assert forall k :: k in m.at ==> k in m.order;
    assert m.at == map[];
  }

  /** Dropping the oldest entry makes room for one. */
  lemma OldestGoes<K, V>(m: OrderedMap<K, V>)
    requires Listed(m) && |m.order| > 0
    ensures |Drop(m, m.order[0]).at| == |m.at| - 1 && Listed(Drop(m, m.order[0]))
  {
    hide Only;
    var k := m.order[0];
    RestrictListed(m, m.at.Keys - {k});
    assert m.at.Keys == Drop(m, k).at.Keys + {k};
    assert |Drop(m, k).at| == |Drop(m, k).at.Keys| && |m.at| == |m.at.Keys|;
  }

  /** Room is made first, so the limit holds afterwards. */
  lemma PutWithinFits<K, V>(m: OrderedMap<K, V>, k: K, v: V, limit: nat)
    requires Listed(m) && 0 < limit && |m.at| <= limit
    ensures Listed(PutWithin(m, k, v, limit)) && |PutWithin(m, k, v, limit).at| <= limit
  {
    hide Restrict, Put, Listed;
    if |m.order| == 0 { NoOrder(m); } else { OldestGoes(m); }
    var room := if |m.at| >= limit && |m.order| > 0 then Drop(m, m.order[0]) else m;
    PutListed(room, k, v);
    PutGrows(room, k, v);
  }

  lemma DropFirst<K>(order: seq<K>, keys: set<K>)
    requires order != [] && order[0] !in keys && forall i :: 0 < i < |order| ==> order[i] in keys
    ensures Only(order, keys) == order[1..]
  {
    OnlyAll(order[1..], keys);
  }

  /** Nothing goes but, at the limit, the oldest; what is new comes last. */
  lemma PutWithinExactly<K, V>(m: OrderedMap<K, V>, k: K, v: V, limit: nat)
    requires Listed(m)
    ensures var next, full := PutWithin(m, k, v, limit), |m.at| >= limit && m.order != [];
            var rest := if full then m.order[1..] else m.order;
            && next.order == (if k in rest then rest else rest + [k])
            && (forall x :: x in next.at <==> x == k || x in rest)
            && next.at[k] == v && (forall x :: x in rest && x != k ==> next.at[x] == m.at[x])
  {
    if |m.at| >= limit && m.order != [] {
      hide Only;
      DropFirst(m.order, m.at.Keys - {m.order[0]});
    }
  }

  /** A listed map has as many keys in its order as entries. */
  lemma SameSize<K, V>(m: OrderedMap<K, V>)
    requires Listed(m)
    ensures |m.order| == |m.at|
  {
    OrderSize(m.order);
    assert (set k | k in m.order) == m.at.Keys;
  }

  lemma {:induction false} OrderSize<K>(order: seq<K>)
    requires forall i, j :: 0 <= i < j < |order| ==> order[i] != order[j]
    ensures |set k | k in order| == |order|
  {
    if order != [] {
      OrderSize(order[1..]);
      assert (set k | k in order) == {order[0]} + (set k | k in order[1..]);
    }
  }

  // ----- Deleting while iterating -----

  /** The keys left when a loop over the order, deleting what is not in `good`,
      has passed its first i positions. */
  ghost function Swept<K, V>(m: OrderedMap<K, V>, i: nat, good: set<K>): set<K>
    requires i <= |m.order|
  {
    set k | k in m.at && (k in m.order[..i] ==> k in good)
  }

  lemma SweepStarts<K, V>(m: OrderedMap<K, V>, good: set<K>)
    requires Listed(m)
    ensures Restrict(m, Swept(m, 0, good)) == m
  {
    hide Restrict;
    RestrictAll(m, Swept(m, 0, good));
  }

  lemma SweptNext<K, V>(m: OrderedMap<K, V>, i: nat, good: set<K>)
    requires Listed(m) && i < |m.order|
    ensures var k := m.order[i];
            && k in Swept(m, i, good)
            && Swept(m, i + 1, good) == if k in good then Swept(m, i, good) else Swept(m, i, good) - {k}
  {
    assert m.order[..i + 1] == m.order[..i] + [m.order[i]];
  }

  lemma SweepMoves<K, V>(m: OrderedMap<K, V>, i: nat, good: set<K>)
    requires Listed(m) && i < |m.order|
    ensures var k, now, next := m.order[i], Restrict(m, Swept(m, i, good)), Restrict(m, Swept(m, i + 1, good));
            && k in m.at && k in now.at && now.at[k] == m.at[k]
            && next == (if k in good then now else Drop(now, k))
            && |next.at| == |now.at| - (if k in good then 0 else 1)
  {
    hide Only, Listed;
    SweptNext(m, i, good);
    var k, now, next := m.order[i], Restrict(m, Swept(m, i, good)), Restrict(m, Swept(m, i + 1, good));
    if k !in good {
      RestrictTwice(m, Swept(m, i, good), now.at.Keys - {k});
      assert Swept(m, i, good) * (now.at.Keys - {k}) == Swept(m, i + 1, good);
      assert now.at.Keys == next.at.Keys + {k} && |now.at| == |now.at.Keys| && |next.at| == |next.at.Keys|;
    }
  }

  lemma SweepEnds<K, V>(m: OrderedMap<K, V>, good: set<K>)
    requires Listed(m) && good <= m.at.Keys
    ensures Restrict(m, Swept(m, |m.order|, good)) == Restrict(m, good)
  {
    hide Restrict;
    assert m.order[..|m.order|] == m.order;
    assert Swept(m, |m.order|, good) == good;
  }
}
