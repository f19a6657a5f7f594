/** A bounded map with first-in-first-out eviction, on values: the map, the order
    its keys were inserted in, and the log of every insertion so far. */
module Fifo {

  predicate NoRepeats<K(==)>(s: seq<K>) {
    forall a, b :: 0 <= a < b < |s| ==> s[a] != s[b]
  }

  /** The keys held are exactly the latest max insertions, in order, once each. */
  ghost predicate IsFifo<K(!new), E>(entries: map<K, E>, order: seq<K>, inserted: seq<K>, max: nat) {
    && NoRepeats(order)
    && (forall k :: k in order <==> k in entries)
    && |order| == (if |inserted| < max then |inserted| else max)
    && forall n :: 0 <= n < |order| ==> order[n] == inserted[|inserted| - |order| + n]
  }

  /** The map after a put: a new key evicts the oldest once the map is full. */
  function Stored<K(==), E>(entries: map<K, E>, order: seq<K>, max: nat, key: K, e: E): map<K, E> {
    (if key !in entries && |order| >= max && order != [] then entries - {order[0]} else entries)[key := e]
  }

  function Reordered<K(==), E>(entries: map<K, E>, order: seq<K>, max: nat, key: K): seq<K> {
    if key in entries then order
    else (if |order| >= max && order != [] then order[1..] else order) + [key]
  }

  function Logged<K(==), E>(entries: map<K, E>, inserted: seq<K>, key: K): seq<K> {
    if key in entries then inserted else inserted + [key]
  }

  lemma NewKeyKeepsFifo<K(!new), E>(entries: map<K, E>, order: seq<K>, inserted: seq<K>, max: nat, key: K, e: E)
    requires max > 0 && IsFifo(entries, order, inserted, max) && key !in entries && |order| < max
    ensures IsFifo(entries[key := e], order + [key], inserted + [key], max)
  {
  }

  lemma EvictingKeepsFifo<K(!new), E>(entries: map<K, E>, order: seq<K>, inserted: seq<K>, max: nat, key: K, e: E)
    requires max > 0 && IsFifo(entries, order, inserted, max) && key !in entries && |order| >= max
    ensures IsFifo((entries - {order[0]})[key := e], order[1..] + [key], inserted + [key], max)
  {
    assert order == [order[0]] + order[1..];
    assert (inserted + [key])[|inserted| + 1 - |order|..] == inserted[|inserted| - |order|..][1..] + [key];
  }

  lemma PutKeepsFifo<K(!new), E>(entries: map<K, E>, order: seq<K>, inserted: seq<K>, max: nat, key: K, e: E)
    requires max > 0 && IsFifo(entries, order, inserted, max)
    ensures IsFifo(Stored(entries, order, max, key, e), Reordered(entries, order, max, key),
                   Logged(entries, inserted, key), max)
  {
    if key in entries {
    } else if |order| >= max {
      EvictingKeepsFifo(entries, order, inserted, max, key, e);
    } else {
      NewKeyKeepsFifo(entries, order, inserted, max, key, e);
    }
  }

  /** A key is held exactly when it is among the latest max insertions. */
  lemma HeldExactly<K(!new), E>(entries: map<K, E>, order: seq<K>, inserted: seq<K>, max: nat, key: K)
    requires IsFifo(entries, order, inserted, max)
    ensures key in entries <==> key in inserted[if |inserted| < max then 0 else |inserted| - max..]
  {
    assert order == inserted[|inserted| - |order|..];
  }

  // ---- many puts in a row ----

  /** The keys held after one put, oldest first. */
  function PutOrder<K(==)>(order: seq<K>, max: nat, key: K): seq<K> {
    if key in order then order
    else (if |order| >= max && order != [] then order[1..] else order) + [key]
  }

  lemma SameOrder<K(!new), E>(entries: map<K, E>, order: seq<K>, inserted: seq<K>, max: nat, key: K)
    requires IsFifo(entries, order, inserted, max)
    ensures Reordered(entries, order, max, key) == PutOrder(order, max, key)
  {
  }

  function OrderAfter<K(==)>(order: seq<K>, max: nat, keys: seq<K>): seq<K> {
    if keys == [] then order else PutOrder(OrderAfter(order, max, keys[..|keys| - 1]), max, keys[|keys| - 1])
  }

  lemma OneMorePut<K>(order: seq<K>, max: nat, keys: seq<K>, key: K)
    ensures OrderAfter(order, max, keys + [key]) == PutOrder(OrderAfter(order, max, keys), max, key)
  {
    assert (keys + [key])[..|keys|] == keys;
  }

  function NewOf<K(==)>(order: seq<K>, keys: seq<K>): (ks: seq<K>)
    ensures |ks| <= |keys|
  {
    if keys == [] then []
    else
      var last := keys[|keys| - 1];
      NewOf(order, keys[..|keys| - 1]) + (if last in order then [] else [last])
  }

  lemma {:induction false} NewOfMembers<K(!new)>(order: seq<K>, keys: seq<K>)
    ensures forall k :: k in NewOf(order, keys) <==> k in keys && k !in order
    ensures NoRepeats(keys) ==> NoRepeats(NewOf(order, keys))
  {
    if keys == [] {
    } else {
      var n := |keys| - 1;
      NewOfMembers(order, keys[..n]);
      assert keys == keys[..n] + [keys[n]];
    }
  }

  /** How many of the oldest keys make room for newcomers. */
  function Evicted(held: nat, newcomers: nat, max: nat): nat {
    if held + newcomers > max then held + newcomers - max else 0
  }

  lemma PutHeld<K>(order: seq<K>, max: nat, key: K, n: nat)
    requires n < |order| && order[n] == key
    ensures PutOrder(order, max, key) == order
  {
  }

  lemma PutNew<K>(rest: seq<K>, newer: seq<K>, max: nat, key: K)
    requires key !in rest && key !in newer && |newer| < max
    ensures PutOrder(rest + newer, max, key)
      == (if |rest| + |newer| >= max then rest[1..] else rest) + (newer + [key])
  {
    var now := rest + newer;
    assert key !in now;
    if |now| >= max {
      assert now[1..] == rest[1..] + newer;
      assert (rest[1..] + newer) + [key] == rest[1..] + (newer + [key]);
    } else {
      assert now + [key] == rest + (newer + [key]);
    }
  }

  lemma PutNext<K>(order: seq<K>, max: nat, newer: seq<K>, key: K)
    requires |order| <= max && |newer| < max && key !in newer
    requires key !in order[..Evicted(|order|, |newer|, max)]
    ensures
      var e, after := Evicted(|order|, |newer|, max), if key in order then newer else newer + [key];
      Evicted(|order|, |after|, max) <= |order|
      && PutOrder(order[e..] + newer, max, key) == order[Evicted(|order|, |after|, max)..] + after
  {
    var e := Evicted(|order|, |newer|, max);
    assert order == order[..e] + order[e..];
    if key in order {
      var p :| 0 <= p < |order[e..]| && order[e..][p] == key;
      PutHeld(order[e..] + newer, max, key, p);
    } else {
      PutNew(order[e..], newer, max, key);
      assert e < |order| ==> order[e..][1..] == order[e + 1..];
    }
  }

  /** If the keys that make room are none of those put, what is held in the end is the
      rest of what was there and then the newcomers. */
  lemma {:induction false} OrderAfterIs<K(!new)>(order: seq<K>, max: nat, keys: seq<K>)
    requires NoRepeats(order) && NoRepeats(keys) && |order| <= max && |keys| <= max
    requires forall p :: 0 <= p < Evicted(|order|, |NewOf(order, keys)|, max) && p < |order| ==> order[p] !in keys
    ensures Evicted(|order|, |NewOf(order, keys)|, max) <= |order|
    ensures OrderAfter(order, max, keys) == order[Evicted(|order|, |NewOf(order, keys)|, max)..] + NewOf(order, keys)
  {
    if keys == [] {
    } else {
      var n := |keys| - 1;
      var front, last := keys[..n], keys[n];
      assert keys == front + [last];
      OrderAfterIs(order, max, front);
      NewOfMembers(order, front);
      PutNext(order, max, NewOf(order, front), last);
      assert NewOf(order, keys) == if last in order then NewOf(order, front) else NewOf(order, front) + [last];
    }
  }

  ghost predicate Lists<K(!new)>(keys: seq<K>, all: set<K>) {
    NoRepeats(keys) && forall k :: k in keys <==> k in all
  }

  lemma {:induction false} ListLength<K(!new)>(keys: seq<K>, all: set<K>)
    requires Lists(keys, all)
    ensures |keys| == |all|
  {
    if keys == [] {
      assert all == {};
    } else {
      var n := |keys| - 1;
      assert keys == keys[..n] + [keys[n]];
      ListLength(keys[..n], all - {keys[n]});
    }
  }

  lemma {:induction false} MakeList<K(!new)>(all: set<K>) returns (keys: seq<K>)
    ensures Lists(keys, all)
  {
    if all == {} {
      keys := [];
    } else {
      var k :| k in all;
      keys := MakeList(all - {k});
      keys := keys + [k];
    }
  }

  /** No key to be put is among the oldest that make room for the others. */
  predicate Roomy<K(==)>(order: seq<K>, max: nat, all: set<K>) {
    && |all| <= max
    && forall p :: 0 <= p < |order| && p < Evicted(|order|, |set k | k in all && k !in order|, max) ==> order[p] !in all
  }

  lemma NewcomersCount<K(!new)>(order: seq<K>, keys: seq<K>, all: set<K>)
    requires Lists(keys, all)
    ensures |NewOf(order, keys)| == |set k | k in all && k !in order|
  {
    NewOfMembers(order, keys);
    ListLength(NewOf(order, keys), set k | k in all && k !in order);
  }

  /** Then all of them are held in the end, whatever order they are put in. */
  lemma KeptInEveryOrder<K(!new)>(order: seq<K>, max: nat, keys: seq<K>, all: set<K>)
    requires NoRepeats(order) && |order| <= max && Lists(keys, all) && Roomy(order, max, all)
    ensures forall k :: k in all ==> k in OrderAfter(order, max, keys)
  {
    ListLength(keys, all);
    NewcomersCount(order, keys, all);
    OrderAfterIs(order, max, keys);
    NewOfMembers(order, keys);
    var e := Evicted(|order|, |NewOf(order, keys)|, max);
    forall k | k in all ensures k in OrderAfter(order, max, keys) {
      if k in order {
        var p :| 0 <= p < |order| && order[p] == k;
        assert order[e..][p - e] == k;
      }
    }
  }

  lemma {:induction false} OrderAfterFits<K>(order: seq<K>, max: nat, keys: seq<K>)
    requires |order| <= max && max > 0
    ensures |OrderAfter(order, max, keys)| <= max
  {
    if keys != [] {
      OrderAfterFits(order, max, keys[..|keys| - 1]);
    }
  }

  lemma {:induction false} MembersFit<K(!new)>(s: seq<K>, all: set<K>)
    requires forall k :: k in all ==> k in s
    ensures |all| <= |s|
  {
    if s == [] {
      assert all == {};
    } else {
      var n := |s| - 1;
      assert s == s[..n] + [s[n]];
      MembersFit(s[..n], all - {s[n]});
    }
  }

  lemma {:induction false} HeldPutsChangeNothing<K>(order: seq<K>, max: nat, held: seq<K>)
    requires forall k :: k in held ==> k in order
    ensures OrderAfter(order, max, held) == order
  {
    if held != [] {
      HeldPutsChangeNothing(order, max, held[..|held| - 1]);
    }
  }

  lemma {:induction false} OrderAfterConcat<K>(order: seq<K>, max: nat, xs: seq<K>, ys: seq<K>)
    ensures OrderAfter(order, max, xs + ys) == OrderAfter(OrderAfter(order, max, xs), max, ys)
  {
    if ys == [] {
      assert xs + ys == xs;
    } else {
      var n := |ys| - 1;
      assert (xs + ys)[..|xs + ys| - 1] == xs + ys[..n];
      OrderAfterConcat(order, max, xs, ys[..n]);
    }
  }

  lemma JoinLists<K(!new)>(xs: seq<K>, ys: seq<K>, a: set<K>, b: set<K>)
    requires Lists(xs, a) && Lists(ys, b) && a !! b
    ensures Lists(xs + ys, a + b)
  {
    forall i, j | 0 <= i < j < |xs + ys| ensures (xs + ys)[i] != (xs + ys)[j] {
      if i < |xs| <= j {
        assert xs[i] in a && ys[j - |xs|] in b;
      }
    }
  }

  lemma TooMany<K(!new)>(order: seq<K>, max: nat, keys: seq<K>, all: set<K>) returns (lost: K)
    requires |order| <= max && 0 < max < |all|
    ensures lost in all && lost !in OrderAfter(order, max, keys)
  {
    OrderAfterFits(order, max, keys);
    if forall k :: k in all ==> k in OrderAfter(order, max, keys) {
      MembersFit(OrderAfter(order, max, keys), all);
    }
    lost :| lost in all && lost !in OrderAfter(order, max, keys);
  }

  /** Once the held keys are put, the newcomers push the oldest out. */
  lemma PushedOut<K(!new)>(order: seq<K>, max: nat, held: seq<K>, newer: seq<K>, p: nat)
    requires NoRepeats(order) && |order| <= max && NoRepeats(newer) && |newer| <= max
    requires (forall k :: k in held ==> k in order) && (forall k :: k in newer ==> k !in order)
    requires p < |order| && p < Evicted(|order|, |newer|, max)
    ensures order[p] !in OrderAfter(order, max, held + newer)
  {
    HeldPutsChangeNothing(order, max, held);
    OrderAfterConcat(order, max, held, newer);
    NewOfMembers(order, newer);
    AllNew(order, newer);
    OrderAfterIs(order, max, newer);
    assert order[p] !in order[Evicted(|order|, |newer|, max)..];
  }

  lemma {:induction false} AllNew<K>(order: seq<K>, newer: seq<K>)
    requires forall k :: k in newer ==> k !in order
    ensures NewOf(order, newer) == newer
  {
    if newer != [] {
      AllNew(order, newer[..|newer| - 1]);
    }
  }

  /** Otherwise some order loses one: put first what is held already, and then the
      newcomers push it out. */
  lemma LostInSomeOrder<K(!new)>(order: seq<K>, max: nat, all: set<K>) returns (keys: seq<K>, lost: K)
    requires NoRepeats(order) && |order| <= max && max > 0 && !Roomy(order, max, all)
    ensures Lists(keys, all) && lost in all && lost !in OrderAfter(order, max, keys)
  {
    var a, b := set k | k in all && k in order, set k | k in all && k !in order;
    var held := MakeList(a);
    var newer := MakeList(b);
    keys := held + newer;
    JoinLists(held, newer, a, b);
    assert a + b == all;
    if |all| > max {
      lost := TooMany(order, max, keys, all);
    } else {
      ListLength(keys, all);
      ListLength(newer, b);
      var p :| 0 <= p < |order| && p < Evicted(|order|, |b|, max) && order[p] in all;
      lost := order[p];
      PushedOut(order, max, held, newer, p);
    }
  }
}
