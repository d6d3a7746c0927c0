/** Lists of values in increasing order of an integer key: what ranging over a map and then sorting
    by key yields, whatever the order of the range. */
module Keyed {

  ghost predicate Increasing(ids: seq<int>) {
    forall i, j :: 0 <= i < j < |ids| ==> ids[i] < ids[j]
  }

  lemma Inhabitant<T>(s: set<T>) returns (k: T)
    requires s != {}
    ensures k in s
  {
    k :| k in s;
  }

  lemma {:induction false} MinExists(s: set<int>)
    requires s != {}
    ensures exists m :: m in s && forall x :: x in s ==> m <= x
  {
    var k := Inhabitant(s);
    var rest := s - {k};
    if rest != {} {
      MinExists(rest);
      var m :| m in rest && forall x :: x in rest ==> m <= x;
      var least := if m < k then m else k;
      assert least in s && forall x :: x in s ==> x == k || x in rest;
    } else {
      assert s == {k};
    }
  }

  ghost function MinOf(s: set<int>): (m: int)
    requires s != {}
    ensures m in s && forall x :: x in s ==> m <= x
  {
    MinExists(s);
    var m :| m in s && forall x :: x in s ==> m <= x;
    m
  }

  ghost function SortedKeys(s: set<int>): (ids: seq<int>)
    ensures Increasing(ids)
    ensures forall x :: x in ids <==> x in s
    ensures forall i :: 0 <= i < |ids| ==> ids[i] in s
  {
    if s == {} then [] else
      var m := MinOf(s);
      [m] + SortedKeys(s - {m})
  }

  /** A strictly increasing sequence is determined by its elements. */
  lemma {:induction false} IncreasingUnique(a: seq<int>, b: seq<int>)
    requires Increasing(a) && Increasing(b)
    requires forall x :: x in a <==> x in b
    ensures a == b
  {
    assert b != [] ==> b[0] in b;
    if a != [] {
      assert a[0] in a;
      assert a[0] == b[0];
      forall x ensures x in a[1..] <==> x in b[1..] {
        assert x in a <==> x == a[0] || x in a[1..];
        assert x in b <==> x == b[0] || x in b[1..];
      }
      IncreasingUnique(a[1..], b[1..]);
    }
  }

  ghost function ValuesAt<T>(m: map<int, T>, ids: seq<int>): (values: seq<T>)
    requires forall i :: 0 <= i < |ids| ==> ids[i] in m
    ensures |values| == |ids|
    ensures forall i :: 0 <= i < |ids| ==> values[i] == m[ids[i]]
  {
    seq(|ids|, i requires 0 <= i < |ids| => m[ids[i]])
  }

  /** The values of a keyed map in increasing order of key. */
  ghost function ListOf<T>(m: map<int, T>): (values: seq<T>)
    ensures |values| == |SortedKeys(m.Keys)|
  {
    ValuesAt(m, SortedKeys(m.Keys))
  }

  ghost predicate KeysIncreasing<T>(values: seq<T>, key: T -> int) {
    forall i, j :: 0 <= i < j < |values| ==> key(values[i]) < key(values[j])
  }

  lemma KeyedListUnique<T>(m: map<int, T>, values: seq<T>, key: T -> int)
    requires forall id :: id in m ==> key(m[id]) == id && m[id] in values
    requires forall i :: 0 <= i < |values| ==> key(values[i]) in m && values[i] == m[key(values[i])]
    requires KeysIncreasing(values, key)
    ensures values == ListOf(m)
  {
    var ids := seq(|values|, i requires 0 <= i < |values| => key(values[i]));
    forall x ensures x in ids <==> x in SortedKeys(m.Keys) {
      if x in m {
        var i :| 0 <= i < |values| && values[i] == m[x];
        assert ids[i] == x;
      }
    }
    IncreasingUnique(ids, SortedKeys(m.Keys));
  }

  function InsertAt<T>(values: seq<T>, j: nat, x: T): (r: seq<T>)
    requires j <= |values|
    ensures |r| == |values| + 1
    ensures forall k :: 0 <= k < |r| ==> r[k] == if k < j then values[k] else if k == j then x else values[k - 1]
  {
    values[..j] + [x] + values[j..]
  }

  lemma InsertAtMembers<T>(values: seq<T>, j: nat, x: T)
    requires j <= |values|
    ensures forall v :: v in InsertAt(values, j, x) <==> v in values || v == x
  {
  }

  method InsertByKey<T>(sorted: seq<T>, x: T, key: T -> int) returns (r: seq<T>)
    requires KeysIncreasing(sorted, key)
    requires forall k :: 0 <= k < |sorted| ==> key(sorted[k]) != key(x)
    ensures KeysIncreasing(r, key)
    ensures forall v :: v in r <==> v in sorted || v == x
  {
    var j := 0;
    while j < |sorted| && key(sorted[j]) < key(x)
      invariant 0 <= j <= |sorted|
      invariant forall k :: 0 <= k < j ==> key(sorted[k]) < key(x)
    {
      j := j + 1;
    }
    InsertAtMembers(sorted, j, x);
    r := InsertAt(sorted, j, x);
  }

  /** sort.Slice by a key no two elements share. */
  method SortSlice<T>(values: seq<T>, key: T -> int) returns (sorted: seq<T>)
    requires forall i, j :: 0 <= i < j < |values| ==> key(values[i]) != key(values[j])
    ensures KeysIncreasing(sorted, key)
    ensures forall v :: v in sorted <==> v in values
  {
    sorted := [];
    for i := 0 to |values|
      invariant KeysIncreasing(sorted, key)
      invariant forall v :: v in sorted <==> v in values[..i]
    {
      assert forall k :: 0 <= k < |sorted| ==> sorted[k] in values[..i];
      assert values[..i + 1] == values[..i] + [values[i]];
      sorted := InsertByKey(sorted, values[i], key);
    }
    assert values[..|values|] == values;
  }

  /** One step of ranging over the keys of a map, in any order. */
  method TakeKey<K>(keys: set<K>) returns (k: K, rest: set<K>)
    requires keys != {}
    ensures k in keys && rest == keys - {k}
  {
    k :| k in keys;
    rest := keys - {k};
  }

  /** Ranging over a map in any order, appending, and sorting by key. */
  method CollectSorted<T>(m: map<int, T>, key: T -> int) returns (values: seq<T>)
    requires forall id :: id in m ==> key(m[id]) == id
    ensures values == ListOf(m)
  {
    var collected := [];
    var rest := m.Keys;
    while rest != {}
      invariant rest <= m.Keys
      invariant forall i :: 0 <= i < |collected| ==>
        key(collected[i]) in m.Keys - rest && collected[i] == m[key(collected[i])]
      invariant forall id :: id in m.Keys - rest ==> m[id] in collected
      invariant forall i, j :: 0 <= i < j < |collected| ==> key(collected[i]) != key(collected[j])
    {
      var id, others := TakeKey(rest);
      collected := collected + [m[id]];
      rest := others;
    }
    values := SortSlice(collected, key);
    forall i | 0 <= i < |values|
      ensures key(values[i]) in m && values[i] == m[key(values[i])]
    {
      assert values[i] in collected;
    }
    KeyedListUnique(m, values, key);
  }
}
