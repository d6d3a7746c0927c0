/** The search index over all OLTs: one goroutine per OLT walks it and appends what it found. */
module SyncIndex {
  import opened Text
  import opened Indexer
  import opened Joins
  import Gather

  /** One OLT and what its walks return; without a status walk its lock, client, connection or walk
      failed. */
  datatype Target = Target(oltId: string, walks: OltWalks)

  /** The items of an index with their multiplicity: ONUs of different interface indexes can look alike. */
  ghost function BagOf(m: map<Onu, SearchItem>): multiset<SearchItem>
    decreases |m.Keys|
  {
    if m.Keys == {} then multiset{}
    else
      var o := AnyOnu(m.Keys);
      var rest := m - {o};
      assert rest.Keys == m.Keys - {o};
      multiset{m[o]} + BagOf(rest)
  }

  ghost function AnyOnu(s: set<Onu>): (o: Onu)
    requires s != {}
    ensures o in s
  {
    var o :| o in s;
    o
  }

  function Without<T>(s: seq<T>, i: nat): (r: seq<T>)
    requires i < |s|
    ensures |r| == |s| - 1
    ensures forall k :: 0 <= k < |r| ==> r[k] == s[if k < i then k else k + 1]
  {
    s[..i] + s[i + 1..]
  }

  lemma WithoutBag<T>(s: seq<T>, i: nat)
    requires i < |s|
    ensures multiset(s) == multiset(Without(s, i)) + multiset{s[i]}
  {
    assert s == s[..i] + [s[i]] + s[i + 1..];
  }

  lemma WithoutOne(items: seq<SearchItem>, order: seq<Onu>, m: map<Onu, SearchItem>, i: nat)
    requires ListsInOrder(items, order, m) && i < |order|
    ensures ListsInOrder(Without(items, i), Without(order, i), m - {order[i]})
  {
    var order' := Without(order, i);
    forall o | o in m - {order[i]} ensures o in order' {
      var k :| 0 <= k < |order| && order[k] == o;
      assert order'[if k < i then k else k - 1] == o;
    }
  }

  /** A listing in any order holds the same items. */
  lemma {:induction false} ListedBag(items: seq<SearchItem>, order: seq<Onu>, m: map<Onu, SearchItem>)
    requires ListsInOrder(items, order, m)
    ensures multiset(items) == BagOf(m)
    decreases |m.Keys|
  {
    if m.Keys == {} {
      assert |order| == 0;
    } else {
      var o := AnyOnu(m.Keys);
      var i :| 0 <= i < |order| && order[i] == o;
      WithoutOne(items, order, m, i);
      WithoutBag(items, i);
      assert (m - {o}).Keys == m.Keys - {o};
      ListedBag(Without(items, i), Without(order, i), m - {o});
    }
  }

  /** What the goroutine of one OLT appends: its items in some order, or nothing. */
  ghost predicate PartOf(t: Target, part: seq<SearchItem>) {
    if t.walks.status.None? then part == []
    else exists order :: ListsInOrder(part, order, IndexMap(t.oltId, IndexTablesOf(t.walks)))
  }

  method WalkTarget(t: Target) returns (part: seq<SearchItem>)
    ensures PartOf(t, part)
  {
    var items, order := WalkOlt(t.oltId, t.walks);
    if items.None? {
      return [];
    }
    return items.value;
  }

  ghost function ItemsOf(t: Target): multiset<SearchItem> {
    if t.walks.status.None? then multiset{} else BagOf(IndexMap(t.oltId, IndexTablesOf(t.walks)))
  }

  /** Every OLT's items. */
  ghost function AllItems(targets: seq<Target>): multiset<SearchItem> {
    if targets == [] then multiset{} else ItemsOf(targets[0]) + AllItems(targets[1..])
  }

  /** One part per OLT. */
  ghost predicate PartsOf(targets: seq<Target>, parts: seq<seq<SearchItem>>) {
    |parts| == |targets| && (targets != [] ==> PartOf(targets[0], parts[0]) && PartsOf(targets[1..], parts[1..]))
  }

  lemma {:induction false} PartsBag(targets: seq<Target>, parts: seq<seq<SearchItem>>)
    requires PartsOf(targets, parts)
    ensures multiset(Gather.Concat(parts)) == AllItems(targets)
    decreases |targets|
  {
    if targets != [] {
      PartsBag(targets[1..], parts[1..]);
      PartBag(targets[0], parts[0]);
    }
  }

  lemma PartBag(t: Target, part: seq<SearchItem>)
    requires PartOf(t, part)
    ensures multiset(part) == ItemsOf(t)
  {
    if t.walks.status.Some? {
      var m := IndexMap(t.oltId, IndexTablesOf(t.walks));
      var order :| ListsInOrder(part, order, m);
      ListedBag(part, order, m);
    }
  }

  /** In every order of the goroutines, and of the map iterations inside them, the index that is stored
      holds exactly every reachable OLT's items, each as often as it occurs there. */
  lemma SyncAllCollects(states: seq<Gather.State<SearchItem>>, moves: seq<Gather.Move>,
                        targets: seq<Target>, parts: seq<seq<SearchItem>>)
    requires Gather.Run(states, moves, parts) && states[|moves|].past
    requires PartsOf(targets, parts)
    ensures multiset(states[|moves|].gathered) == AllItems(targets)
  {
    Gather.GatheredAll(states, moves, parts);
    PartsBag(targets, parts);
  }
}
