/** The Redis cache: texts to values with an optional expiry, in nanoseconds of one clock. Values stand
    for their JSON encoding. */
module Redis {
  import opened Text
  import opened CacheKeys
  import opened Joins

  const SECOND := 1_000_000_000
  const TTL_ONU_LIST := 60 * SECOND
  const TTL_ONU_NAMES := 10 * 60 * 60 * SECOND

  datatype Value = ListValue(items: seq<ListItem>) | NamesValue(names: seq<NameEntry>) | Blob(data: string)

  datatype Entry = Entry(value: Value, expires: Option<int>) {
    predicate Live(now: int) { expires.None? || now < expires.value }
  }

  type Store = map<string, Entry>

  /** GET: an expired key is absent. */
  function Get(store: Store, key: string, now: int): Option<Value> {
    if key in store && store[key].Live(now) then Some(store[key].value) else None
  }

  function GetList(store: Store, port: Port, now: int): Option<seq<ListItem>> {
    match Get(store, KeyText(OnuList(port.oltId, port.board, port.pon)), now)
    case Some(ListValue(items)) => Some(items)
    case _ => None
  }

  function GetNames(store: Store, port: Port, now: int): Option<seq<NameEntry>> {
    match Get(store, KeyText(OnuNames(port.oltId, port.board, port.pon)), now)
    case Some(NamesValue(names)) => Some(names)
    case _ => None
  }

  /** A list lifetime that is not positive falls back to the default. */
  function WithList(store: Store, port: Port, items: seq<ListItem>, ttl: int, now: int): Store {
    store[KeyText(OnuList(port.oltId, port.board, port.pon)) :=
      Entry(ListValue(items), Some(now + if ttl <= 0 then TTL_ONU_LIST else ttl))]
  }

  function WithNames(store: Store, port: Port, names: seq<NameEntry>, now: int): Store {
    store[KeyText(OnuNames(port.oltId, port.board, port.pon)) :=
      Entry(NamesValue(names), Some(now + TTL_ONU_NAMES))]
  }

  function WithoutMatching(store: Store, pattern: string): (r: Store)
    ensures r.Keys <= store.Keys
  {
    map key | key in store && !Glob(pattern, key) :: store[key]
  }

  lemma KeysApart(p: Port, q: Port)
    ensures KeyText(OnuList(p.oltId, p.board, p.pon)) != KeyText(OnuNames(q.oltId, q.board, q.pon))
    ensures p != q ==> KeyText(OnuList(p.oltId, p.board, p.pon)) != KeyText(OnuList(q.oltId, q.board, q.pon))
    ensures p != q ==> KeyText(OnuNames(p.oltId, p.board, p.pon)) != KeyText(OnuNames(q.oltId, q.board, q.pon))
  {
    var lp, nq := OnuList(p.oltId, p.board, p.pon), OnuNames(q.oltId, q.board, q.pon);
    if KeyText(lp) == KeyText(nq) { KeyTextInjective(lp, nq); }
    var lq, np := OnuList(q.oltId, q.board, q.pon), OnuNames(p.oltId, p.board, p.pon);
    if p != q {
      if KeyText(lp) == KeyText(lq) { KeyTextInjective(lp, lq); }
      if KeyText(np) == KeyText(nq) { KeyTextInjective(np, nq); }
    }
  }

  /** Writing a list: its port reads it back until its lifetime is over and then nothing, and no other key
      is touched, so other lists and all names read as before. */
  lemma ListWritten(store: Store, port: Port, items: seq<ListItem>, ttl: int, now: int, other: Port, later: int)
    ensures var after := WithList(store, port, items, ttl, now);
            && (GetList(after, port, later) == if later < now + (if ttl <= 0 then 60_000_000_000 else ttl) then Some(items) else None)
            && (other != port ==> GetList(after, other, later) == GetList(store, other, later))
            && GetNames(after, other, later) == GetNames(store, other, later)
            && after - {KeyText(OnuList(port.oltId, port.board, port.pon))} == store - {KeyText(OnuList(port.oltId, port.board, port.pon))}
  {
    KeysApart(port, other);
  }

  /** Writing names: the same, with ten hours. */
  lemma NamesWritten(store: Store, port: Port, names: seq<NameEntry>, now: int, other: Port, later: int)
    ensures var after := WithNames(store, port, names, now);
            && (GetNames(after, port, later) == if later < now + 36_000_000_000_000 then Some(names) else None)
            && (other != port ==> GetNames(after, other, later) == GetNames(store, other, later))
            && GetList(after, other, later) == GetList(store, other, later)
            && after - {KeyText(OnuNames(port.oltId, port.board, port.pon))} == store - {KeyText(OnuNames(port.oltId, port.board, port.pon))}
  {
    KeysApart(other, port);
  }

  /** Which Redis calls of one operation succeed. A failing read counts as a miss, a failing write is
      logged and leaves the store as it is. */
  datatype Calls = Calls(readList: bool, readNames: bool, writeList: bool, writeNames: bool)

  function ReadListOf(store: Store, port: Port, now: int, calls: Calls): Option<seq<ListItem>> {
    if calls.readList then GetList(store, port, now) else None
  }

  function ReadNamesOf(store: Store, port: Port, now: int, calls: Calls): Option<seq<NameEntry>> {
    if calls.readNames then GetNames(store, port, now) else None
  }

  class RedisCache {
    var store: Store

    constructor ()
      ensures store == map[]
    {
      store := map[];
    }

    method SetOnuListWithTtl(port: Port, items: seq<ListItem>, ttl: int, now: int, ok: bool)
      modifies this
      ensures store == if ok then WithList(old(store), port, items, ttl, now) else old(store)
    {
      if !ok {
        return;
      }
      var lifetime := ttl;
      if lifetime <= 0 {
        lifetime := TTL_ONU_LIST;
      }
      store := store[KeyText(OnuList(port.oltId, port.board, port.pon)) := Entry(ListValue(items), Some(now + lifetime))];
    }

    method SetOnuNames(port: Port, names: seq<NameEntry>, now: int, ok: bool)
      modifies this
      ensures store == if ok then WithNames(old(store), port, names, now) else old(store)
    {
      if !ok {
        return;
      }
      store := store[KeyText(OnuNames(port.oltId, port.board, port.pon)) := Entry(NamesValue(names), Some(now + TTL_ONU_NAMES))];
    }

    method Delete(keys: set<string>)
      modifies this
      ensures store == old(store) - keys
    {
      store := store - keys;
    }

    /** Deleting by pattern with a cursor. `pages` are the keys SCAN visits from each cursor value, and
        `failAt` is the page at which a Redis call fails, if any. Redis promises that an iteration that
        completes visits every key present throughout it. */
    method DeleteByPattern(pattern: string, pages: seq<set<string>>, failAt: Option<nat>) returns (ok: bool)
      requires forall key :: key in store ==> exists i :: 0 <= i < |pages| && key in pages[i]
      modifies this
      ensures ok ==> store == WithoutMatching(old(store), pattern)
      ensures forall key :: key in store ==> key in old(store) && store[key] == old(store)[key]
      ensures forall key :: key in old(store) && !Glob(pattern, key) ==> key in store
      ensures ok <==> failAt.None? || failAt.value >= |pages|
    {
      var cursor := 0;
      while cursor < |pages|
        invariant 0 <= cursor <= |pages|
        invariant failAt.Some? ==> cursor <= failAt.value || |pages| <= failAt.value
        invariant forall key :: key in store ==> key in old(store) && store[key] == old(store)[key]
        invariant forall key :: key in old(store) && !Glob(pattern, key) ==> key in store
        invariant forall i, key :: 0 <= i < cursor && key in pages[i] && key in store ==> !Glob(pattern, key)
      {
        if failAt == Some(cursor) {
          return false;
        }
        var found := set key | key in pages[cursor] && key in store && Glob(pattern, key);
        Delete(found);
        cursor := cursor + 1;
      }
      assert store.Keys == WithoutMatching(old(store), pattern).Keys;
      return true;
    }

    method InvalidateOlt(olt: string, pages: seq<set<string>>, failAt: Option<nat>) returns (ok: bool)
      requires forall key :: key in store ==> exists i :: 0 <= i < |pages| && key in pages[i]
      modifies this
      ensures ok ==> store == WithoutMatching(old(store), OltPattern(olt))
      ensures forall key :: key in store ==> key in old(store) && store[key] == old(store)[key]
      ensures forall key :: key in old(store) && !Glob(OltPattern(olt), key) ==> key in store
      ensures ok <==> failAt.None? || failAt.value >= |pages|
    {
      ok := DeleteByPattern(OltPattern(olt), pages, failAt);
    }
  }
}
