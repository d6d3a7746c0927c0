/** The on-demand ONU list: cached, merged with cached names, or joined from four SNMP walks. */
module OnuService {
  import opened Text
  import opened Decimal
  import opened Oids
  import opened IfIndex
  import opened Pdus
  import opened Keyed
  import opened Joins
  import opened Redis
  import opened AdaptiveTtl
  import Pipeline

  datatype FetchError = OltNotFound | Cancelled | WalkFailed
  datatype FetchResult = Listed(items: seq<ListItem>) | Failed(error: FetchError)

  // ---- serving from the cache

  predicate Complete(items: seq<ListItem>) {
    forall i :: 0 <= i < |items| ==> items[i].name != ""
  }

  /** An item without a name takes name and serial number from the names cache, if it has an entry. */
  function MergedItem(item: ListItem, names: map<int, NameEntry>): ListItem {
    if item.name == "" && item.onuId in names
    then item.(name := names[item.onuId].name, serial := names[item.onuId].serial)
    else item
  }

  function Merged(items: seq<ListItem>, names: map<int, NameEntry>): (r: seq<ListItem>)
    ensures |r| == |items|
    ensures forall i :: 0 <= i < |r| ==> r[i] == MergedItem(items[i], names)
  {
    seq(|items|, i requires 0 <= i < |items| => MergedItem(items[i], names))
  }

  /** What merging promises: an item without a name whose ID has an entry is answered with that entry's
      name and serial number and is otherwise as cached; every other item is as cached. */
  ghost predicate NamesFilled(items: seq<ListItem>, cached: seq<ListItem>, names: map<int, NameEntry>) {
    && |items| == |cached|
    && forall i :: 0 <= i < |items| ==> ItemNamed(items[i], cached[i], names)
  }

  predicate ItemNamed(item: ListItem, cached: ListItem, names: map<int, NameEntry>) {
    if cached.name == "" && cached.onuId in names then
      && item.name == names[cached.onuId].name && item.serial == names[cached.onuId].serial
      && item.oltId == cached.oltId && item.board == cached.board && item.pon == cached.pon && item.onuId == cached.onuId
      && item.status == cached.status && item.statusCode == cached.statusCode && item.rxPower == cached.rxPower
    else item == cached
  }

  predicate Mergeable(items: seq<ListItem>, names: map<int, NameEntry>) {
    exists i :: 0 <= i < |items| && items[i].name == "" && items[i].onuId in names
  }

  /** What the cache alone answers; None means a fetch is needed. */
  function ServeCached(list: Option<seq<ListItem>>, names: Option<seq<NameEntry>>): Option<seq<ListItem>> {
    if list.None? || list.value == [] then None
    else if Complete(list.value) then list
    else if Mergeable(list.value, CachedNames(names)) then Some(Merged(list.value, CachedNames(names)))
    else None
  }

  /** The cache after a fetch that found ONUs: the list for an adaptive time, the names for ten hours. */
  function FetchedStore(store: Store, port: Port, items: seq<ListItem>, elapsed: int, now: int, calls: Calls): Store {
    if items == [] then store
    else
      var listed := if calls.writeList then WithList(store, port, items, Ttl(TTL_ONU_LIST, elapsed), now) else store;
      if calls.writeNames then WithNames(listed, port, NamesOf(items), now) else listed
  }

  /** Whether a cached list can be answered: not empty, and every item named or some nameless one named in
      the names cache. */
  ghost predicate Answerable(list: Option<seq<ListItem>>, names: Option<seq<NameEntry>>) {
    && list.Some? && list.value != []
    && ((forall i :: 0 <= i < |list.value| ==> list.value[i].name != "")
        || exists i :: 0 <= i < |list.value| && list.value[i].name == "" && list.value[i].onuId in CachedNames(names))
  }

  /** An answer from the cache: the cached list with names filled in. */
  ghost predicate AnsweredFrom(r: FetchResult, list: Option<seq<ListItem>>, names: Option<seq<NameEntry>>) {
    Answerable(list, names) && r.Listed? && NamesFilled(r.items, list.value, CachedNames(names))
  }

  lemma ServedFilled(list: Option<seq<ListItem>>, names: Option<seq<NameEntry>>)
    ensures ServeCached(list, names).Some? <==> Answerable(list, names)
    ensures ServeCached(list, names).Some? ==> NamesFilled(ServeCached(list, names).value, list.value, CachedNames(names))
  {
  }

  // ---- loops of the fetch

  method MergeNames(cached: seq<ListItem>, names: map<int, NameEntry>) returns (items: seq<ListItem>, merged: bool)
    ensures items == Merged(cached, names)
    ensures NamesFilled(items, cached, names)
    ensures merged <==> exists i :: 0 <= i < |cached| && cached[i].name == "" && cached[i].onuId in names
  {
    items := cached;
    merged := false;
    for i := 0 to |items|
      invariant |items| == |cached|
      invariant forall k :: 0 <= k < i ==> items[k] == MergedItem(cached[k], names)
      invariant forall k :: i <= k < |items| ==> items[k] == cached[k]
      invariant merged <==> exists k :: 0 <= k < i && cached[k].name == "" && cached[k].onuId in names
    {
      if items[i].name == "" && items[i].onuId in names {
        var n := names[items[i].onuId];
        items := items[i := items[i].(name := n.name, serial := n.serial)];
        merged := true;
      }
    }
  }

  method NeedsNames(items: seq<ListItem>) returns (needs: bool)
    ensures needs <==> !Complete(items)
  {
    for i := 0 to |items|
      invariant forall k :: 0 <= k < i ==> items[k].name != ""
    {
      if items[i].name == "" {
        return true;
      }
    }
    return false;
  }

  /** An ONU known only by its ID. */
  function Blank(port: Port, id: int): ListItem {
    ListItem(port.oltId, port.board, port.pon, id, "", "", "", 0, 0.0)
  }

  method GetOnu(onus: map<int, ListItem>, port: Port, id: int) returns (onu: ListItem)
    ensures onu == if id in onus then onus[id] else Blank(port, id)
  {
    if id !in onus {
      return Blank(port, id);
    }
    return onus[id];
  }

  lemma JoinedStep(port: Port, adapter: Adapter, before: Tables, after: Tables, id: int)
    requires after.Ids() == before.Ids() + {id}
    requires forall x :: x in before.Ids() && x != id ==> JoinedItem(port, adapter, after, x) == JoinedItem(port, adapter, before, x)
    ensures JoinMap(port, adapter, after) == JoinMap(port, adapter, before)[id := JoinedItem(port, adapter, after, id)]
  {
    var m, n := JoinMap(port, adapter, after), JoinMap(port, adapter, before);
    var n' := n[id := JoinedItem(port, adapter, after, id)];
    assert m.Keys == n'.Keys;
    forall x | x in m ensures m[x] == n'[x] {
      assert m[x] == JoinedItem(port, adapter, after, x);
    }
  }

  lemma BlankItem(port: Port, adapter: Adapter, t: Tables, id: int)
    ensures id !in t.Ids() ==> JoinedItem(port, adapter, t, id) == Blank(port, id)
  {
  }

  lemma SameElsewhere(port: Port, adapter: Adapter, t: Tables, after: Tables, id: int)
    requires forall x :: x != id ==>
      && (x in after.status <==> x in t.status) && (x in t.status ==> after.status[x] == t.status[x])
      && (x in after.names <==> x in t.names) && (x in t.names ==> after.names[x] == t.names[x])
      && (x in after.serials <==> x in t.serials) && (x in t.serials ==> after.serials[x] == t.serials[x])
      && (x in after.rx <==> x in t.rx) && (x in t.rx ==> after.rx[x] == t.rx[x])
    ensures forall x :: x != id ==> JoinedItem(port, adapter, after, x) == JoinedItem(port, adapter, t, x)
  {
  }

  lemma StatusStep(port: Port, adapter: Adapter, t: Tables, id: int, pdu: Pdu)
    ensures JoinMap(port, adapter, t.(status := t.status[id := pdu]))
            == JoinMap(port, adapter, t)[id := JoinedItem(port, adapter, t, id).(status := ParseOnuStatus(pdu), statusCode := PduInt(pdu))]
  {
    var after := t.(status := t.status[id := pdu]);
    assert after.Ids() == t.Ids() + {id};
    SameElsewhere(port, adapter, t, after, id);
    JoinedStep(port, adapter, t, after, id);
  }

  lemma NameStep(port: Port, adapter: Adapter, t: Tables, id: int, pdu: Pdu)
    ensures JoinMap(port, adapter, t.(names := t.names[id := pdu]))
            == JoinMap(port, adapter, t)[id := JoinedItem(port, adapter, t, id).(name := TrimSpace(PduToString(pdu)))]
  {
    var after := t.(names := t.names[id := pdu]);
    assert after.Ids() == t.Ids() + {id};
    SameElsewhere(port, adapter, t, after, id);
    JoinedStep(port, adapter, t, after, id);
  }

  lemma SerialStep(port: Port, adapter: Adapter, t: Tables, id: int, pdu: Pdu)
    ensures JoinMap(port, adapter, t.(serials := t.serials[id := pdu]))
            == JoinMap(port, adapter, t)[id := JoinedItem(port, adapter, t, id).(serial := ParseSerialNumber(pdu))]
  {
    var after := t.(serials := t.serials[id := pdu]);
    assert after.Ids() == t.Ids() + {id};
    SameElsewhere(port, adapter, t, after, id);
    JoinedStep(port, adapter, t, after, id);
  }

  lemma PowerStep(port: Port, adapter: Adapter, t: Tables, id: int, pdu: Pdu)
    ensures JoinMap(port, adapter, t.(rx := t.rx[id := pdu]))
            == JoinMap(port, adapter, t)[id := JoinedItem(port, adapter, t, id).(rxPower := ConvertPower(adapter, PduInt(pdu)))]
  {
    var after := t.(rx := t.rx[id := pdu]);
    assert after.Ids() == t.Ids() + {id};
    SameElsewhere(port, adapter, t, after, id);
    JoinedStep(port, adapter, t, after, id);
  }

  method JoinStatus(port: Port, ghost adapter: Adapter, pdus: seq<Pdu>, oid: string) returns (onus: map<int, ListItem>)
    ensures onus == JoinMap(port, adapter, Tables(Latest(pdus, Checked(oid)), map[], map[], map[]))
  {
    onus := map[];
    for i := 0 to |pdus|
      invariant onus == JoinMap(port, adapter, Tables(Latest(pdus[..i], Checked(oid)), map[], map[], map[]))
    {
      LatestStep(pdus, i, Checked(oid));
      var id := ExtractOnuId(pdus[i].name, oid);
      if id.Some? {
        StatusStep(port, adapter, Tables(Latest(pdus[..i], Checked(oid)), map[], map[], map[]), id.value, pdus[i]);
        BlankItem(port, adapter, Tables(Latest(pdus[..i], Checked(oid)), map[], map[], map[]), id.value);
        var onu := GetOnu(onus, port, id.value);
        onus := onus[id.value := onu.(status := ParseOnuStatus(pdus[i]), statusCode := PduInt(pdus[i]))];
      }
    }
    assert pdus[..|pdus|] == pdus;
  }

  method JoinNames(port: Port, ghost adapter: Adapter, ghost t: Tables, before: map<int, ListItem>, pdus: seq<Pdu>, oid: string)
    returns (onus: map<int, ListItem>)
    requires t.names == map[] && before == JoinMap(port, adapter, t)
    ensures onus == JoinMap(port, adapter, t.(names := Latest(pdus, Checked(oid))))
  {
    onus := before;
    for i := 0 to |pdus|
      invariant onus == JoinMap(port, adapter, t.(names := Latest(pdus[..i], Checked(oid))))
    {
      LatestStep(pdus, i, Checked(oid));
      var id := ExtractOnuId(pdus[i].name, oid);
      if id.Some? {
        NameStep(port, adapter, t.(names := Latest(pdus[..i], Checked(oid))), id.value, pdus[i]);
        BlankItem(port, adapter, t.(names := Latest(pdus[..i], Checked(oid))), id.value);
        var onu := GetOnu(onus, port, id.value);
        onus := onus[id.value := onu.(name := TrimSpace(PduToString(pdus[i])))];
      }
    }
    assert pdus[..|pdus|] == pdus;
  }

  method JoinSerials(port: Port, ghost adapter: Adapter, ghost t: Tables, before: map<int, ListItem>, pdus: seq<Pdu>, oid: string)
    returns (onus: map<int, ListItem>)
    requires t.serials == map[] && before == JoinMap(port, adapter, t)
    ensures onus == JoinMap(port, adapter, t.(serials := Latest(pdus, Checked(oid))))
  {
    onus := before;
    for i := 0 to |pdus|
      invariant onus == JoinMap(port, adapter, t.(serials := Latest(pdus[..i], Checked(oid))))
    {
      LatestStep(pdus, i, Checked(oid));
      var id := ExtractOnuId(pdus[i].name, oid);
      if id.Some? {
        SerialStep(port, adapter, t.(serials := Latest(pdus[..i], Checked(oid))), id.value, pdus[i]);
        BlankItem(port, adapter, t.(serials := Latest(pdus[..i], Checked(oid))), id.value);
        var onu := GetOnu(onus, port, id.value);
        onus := onus[id.value := onu.(serial := ParseSerialNumber(pdus[i]))];
      }
    }
    assert pdus[..|pdus|] == pdus;
  }

  method JoinPower(port: Port, adapter: Adapter, ghost t: Tables, before: map<int, ListItem>, pdus: seq<Pdu>, oid: string)
    returns (onus: map<int, ListItem>)
    requires t.rx == map[] && before == JoinMap(port, adapter, t)
    ensures onus == JoinMap(port, adapter, t.(rx := Latest(pdus, Checked(oid))))
  {
    onus := before;
    for i := 0 to |pdus|
      invariant onus == JoinMap(port, adapter, t.(rx := Latest(pdus[..i], Checked(oid))))
    {
      LatestStep(pdus, i, Checked(oid));
      var id := ExtractOnuId(pdus[i].name, oid);
      if id.Some? {
        PowerStep(port, adapter, t.(rx := Latest(pdus[..i], Checked(oid))), id.value, pdus[i]);
        BlankItem(port, adapter, t.(rx := Latest(pdus[..i], Checked(oid))), id.value);
        var onu := GetOnu(onus, port, id.value);
        onus := onus[id.value := onu.(rxPower := ConvertPower(adapter, PduInt(pdus[i])))];
      }
    }
    assert pdus[..|pdus|] == pdus;
  }

  ghost function FetchOutcome(port: Port, adapter: Adapter, walks: Walks): FetchResult {
    if walks.status.None? then Failed(WalkFailed)
    else Listed(DirectList(port, adapter, CalculateIfIndex(1, port.board, port.pon), walks))
  }

  /** The four-walk join and its sort. */
  method Fetch(port: Port, adapter: Adapter, walks: Walks) returns (r: FetchResult)
    ensures r == FetchOutcome(port, adapter, walks)
    ensures walks.status.None? <==> r == Failed(WalkFailed)
  {
    var ifIndex := CalculateIfIndex(1, port.board, port.pon);
    if walks.status.None? {
      return Failed(WalkFailed);
    }
    var onus := JoinStatus(port, adapter, walks.status.value, BuildWalkOid(ONU_STATUS, ifIndex));
    ghost var t := Tables(Latest(walks.status.value, Checked(BuildWalkOid(ONU_STATUS, ifIndex))), map[], map[], map[]);
    if onus == map[] {
      assert t.status.Keys == onus.Keys;
      return Listed([]);
    }
    if walks.names.Some? {
      onus := JoinNames(port, adapter, t, onus, walks.names.value, BuildWalkOid(ONU_NAME, ifIndex));
    }
    t := t.(names := Latest(Rows(walks.names), Checked(BuildWalkOid(ONU_NAME, ifIndex))));
    if walks.serials.Some? {
      onus := JoinSerials(port, adapter, t, onus, walks.serials.value, BuildWalkOid(ONU_SERIAL, ifIndex));
    }
    t := t.(serials := Latest(Rows(walks.serials), Checked(BuildWalkOid(ONU_SERIAL, ifIndex))));
    if walks.rx.Some? {
      onus := JoinPower(port, adapter, t, onus, walks.rx.value, BuildWalkOid(ONU_RX_POWER, ifIndex));
    }
    assert TablesOf(ifIndex, walks) == t.(rx := Latest(Rows(walks.rx), Checked(BuildWalkOid(ONU_RX_POWER, ifIndex))));
    var items := CollectSorted(onus, (item: ListItem) => item.onuId);
    return Listed(items);
  }

  ghost function MissOutcome(port: Port, client: Option<Adapter>, locked: bool, walks: Walks): FetchResult {
    if client.None? then Failed(OltNotFound)
    else if !locked then Failed(Cancelled)
    else FetchOutcome(port, client.value, walks)
  }

  function StoreAfterMiss(store: Store, port: Port, r: FetchResult, elapsed: int, now: int, calls: Calls): Store {
    if r.Listed? then FetchedStore(store, port, r.items, elapsed, now, calls) else store
  }

  class Service {
    const cache: RedisCache?

    constructor (cache: RedisCache?)
      ensures this.cache == cache
    {
      this.cache := cache;
    }

    /** What this service's cache answers without a fetch. */
    function Served(port: Port, forceFresh: bool, now: int, calls: Calls): Option<seq<ListItem>>
      reads cache
    {
      if cache == null || forceFresh then None
      else ServeCached(ReadListOf(cache.store, port, now, calls), ReadNamesOf(cache.store, port, now, calls))
    }

    method ReadCache(port: Port, forceFresh: bool, now: int, calls: Calls) returns (served: Option<seq<ListItem>>)
      ensures served == Served(port, forceFresh, now, calls)
    {
      if cache != null && !forceFresh {
        var list := ReadListOf(cache.store, port, now, calls);
        if list.Some? && list.value != [] {
          var needs := NeedsNames(list.value);
          if !needs {
            return list;
          }
          var names := ReadNamesOf(cache.store, port, now, calls);
          if names.Some? {
            var byId := NamesById(names.value);
            var items, merged := MergeNames(list.value, byId);
            if merged {
              return Some(items);
            }
          }
        }
      }
      return None;
    }

    method StoreFetched(port: Port, items: seq<ListItem>, elapsed: int, now: int, calls: Calls)
      modifies cache
      ensures cache != null ==> cache.store == FetchedStore(old(cache.store), port, items, elapsed, now, calls)
    {
      if cache != null && items != [] {
        var ttl := ComputeTtl(TTL_ONU_LIST, elapsed);
        cache.SetOnuListWithTtl(port, items, ttl, now, calls.writeList);
        cache.SetOnuNames(port, NamesOf(items), now, calls.writeNames);
      }
    }

    /** The single-flight body: client, operation lock, walks, store. */
    method FetchMissing(port: Port, client: Option<Adapter>, locked: bool, walks: Walks, elapsed: int, now: int,
                        calls: Calls)
      returns (r: FetchResult)
      modifies cache
      ensures r == MissOutcome(port, client, locked, walks)
      ensures cache != null ==> cache.store == StoreAfterMiss(old(cache.store), port, r, elapsed, now, calls)
    {
      if client.None? {
        return Failed(OltNotFound);
      }
      if !locked {
        return Failed(Cancelled);
      }
      r := Fetch(port, client.value, walks);
      if r.Listed? {
        StoreFetched(port, r.items, elapsed, now, calls);
      }
    }

    /** One request. `client` is the registered OLT's adapter, `locked` tells whether the operation lock
        was obtained before the request was cancelled, `elapsed` is how long the walks took, `finished`
        the time at which the list is stored, and `calls` says which Redis calls succeed. */
    method GetOnuList(port: Port, forceFresh: bool, client: Option<Adapter>, locked: bool, walks: Walks,
                      now: int, elapsed: int, finished: int, calls: Calls)
      returns (r: FetchResult)
      modifies cache
      ensures old(Served(port, forceFresh, now, calls)).Some? ==>
        r == Listed(old(Served(port, forceFresh, now, calls)).value) && (cache != null ==> cache.store == old(cache.store))
      ensures var list, names := old(if cache == null || forceFresh then None else ReadListOf(cache.store, port, now, calls)),
                                 old(if cache == null then None else ReadNamesOf(cache.store, port, now, calls));
              || AnsweredFrom(r, list, names)
              || (!Answerable(list, names)
                  && r == (if client.None? then Failed(OltNotFound) else if !locked then Failed(Cancelled)
                           else FetchOutcome(port, client.value, walks)))
      ensures old(Served(port, forceFresh, now, calls)).None? ==>
        && r == MissOutcome(port, client, locked, walks)
        && (cache != null ==> cache.store == StoreAfterMiss(old(cache.store), port, r, elapsed, finished, calls))
    {
      if cache != null {
        ServedFilled(ReadListOf(cache.store, port, now, calls), ReadNamesOf(cache.store, port, now, calls));
      }
      var served := ReadCache(port, forceFresh, now, calls);
      match served
      case Some(items) => r := Listed(items);
      case None => r := FetchMissing(port, client, locked, walks, elapsed, finished, calls);
    }
  }

  // ---- what serving means

  lemma MergedKeepsPort(items: seq<ListItem>, names: map<int, NameEntry>, port: Port)
    requires ForPort(items, port)
    ensures ForPort(Merged(items, names), port)
  {
  }

  lemma NamesOfIndex(items: seq<ListItem>, port: Port)
    requires ForPort(items, port)
    ensures forall i :: 0 <= i < |items| ==>
      items[i].onuId in ById(NamesOf(items)) && ById(NamesOf(items))[items[i].onuId] == NamesOf(items)[i]
  {
    Pipeline.ByIdIndex(NamesOf(items));
  }

  /** A fetched list that was stored is what the cache serves until it expires, nameless ONUs included if
      their names were stored too: the cache is transparent. */
  lemma FetchThenServe(store: Store, port: Port, items: seq<ListItem>, elapsed: int, now: int, later: int, calls: Calls)
    requires items != [] && ForPort(items, port)
    requires calls.writeList && (calls.writeNames || Complete(items))
    requires IsInt64(elapsed)
    requires now <= later < now + Ttl(TTL_ONU_LIST, elapsed)
    ensures var after := FetchedStore(store, port, items, elapsed, now, calls);
            ServeCached(GetList(after, port, later), GetNames(after, port, later)) == Some(items)
  {
    var after := FetchedStore(store, port, items, elapsed, now, calls);
    TtlBounds(TTL_ONU_LIST, elapsed);
    KeysApart(port, port);
    assert GetList(after, port, later) == Some(items);
    assert calls.writeNames ==> GetNames(after, port, later) == Some(NamesOf(items));
    var byId := ById(NamesOf(items));
    NamesOfIndex(items, port);
    forall i | 0 <= i < |items| ensures MergedItem(items[i], byId) == items[i] {
      assert byId[items[i].onuId] == NameEntry(items[i].onuId, items[i].name, items[i].serial);
    }
    assert Merged(items, byId) == items;
    if !Complete(items) {
      var i :| 0 <= i < |items| && items[i].name == "";
      assert items[i].onuId in byId;
    }
  }

}
