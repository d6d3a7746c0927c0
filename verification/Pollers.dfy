/** The background pollers: one PON at a time into the names cache and the list cache, and the PON ports a
    walk of the descriptions discovers. */
module Pollers {
  import opened Text
  import opened Decimal
  import opened Oids
  import opened IfIndex
  import opened Pdus
  import opened Keyed
  import opened Joins
  import opened Redis
  import Pipeline

  /** The number of ONUs polled, or the failure of the walk that discovers them. */
  datatype PollResult = Counted(count: nat) | WalkFailed

  // ---- discovery

  datatype PonPort = PonPort(board: int, pon: int, ifIndex: int)

  function DiscoveredUnder(base: string, name: string): Option<PonPort> {
    var suffix := TrimPrefix(name, base + ".");
    if suffix == name then None
    else
      match Atoi(suffix)
      case None => None
      case Some(ifIndex) =>
        var p := ParseIfIndex(ifIndex);
        Some(PonPort(p.slot, p.port, ifIndex))
  }

  /** The values that are there, in order. */
  function Present<T>(xs: seq<Option<T>>): seq<T> {
    if xs == [] then []
    else
      var before := Present(xs[..|xs| - 1]);
      match xs[|xs| - 1]
      case None => before
      case Some(x) => before + [x]
  }

  function Reads(base: string, pdus: seq<Pdu>): (r: seq<Option<PonPort>>)
    ensures |r| == |pdus|
    ensures forall i :: 0 <= i < |r| ==> r[i] == DiscoveredUnder(base, pdus[i].name)
  {
    seq(|pdus|, i requires 0 <= i < |pdus| => DiscoveredUnder(base, pdus[i].name))
  }

  function DiscoveredAll(base: string, pdus: seq<Pdu>): seq<PonPort> { Present(Reads(base, pdus)) }

  lemma PresentStep<T>(xs: seq<Option<T>>, i: nat)
    requires i < |xs|
    ensures Present(xs[..i + 1]) == Present(xs[..i]) + if xs[i].Some? then [xs[i].value] else []
  {
    assert xs[..i + 1][..i] == xs[..i];
  }

  method DiscoverPons(walk: Option<seq<Pdu>>) returns (pons: Option<seq<PonPort>>)
    ensures pons == if walk.None? then None else Some(DiscoveredAll(PON_DESCRIPTION, walk.value))
  {
    if walk.None? {
      return None;
    }
    var found := [];
    ghost var rows := Reads(PON_DESCRIPTION, walk.value);
    for i := 0 to |walk.value|
      invariant found == Present(rows[..i])
    {
      PresentStep(rows, i);
      var name := walk.value[i].name;
      var suffix := TrimPrefix(name, PON_DESCRIPTION + ".");
      if suffix != name {
        var ifIndex := Atoi(suffix);
        if ifIndex.Some? {
          var p := ParseIfIndex(ifIndex.value);
          found := found + [PonPort(p.slot, p.port, ifIndex.value)];
        }
      }
    }
    assert rows[..|walk.value|] == rows;
    return Some(found);
  }

  lemma DiscoveredOne(base: string, ifIndex: int)
    requires IsInt64(ifIndex)
    ensures var p := ParseIfIndex(ifIndex);
            DiscoveredUnder(base, base + "." + SignedDec(ifIndex)) == Some(PonPort(p.slot, p.port, ifIndex))
  {
    var name := base + "." + SignedDec(ifIndex);
    assert name[..|base| + 1] == base + ".";
    assert name[|base + "."|..] == SignedDec(ifIndex);
    AtoiSignedDec(ifIndex);
  }

  lemma {:induction false} AllPresent<T>(xs: seq<Option<T>>, ys: seq<T>)
    requires |xs| == |ys|
    requires forall i :: 0 <= i < |xs| ==> xs[i] == Some(ys[i])
    ensures Present(xs) == ys
  {
    if xs != [] {
      AllPresent(xs[..|xs| - 1], ys[..|xs| - 1]);
    }
  }

  function PonPortAt(ifIndex: int): PonPort {
    PonPort(ParseIfIndex(ifIndex).slot, ParseIfIndex(ifIndex).port, ifIndex)
  }

  /** A device that prints one description row per PON is discovered port by port, in its order. */
  lemma DiscoveryRoundTrip(base: string, indexes: seq<int>, pdus: seq<Pdu>)
    requires |pdus| == |indexes|
    requires forall i :: 0 <= i < |indexes| ==> IsInt64(indexes[i])
    requires forall i :: 0 <= i < |pdus| ==> pdus[i].name == base + "." + SignedDec(indexes[i])
    ensures DiscoveredAll(base, pdus) == seq(|indexes|, i requires 0 <= i < |indexes| => PonPortAt(indexes[i]))
  {
    forall i | 0 <= i < |pdus| ensures DiscoveredUnder(base, pdus[i].name) == Some(PonPortAt(indexes[i])) {
      DiscoveredOne(base, indexes[i]);
    }
    AllPresent(Reads(base, pdus), seq(|indexes|, i requires 0 <= i < |indexes| => PonPortAt(indexes[i])));
  }

  // ---- names poller

  lemma NamesElsewhere(names: map<int, Pdu>, id: int, pdu: Pdu)
    ensures forall x :: x != id ==> NamesItem(names[id := pdu], map[], x) == NamesItem(names, map[], x)
    ensures NamesItem(names[id := pdu], map[], id) == NameEntry(id, TrimSpace(PduToString(pdu)), "")
  {
  }

  lemma NamesStep(names: map<int, Pdu>, after: map<int, Pdu>, id: int)
    requires after.Keys == names.Keys + {id}
    requires forall x :: x in names && x != id ==> NamesItem(after, map[], x) == NamesItem(names, map[], x)
    ensures NamesJoin(after, map[]) == NamesJoin(names, map[])[id := NamesItem(after, map[], id)]
  {
  }

  lemma SerialsElsewhere(names: map<int, Pdu>, serials: map<int, Pdu>, id: int, pdu: Pdu)
    ensures forall x :: x != id ==> NamesItem(names, serials[id := pdu], x) == NamesItem(names, serials, x)
    ensures NamesItem(names, serials[id := pdu], id) == NamesItem(names, serials, id).(serial := ParseSerialNumber(pdu))
  {
  }

  lemma SerialsStep(names: map<int, Pdu>, serials: map<int, Pdu>, after: map<int, Pdu>, id: int)
    requires forall x :: x in names && x != id ==> NamesItem(names, after, x) == NamesItem(names, serials, x)
    ensures NamesJoin(names, after) == if id in names then NamesJoin(names, serials)[id := NamesItem(names, after, id)]
                                       else NamesJoin(names, serials)
  {
  }

  method ReadNames(pdus: seq<Pdu>, oid: string) returns (onus: map<int, NameEntry>)
    ensures onus == NamesJoin(Latest(pdus, Polled(oid, 1)), map[])
  {
    onus := map[];
    for i := 0 to |pdus|
      invariant onus == NamesJoin(Latest(pdus[..i], Polled(oid, 1)), map[])
    {
      LatestStep(pdus, i, Polled(oid, 1));
      var id := PolledOnuId(pdus[i].name, oid, 1);
      if id.Some? {
        ghost var names := Latest(pdus[..i], Polled(oid, 1));
        NamesElsewhere(names, id.value, pdus[i]);
        NamesStep(names, names[id.value := pdus[i]], id.value);
        onus := onus[id.value := NameEntry(id.value, TrimSpace(PduToString(pdus[i])), "")];
      }
    }
    assert pdus[..|pdus|] == pdus;
  }

  method ReadSerials(ghost names: map<int, Pdu>, before: map<int, NameEntry>, pdus: seq<Pdu>, oid: string)
    returns (onus: map<int, NameEntry>)
    requires before == NamesJoin(names, map[])
    ensures onus == NamesJoin(names, Latest(pdus, Polled(oid, 1)))
  {
    onus := before;
    for i := 0 to |pdus|
      invariant onus == NamesJoin(names, Latest(pdus[..i], Polled(oid, 1)))
    {
      LatestStep(pdus, i, Polled(oid, 1));
      var id := PolledOnuId(pdus[i].name, oid, 1);
      if id.Some? {
        ghost var serials := Latest(pdus[..i], Polled(oid, 1));
        SerialsElsewhere(names, serials, id.value, pdus[i]);
        SerialsStep(names, serials, serials[id.value := pdus[i]], id.value);
        if id.value in onus {
          onus := onus[id.value := onus[id.value].(serial := ParseSerialNumber(pdus[i]))];
        }
      }
    }
    assert pdus[..|pdus|] == pdus;
  }

  /** Without a name row nothing is stored and the previous entry stays. */
  ghost function StoreAfterNames(store: Store, port: Port, ifIndex: int, walks: Walks, now: int): Store
    requires IsInt64(ifIndex)
  {
    if walks.names.None? || NamesMap(ifIndex, walks) == map[] then store
    else WithNames(store, port, PolledNames(ifIndex, walks), now)
  }

  class NamesPoller {
    const cache: RedisCache?

    constructor (cache: RedisCache?)
      ensures this.cache == cache
    {
      this.cache := cache;
    }

    method PollPon(port: Port, ifIndex: int, walks: Walks, now: int, calls: Calls) returns (r: PollResult)
      requires IsInt64(ifIndex)
      modifies cache
      ensures r == if walks.names.None? then WalkFailed else Counted(|PolledNames(ifIndex, walks)|)
      ensures cache != null ==>
        cache.store == if calls.writeNames then StoreAfterNames(old(cache.store), port, ifIndex, walks, now) else old(cache.store)
      ensures cache != null && (r.WalkFailed? || r.count == 0) ==> cache.store == old(cache.store)
    {
      if walks.names.None? {
        return WalkFailed;
      }
      var onus := ReadNames(walks.names.value, BuildWalkOid(ONU_NAME, ifIndex));
      ghost var rows := Latest(walks.names.value, Polled(BuildWalkOid(ONU_NAME, ifIndex), 1));
      if onus == map[] {
        assert NamesMap(ifIndex, walks).Keys == onus.Keys;
        assert NamesMap(ifIndex, walks) == map[];
        return Counted(0);
      }
      assert NamesMap(ifIndex, walks).Keys == onus.Keys;
      if walks.serials.Some? {
        onus := ReadSerials(rows, onus, walks.serials.value, BuildWalkOid(ONU_SERIAL, ifIndex));
      }
      assert onus == NamesMap(ifIndex, walks);
      var names := CollectSorted(onus, (n: NameEntry) => n.onuId);
      if cache != null {
        cache.SetOnuNames(port, names, now, calls.writeNames);
      }
      return Counted(|names|);
    }
  }

  // ---- optical poller

  lemma StatusStep(port: Port, adapter: Adapter, status: map<int, Pdu>, id: int, pdu: Pdu)
    ensures OpticalJoin(port, adapter, status[id := pdu], map[], map[]) == OpticalJoin(port, adapter, status, map[], map[])[id :=
      ListItem(port.oltId, port.board, port.pon, id, "", "", ParseOnuStatus(pdu), PduInt(pdu), 0.0)]
  {
  }

  method ReadStatus(port: Port, ghost adapter: Adapter, pdus: seq<Pdu>, oid: string) returns (onus: map<int, ListItem>)
    ensures onus == OpticalJoin(port, adapter, Latest(pdus, Polled(oid, 1)), map[], map[])
  {
    onus := map[];
    for i := 0 to |pdus|
      invariant onus == OpticalJoin(port, adapter, Latest(pdus[..i], Polled(oid, 1)), map[], map[])
    {
      LatestStep(pdus, i, Polled(oid, 1));
      var id := PolledOnuId(pdus[i].name, oid, 1);
      if id.Some? {
        StatusStep(port, adapter, Latest(pdus[..i], Polled(oid, 1)), id.value, pdus[i]);
        onus := onus[id.value := ListItem(port.oltId, port.board, port.pon, id.value, "", "",
                                            ParseOnuStatus(pdus[i]), PduInt(pdus[i]), 0.0)];
      }
    }
    assert pdus[..|pdus|] == pdus;
  }

  lemma PowerRow(port: Port, adapter: Adapter, status: map<int, Pdu>, rx: map<int, Pdu>, id: int, pdu: Pdu)
    ensures var before := OpticalJoin(port, adapter, status, rx, map[]);
            OpticalJoin(port, adapter, status, rx[id := pdu], map[]) ==
            if id in before then before[id := before[id].(rxPower := ConvertPower(adapter, PduInt(pdu)))] else before
  {
  }

  method ReadPower(port: Port, adapter: Adapter, ghost status: map<int, Pdu>, before: map<int, ListItem>, pdus: seq<Pdu>, oid: string)
    returns (onus: map<int, ListItem>)
    requires before == OpticalJoin(port, adapter, status, map[], map[])
    ensures onus == OpticalJoin(port, adapter, status, Latest(pdus, Polled(oid, 2)), map[])
  {
    onus := before;
    for i := 0 to |pdus|
      invariant onus == OpticalJoin(port, adapter, status, Latest(pdus[..i], Polled(oid, 2)), map[])
    {
      LatestStep(pdus, i, Polled(oid, 2));
      var id := PolledOnuId(pdus[i].name, oid, 2);
      if id.Some? {
        ghost var rx := Latest(pdus[..i], Polled(oid, 2));
        PowerRow(port, adapter, status, rx, id.value, pdus[i]);
        if id.value in onus {
          onus := onus[id.value := onus[id.value].(rxPower := ConvertPower(adapter, PduInt(pdus[i])))];
        }
      }
    }
    assert pdus[..|pdus|] == pdus;
  }

  function FilledItem(item: ListItem, names: map<int, NameEntry>): ListItem {
    if item.onuId in names
    then item.(name := names[item.onuId].name, serial := names[item.onuId].serial)
    else item
  }

  method FillNames(items: seq<ListItem>, names: map<int, NameEntry>) returns (filled: seq<ListItem>)
    ensures |filled| == |items|
    ensures forall i :: 0 <= i < |items| ==> filled[i] == FilledItem(items[i], names)
  {
    filled := items;
    for i := 0 to |items|
      invariant |filled| == |items|
      invariant forall k :: i <= k < |items| ==> filled[k] == items[k]
      invariant forall k :: 0 <= k < i ==> filled[k] == FilledItem(items[k], names)
    {
      if items[i].onuId in names {
        var n := names[items[i].onuId];
        filled := filled[i := filled[i].(name := n.name, serial := n.serial)];
      }
    }
  }

  /** Filling names into the sorted list is listing the map that was joined with them. */
  lemma FilledList(port: Port, adapter: Adapter, status: map<int, Pdu>, rx: map<int, Pdu>, names: map<int, NameEntry>, filled: seq<ListItem>)
    requires var items := ListOf(OpticalJoin(port, adapter, status, rx, map[]));
             && |filled| == |items|
             && (forall i :: 0 <= i < |items| ==> filled[i] == FilledItem(items[i], names))
    ensures filled == ListOf(OpticalJoin(port, adapter, status, rx, names))
  {
  }

  /** `names` is what reading the names cache gave. */
  ghost function StoreWithNames(store: Store, port: Port, adapter: Adapter, ifIndex: int, walks: Walks,
                                names: Option<seq<NameEntry>>, ttl: int, now: int): Store
    requires IsInt64(ifIndex)
  {
    var list := OpticalList(port, adapter, ifIndex, walks, names);
    if walks.status.None? || list == [] then store else WithList(store, port, list, ttl, now)
  }

  ghost function StoreAfterOptical(store: Store, port: Port, adapter: Adapter, ifIndex: int, walks: Walks, ttl: int, now: int): Store
    requires IsInt64(ifIndex)
  {
    StoreWithNames(store, port, adapter, ifIndex, walks, GetNames(store, port, now), ttl, now)
  }

  class OpticalPoller {
    const cache: RedisCache?

    constructor (cache: RedisCache?)
      ensures this.cache == cache
    {
      this.cache := cache;
    }

    method Join(port: Port, adapter: Adapter, ifIndex: int, walks: Walks, names: Option<seq<NameEntry>>)
      returns (items: seq<ListItem>)
      requires IsInt64(ifIndex) && walks.status.Some?
      ensures items == OpticalList(port, adapter, ifIndex, walks, names)
    {
      ghost var status := Latest(walks.status.value, Polled(BuildWalkOid(ONU_STATUS, ifIndex), 1));
      var onus := ReadStatus(port, adapter, walks.status.value, BuildWalkOid(ONU_STATUS, ifIndex));
      if walks.rx.Some? {
        onus := ReadPower(port, adapter, status, onus, walks.rx.value, BuildWalkOid(ONU_RX_POWER, ifIndex));
      }
      ghost var rx := Latest(Rows(walks.rx), Polled(BuildWalkOid(ONU_RX_POWER, ifIndex), 2));
      items := CollectSorted(onus, (item: ListItem) => item.onuId);
      var byId := map[];
      if names.Some? {
        byId := NamesById(names.value);
      }
      items := FillNames(items, byId);
      FilledList(port, adapter, status, rx, byId, items);
    }

    method PollPon(port: Port, adapter: Adapter, ifIndex: int, walks: Walks, ttl: int, now: int, calls: Calls)
      returns (r: PollResult)
      requires IsInt64(ifIndex)
      modifies cache
      ensures var names := if cache == null then None else ReadNamesOf(old(cache.store), port, now, calls);
              r == if walks.status.None? then WalkFailed
                   else Counted(|OpticalList(port, adapter, ifIndex, walks, names)|)
      ensures cache != null ==>
        cache.store == if !calls.writeList then old(cache.store)
                       else StoreWithNames(old(cache.store), port, adapter, ifIndex, walks,
                                           ReadNamesOf(old(cache.store), port, now, calls), ttl, now)
      ensures cache != null && (r.WalkFailed? || r.count == 0) ==> cache.store == old(cache.store)
    {
      if walks.status.None? {
        return WalkFailed;
      }
      var names := if cache == null then None else ReadNamesOf(cache.store, port, now, calls);
      var items := Join(port, adapter, ifIndex, walks, names);
      if items != [] && cache != null {
        cache.SetOnuListWithTtl(port, items, ttl, now, calls.writeList);
      }
      return Counted(|items|);
    }
  }

  // ---- the two pollers in turn

  lemma StoredNames(store: Store, port: Port, names: seq<NameEntry>, now: int, later: int)
    requires now <= later < now + TTL_ONU_NAMES
    ensures GetNames(WithNames(store, port, names, now), port, later) == Some(names)
  {
  }

  lemma StoredList(store: Store, port: Port, items: seq<ListItem>, ttl: int, now: int, later: int)
    requires now <= later < now + if ttl <= 0 then TTL_ONU_LIST else ttl
    ensures GetList(WithList(store, port, items, ttl, now), port, later) == Some(items)
  {
  }

  lemma OpticalNotEmpty(port: Port, adapter: Adapter, ifIndex: int, w: Walks, names: Option<seq<NameEntry>>)
    requires IsInt64(ifIndex) && w.status.Some?
    requires Pipeline.Rooted(Rows(w.status))
    requires TablesOf(ifIndex, w).status != map[]
    ensures OpticalList(port, adapter, ifIndex, w, names) != []
  {
    Pipeline.PolledLatest(Rows(w.status), BuildWalkOid(ONU_STATUS, ifIndex));
    assert OpticalMap(port, adapter, ifIndex, w, names).Keys == TablesOf(ifIndex, w).status.Keys;
    OpticalForPort(port, adapter, ifIndex, w, names);
  }

  lemma PolledListCached(store: Store, port: Port, adapter: Adapter, ifIndex: int, w: Walks, ttl: int, namesAt: int, opticalAt: int, later: int)
    requires IsInt64(ifIndex)
    requires namesAt <= opticalAt < namesAt + TTL_ONU_NAMES
    requires opticalAt <= later < opticalAt + if ttl <= 0 then TTL_ONU_LIST else ttl
    requires w.status.Some? && w.names.Some? && Pipeline.Rooted(Rows(w.status))
    requires TablesOf(ifIndex, w).status != map[] && NamesMap(ifIndex, w) != map[]
    ensures var polled := StoreAfterOptical(StoreAfterNames(store, port, ifIndex, w, namesAt), port, adapter, ifIndex, w, ttl, opticalAt);
            GetList(polled, port, later) == Some(OpticalList(port, adapter, ifIndex, w, Pipeline.NamesAfterPoll(None, ifIndex, w)))
  {
    var names := PolledNames(ifIndex, w);
    var named := StoreAfterNames(store, port, ifIndex, w, namesAt);
    StoredNames(store, port, names, namesAt, opticalAt);
    assert GetNames(named, port, opticalAt) == Some(names);
    OpticalNotEmpty(port, adapter, ifIndex, w, Some(names));
    StoredList(named, port, OpticalList(port, adapter, ifIndex, w, Some(names)), ttl, opticalAt, later);
  }

  /** After a names poll and then an optical poll of one port on one device, whatever was cached before,
      the cached list is what an on-demand fetch would build if and only if the tables are covered. */
  lemma PollersCacheDirectList(store: Store, device: Pipeline.Device, oltId: string, adapter: Adapter, ifIndex: int,
                               ttl: int, namesAt: int, opticalAt: int, later: int)
    requires IsInt64(ifIndex) && Canonical(ifIndex)
    requires namesAt <= opticalAt < namesAt + TTL_ONU_NAMES
    requires opticalAt <= later < opticalAt + if ttl <= 0 then TTL_ONU_LIST else ttl
    requires var w := Pipeline.WalksAt(device, ifIndex);
             && w.status.Some? && w.names.Some?
             && Pipeline.Rooted(Rows(w.status)) && Pipeline.Rooted(Rows(w.names)) && Pipeline.Rooted(Rows(w.serials))
             && TablesOf(ifIndex, w).status != map[]
             && NamesMap(ifIndex, w) != map[]
    ensures var w := Pipeline.WalksAt(device, ifIndex);
            var port := Pipeline.PortOf(oltId, ifIndex);
            var recalculated := CalculateIfIndex(1, port.board, port.pon);
            var polled := StoreAfterOptical(StoreAfterNames(store, port, ifIndex, w, namesAt), port, adapter, ifIndex, w, ttl, opticalAt);
            GetList(polled, port, later) == Some(DirectList(port, adapter, recalculated, Pipeline.WalksAt(device, recalculated)))
            <==> Pipeline.Covered(adapter, TablesOf(ifIndex, w), Pipeline.RxWithChannel(ifIndex, w))
  {
    var w := Pipeline.WalksAt(device, ifIndex);
    PolledListCached(store, Pipeline.PortOf(oltId, ifIndex), adapter, ifIndex, w, ttl, namesAt, opticalAt, later);
    Pipeline.PollersMatchFetch(device, oltId, adapter, ifIndex, None);
  }
}
