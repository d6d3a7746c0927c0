/** Requests after the pollers: what the on-demand service answers from what the two pollers left in the
    cache, in either order. */
module ServedPipeline {
  import opened Text
  import opened Decimal
  import opened IfIndex
  import opened Oids
  import opened Pdus
  import opened Keyed
  import opened Joins
  import opened Redis
  import opened OnuService
  import opened Pipeline
  import Pollers

  /** An optical list without names, and then the names: the same as an optical list with them. */
  lemma MergedOptical(port: Port, adapter: Adapter, status: map<int, Pdu>, rx: map<int, Pdu>, names: map<int, NameEntry>)
    ensures Merged(ListOf(OpticalJoin(port, adapter, status, rx, map[])), names) == ListOf(OpticalJoin(port, adapter, status, rx, names))
  {
    var bare := ListOf(OpticalJoin(port, adapter, status, rx, map[]));
    var named := ListOf(OpticalJoin(port, adapter, status, rx, names));
    var ids := SortedKeys(status.Keys);
    forall i | 0 <= i < |ids| ensures Merged(bare, names)[i] == named[i] {
      assert bare[i] == OpticalItem(port, adapter, status, rx, map[], ids[i]);
      assert named[i] == OpticalItem(port, adapter, status, rx, names, ids[i]);
    }
  }

  /** Merging the names once more changes nothing. */
  lemma MergedAgain(port: Port, adapter: Adapter, status: map<int, Pdu>, rx: map<int, Pdu>, names: map<int, NameEntry>)
    ensures Merged(ListOf(OpticalJoin(port, adapter, status, rx, names)), names) == ListOf(OpticalJoin(port, adapter, status, rx, names))
  {
    var named := ListOf(OpticalJoin(port, adapter, status, rx, names));
    var ids := SortedKeys(status.Keys);
    forall i | 0 <= i < |ids| ensures Merged(named, names)[i] == named[i] {
      assert named[i] == OpticalItem(port, adapter, status, rx, names, ids[i]);
    }
  }

  lemma {:induction false} NamelessServed(bare: seq<ListItem>, names: seq<NameEntry>, i: nat)
    requires i < |bare| && bare[i].name == "" && bare[i].onuId in ById(names)
    ensures ServeCached(Some(bare), Some(names)) == Some(Merged(bare, ById(names)))
  {
  }

  /** A list without any name is answered with the names merged in, once one of its ONUs has an entry. */
  lemma {:induction false} BareServed(port: Port, adapter: Adapter, status: map<int, Pdu>, rx: map<int, Pdu>,
                                      names: seq<NameEntry>, id: int)
    requires id in status && id in ById(names)
    ensures ServeCached(Some(ListOf(OpticalJoin(port, adapter, status, rx, map[]))), Some(names))
            == Some(ListOf(OpticalJoin(port, adapter, status, rx, ById(names))))
  {
    var bare := ListOf(OpticalJoin(port, adapter, status, rx, map[]));
    var ids := SortedKeys(status.Keys);
    assert id in ids;
    var i :| 0 <= i < |ids| && ids[i] == id;
    assert bare[i] == OpticalItem(port, adapter, status, rx, map[], id);
    NamelessServed(bare, names, i);
    MergedOptical(port, adapter, status, rx, ById(names));
  }

  /** The rows of a poll that finds ONUs and names. */
  ghost predicate GoodWalks(w: Walks, ifIndex: int)
    requires IsInt64(ifIndex)
  {
    && w.status.Some? && w.names.Some?
    && Rooted(Rows(w.status)) && Rooted(Rows(w.names)) && Rooted(Rows(w.serials))
    && TablesOf(ifIndex, w).status != map[]
    && NamesMap(ifIndex, w) != map[]
  }

  lemma NamesReadBack(ifIndex: int, w: Walks)
    requires IsInt64(ifIndex)
    ensures ById(PolledNames(ifIndex, w)) == NamesMap(ifIndex, w)
  {
    ByIdOfList(NamesMap(ifIndex, w));
  }

  lemma BareList(port: Port, adapter: Adapter, ifIndex: int, w: Walks, prior: Option<seq<NameEntry>>)
    requires IsInt64(ifIndex) && CachedNames(prior) == map[]
    ensures OpticalList(port, adapter, ifIndex, w, prior)
            == ListOf(OpticalJoin(port, adapter, Latest(Rows(w.status), Polled(BuildWalkOid(ONU_STATUS, ifIndex), 1)),
                                  RxWithChannel(ifIndex, w), map[]))
  {
  }

  /** The names poll leaves the list alone, and the optical poll the names. */
  lemma PolledStore(store: Store, port: Port, list: seq<ListItem>, ttl: int, listAt: int, names: seq<NameEntry>, namesAt: int,
                    later: int)
    requires listAt <= later < listAt + if ttl <= 0 then TTL_ONU_LIST else ttl
    requires namesAt <= later < namesAt + TTL_ONU_NAMES
    ensures var after := WithNames(WithList(store, port, list, ttl, listAt), port, names, namesAt);
            GetList(after, port, later) == Some(list) && GetNames(after, port, later) == Some(names)
    ensures var after := WithList(WithNames(store, port, names, namesAt), port, list, ttl, listAt);
            GetList(after, port, later) == Some(list) && GetNames(after, port, later) == Some(names)
  {
    ListWritten(store, port, list, ttl, listAt, port, later);
    NamesWritten(WithList(store, port, list, ttl, listAt), port, names, namesAt, port, later);
    NamesWritten(store, port, names, namesAt, port, later);
    ListWritten(WithNames(store, port, names, namesAt), port, list, ttl, listAt, port, later);
  }

  lemma {:induction false} NamesLate(store: Store, port: Port, adapter: Adapter, ifIndex: int, w: Walks, ttl: int,
                                     opticalAt: int, namesAt: int, later: int, id: int)
    requires IsInt64(ifIndex) && GoodWalks(w, ifIndex) && CachedNames(GetNames(store, port, opticalAt)) == map[]
    requires opticalAt <= later < opticalAt + (if ttl <= 0 then TTL_ONU_LIST else ttl) && namesAt <= later < namesAt + TTL_ONU_NAMES
    requires id in TablesOf(ifIndex, w).status && id in TablesOf(ifIndex, w).names
    ensures var polled := Pollers.StoreAfterNames(Pollers.StoreAfterOptical(store, port, adapter, ifIndex, w, ttl, opticalAt),
                                                  port, ifIndex, w, namesAt);
            ServeCached(GetList(polled, port, later), GetNames(polled, port, later))
            == Some(OpticalList(port, adapter, ifIndex, w, NamesAfterPoll(None, ifIndex, w)))
  {
    var names := PolledNames(ifIndex, w);
    var prior := GetNames(store, port, opticalAt);
    var status := Latest(Rows(w.status), Polled(BuildWalkOid(ONU_STATUS, ifIndex), 1));
    PolledLatest(Rows(w.status), BuildWalkOid(ONU_STATUS, ifIndex));
    PolledLatest(Rows(w.names), BuildWalkOid(ONU_NAME, ifIndex));
    Pollers.OpticalNotEmpty(port, adapter, ifIndex, w, prior);
    BareList(port, adapter, ifIndex, w, prior);
    PolledStore(store, port, OpticalList(port, adapter, ifIndex, w, prior), ttl, opticalAt, names, namesAt, later);
    NamesReadBack(ifIndex, w);
    BareServed(port, adapter, status, RxWithChannel(ifIndex, w), names, id);
  }

  /** The pollers in the other order: an optical poll that finds no names, then a names poll, then a request.
      Where some ONU has both a status and a name row, the request is answered from the cache, and the answer
      is what an on-demand fetch would build if and only if the tables are covered. */
  lemma OpticalThenNamesServed(store: Store, device: Device, oltId: string, adapter: Adapter, ifIndex: int, ttl: int,
                               opticalAt: int, namesAt: int, later: int, id: int)
    requires IsInt64(ifIndex) && Canonical(ifIndex) && GoodWalks(WalksAt(device, ifIndex), ifIndex)
    requires CachedNames(GetNames(store, PortOf(oltId, ifIndex), opticalAt)) == map[]
    requires opticalAt <= later < opticalAt + (if ttl <= 0 then TTL_ONU_LIST else ttl) && namesAt <= later < namesAt + TTL_ONU_NAMES
    requires id in TablesOf(ifIndex, WalksAt(device, ifIndex)).status && id in TablesOf(ifIndex, WalksAt(device, ifIndex)).names
    ensures var w := WalksAt(device, ifIndex);
            var port := PortOf(oltId, ifIndex);
            var fetched := CalculateIfIndex(1, port.board, port.pon);
            var polled := Pollers.StoreAfterNames(Pollers.StoreAfterOptical(store, port, adapter, ifIndex, w, ttl, opticalAt),
                                                  port, ifIndex, w, namesAt);
            var served := ServeCached(GetList(polled, port, later), GetNames(polled, port, later));
            && served.Some?
            && (served == Some(DirectList(port, adapter, fetched, WalksAt(device, fetched)))
                <==> Covered(adapter, TablesOf(ifIndex, w), RxWithChannel(ifIndex, w)))
  {
    NamesLate(store, PortOf(oltId, ifIndex), adapter, ifIndex, WalksAt(device, ifIndex), ttl, opticalAt, namesAt, later, id);
    PollersMatchFetch(device, oltId, adapter, ifIndex, None);
  }

  lemma {:induction false} ServedAsListed(list: seq<ListItem>, names: seq<NameEntry>)
    requires Merged(list, ById(names)) == list
    ensures ServeCached(Some(list), Some(names)).Some? ==> ServeCached(Some(list), Some(names)) == Some(list)
  {
  }

  lemma {:induction false} NamesEarly(store: Store, port: Port, adapter: Adapter, ifIndex: int, w: Walks, ttl: int,
                                      namesAt: int, opticalAt: int, later: int)
    requires IsInt64(ifIndex) && GoodWalks(w, ifIndex) && namesAt <= opticalAt
    requires opticalAt <= later < opticalAt + (if ttl <= 0 then TTL_ONU_LIST else ttl) && later < namesAt + TTL_ONU_NAMES
    ensures var polled := Pollers.StoreAfterOptical(Pollers.StoreAfterNames(store, port, ifIndex, w, namesAt),
                                                    port, adapter, ifIndex, w, ttl, opticalAt);
            var served := ServeCached(GetList(polled, port, later), GetNames(polled, port, later));
            served.Some? ==> served.value == OpticalList(port, adapter, ifIndex, w, NamesAfterPoll(None, ifIndex, w))
  {
    var names := PolledNames(ifIndex, w);
    var status := Latest(Rows(w.status), Polled(BuildWalkOid(ONU_STATUS, ifIndex), 1));
    NamesWritten(store, port, names, namesAt, port, opticalAt);
    Pollers.OpticalNotEmpty(port, adapter, ifIndex, w, Some(names));
    PolledStore(store, port, OpticalList(port, adapter, ifIndex, w, Some(names)), ttl, opticalAt, names, namesAt, later);
    MergedAgain(port, adapter, status, RxWithChannel(ifIndex, w), ById(names));
    ServedAsListed(OpticalList(port, adapter, ifIndex, w, Some(names)), names);
  }

  /** In the usual order, a request that is answered from the cache gets what an on-demand fetch would
      build if and only if the tables are covered. */
  lemma NamesThenOpticalServed(store: Store, device: Device, oltId: string, adapter: Adapter, ifIndex: int, ttl: int,
                               namesAt: int, opticalAt: int, later: int)
    requires IsInt64(ifIndex) && Canonical(ifIndex) && GoodWalks(WalksAt(device, ifIndex), ifIndex) && namesAt <= opticalAt
    requires opticalAt <= later < opticalAt + (if ttl <= 0 then TTL_ONU_LIST else ttl) && later < namesAt + TTL_ONU_NAMES
    ensures var w := WalksAt(device, ifIndex);
            var port := PortOf(oltId, ifIndex);
            var fetched := CalculateIfIndex(1, port.board, port.pon);
            var polled := Pollers.StoreAfterOptical(Pollers.StoreAfterNames(store, port, ifIndex, w, namesAt),
                                                    port, adapter, ifIndex, w, ttl, opticalAt);
            var served := ServeCached(GetList(polled, port, later), GetNames(polled, port, later));
            served.Some? ==> (served.value == DirectList(port, adapter, fetched, WalksAt(device, fetched))
                              <==> Covered(adapter, TablesOf(ifIndex, w), RxWithChannel(ifIndex, w)))
  {
    NamesEarly(store, PortOf(oltId, ifIndex), adapter, ifIndex, WalksAt(device, ifIndex), ttl, namesAt, opticalAt, later);
    PollersMatchFetch(device, oltId, adapter, ifIndex, None);
  }
}
