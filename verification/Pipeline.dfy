/** The cached pipeline against the direct walk: the names poller followed by the optical poller, and the
    on-demand join they stand in for. */
module Pipeline {
  import opened Text
  import opened Decimal
  import opened Oids
  import opened IfIndex
  import opened Pdus
  import opened Keyed
  import opened Joins

  /** Absolute OIDs, as the SNMP library reports them. */
  ghost predicate Rooted(pdus: seq<Pdu>) {
    forall i :: 0 <= i < |pdus| ==> HasPrefix(pdus[i].name, ".")
  }

  lemma PolledLatest(pdus: seq<Pdu>, base: string)
    requires Rooted(pdus)
    ensures Latest(pdus, Polled(base, 1)) == Latest(pdus, Checked(base))
  {
    forall i | 0 <= i < |pdus|
      ensures Polled(base, 1).Id(pdus[i].name) == Checked(base).Id(pdus[i].name)
    {
      var name := pdus[i].name;
      assert name[0] == '.';
      assert Split(name, '.')[0] == "";
      PolledAgrees(name, base);
    }
    LatestCongruent(pdus, Polled(base, 1), Checked(base));
  }

  lemma {:induction false} ByIdIndex(names: seq<NameEntry>)
    requires forall i, j :: 0 <= i < j < |names| ==> names[i].onuId != names[j].onuId
    ensures forall i :: 0 <= i < |names| ==> names[i].onuId in ById(names) && ById(names)[names[i].onuId] == names[i]
    ensures forall id :: id in ById(names) ==> exists i :: 0 <= i < |names| && names[i].onuId == id
  {
    if names != [] {
      var init := names[..|names| - 1];
      ByIdIndex(init);
      forall id | id in ById(names) ensures exists i :: 0 <= i < |names| && names[i].onuId == id {
        if id == names[|names| - 1].onuId {
        } else {
          assert id in ById(init);
          var i :| 0 <= i < |init| && init[i].onuId == id;
          assert names[i].onuId == id;
        }
      }
      forall i | 0 <= i < |names|
        ensures names[i].onuId in ById(names) && ById(names)[names[i].onuId] == names[i]
      {
        if i < |init| { assert names[i] == init[i]; }
      }
    }
  }

  lemma ListedAt(m: map<int, NameEntry>, i: nat)
    requires (forall id :: id in m ==> m[id].onuId == id) && i < |SortedKeys(m.Keys)|
    ensures |ListOf(m)| == |SortedKeys(m.Keys)| && SortedKeys(m.Keys)[i] in m
    ensures ListOf(m)[i] == m[SortedKeys(m.Keys)[i]] && ListOf(m)[i].onuId == SortedKeys(m.Keys)[i]
  {
  }

  lemma ListedOnce(m: map<int, NameEntry>)
    requires forall id :: id in m ==> m[id].onuId == id
    ensures forall i, j :: 0 <= i < j < |ListOf(m)| ==> ListOf(m)[i].onuId != ListOf(m)[j].onuId
  {
    forall i, j | 0 <= i < j < |ListOf(m)| ensures ListOf(m)[i].onuId != ListOf(m)[j].onuId {
      ListedAt(m, i);
      ListedAt(m, j);
    }
  }

  lemma ListedIn(m: map<int, NameEntry>, id: int) returns (i: nat)
    requires (forall x :: x in m ==> m[x].onuId == x) && id in m
    ensures i < |ListOf(m)| && ListOf(m)[i] == m[id]
  {
    assert id in SortedKeys(m.Keys);
    i :| 0 <= i < |SortedKeys(m.Keys)| && SortedKeys(m.Keys)[i] == id;
    ListedAt(m, i);
  }

  /** Reading a sorted name list back by ID gives the map it was listed from. */
  lemma ByIdOfList(m: map<int, NameEntry>)
    requires forall id :: id in m ==> m[id].onuId == id
    ensures ById(ListOf(m)) == m
  {
    var names := ListOf(m);
    ListedOnce(m);
    ByIdIndex(names);
    forall id | id in m ensures id in ById(names) && ById(names)[id] == m[id] {
      var i := ListedIn(m, id);
      assert names[i].onuId == id;
    }
    forall id | id in ById(names) ensures id in m {
      var i :| 0 <= i < |names| && names[i].onuId == id;
      ListedAt(m, i);
    }
    SameMaps(m, ById(names));
  }

  lemma SameMaps<T>(m1: map<int, T>, m2: map<int, T>)
    requires forall id :: id in m1 ==> id in m2 && m2[id] == m1[id]
    requires forall id :: id in m2 ==> id in m1
    ensures m1 == m2
  {
    forall id ensures id in m1.Keys <==> id in m2.Keys {
      if id in m1 { assert m2[id] == m1[id]; }
    }
    assert m1.Keys == m2.Keys;
    forall id | id in m1 ensures m1[id] == m2[id] {
    }
  }

  lemma ListOfInjective(m1: map<int, ListItem>, m2: map<int, ListItem>)
    requires forall id :: id in m1 ==> m1[id].onuId == id
    requires forall id :: id in m2 ==> m2[id].onuId == id
    requires ListOf(m1) == ListOf(m2)
    ensures m1 == m2
  {
    ListOfCovers(m1, m2);
    ListOfCovers(m2, m1);
    SameMaps(m1, m2);
  }

  lemma ListOfCovers(m1: map<int, ListItem>, m2: map<int, ListItem>)
    requires forall id :: id in m1 ==> m1[id].onuId == id
    requires forall id :: id in m2 ==> m2[id].onuId == id
    requires ListOf(m1) == ListOf(m2)
    ensures forall id :: id in m1 ==> id in m2 && m2[id] == m1[id]
  {
  }

  function RxWithChannel(ifIndex: int, w: Walks): map<int, Pdu>
    requires IsInt64(ifIndex)
  {
    Latest(Rows(w.rx), Polled(BuildWalkOid(ONU_RX_POWER, ifIndex), 2))
  }

  /** What the device's tables must satisfy for the pipeline to lose nothing: every ONU has a status row,
      an ONU without a name row has no serial number, and the rows with a channel component decide the
      received power. */
  ghost predicate Covered(adapter: Adapter, t: Tables, rxWithChannel: map<int, Pdu>) {
    && t.names.Keys + t.serials.Keys + t.rx.Keys <= t.status.Keys
    && (forall id :: id in t.status && id !in t.names ==> RowSerial(t.serials, id) == "")
    && (forall id :: id in t.status ==> RowPower(adapter, t.rx, id) == RowPower(adapter, rxWithChannel, id))
  }

  /** The names cache after one names poll: written unless no name row was found. */
  ghost function NamesAfterPoll(prior: Option<seq<NameEntry>>, ifIndex: int, w: Walks): Option<seq<NameEntry>>
    requires IsInt64(ifIndex)
  {
    if NamesMap(ifIndex, w) == map[] then prior else Some(PolledNames(ifIndex, w))
  }

  /** An item of the optical list in terms of the service's own tables. */
  function OpticalFormItem(port: Port, adapter: Adapter, t: Tables, rx: map<int, Pdu>, id: int): ListItem
    requires id in t.status
  {
    ListItem(port.oltId, port.board, port.pon, id, RowName(t.names, id),
             if id in t.names then RowSerial(t.serials, id) else "",
             ParseOnuStatus(t.status[id]), PduInt(t.status[id]), RowPower(adapter, rx, id))
  }

  ghost predicate OpticalForm(port: Port, adapter: Adapter, t: Tables, rx: map<int, Pdu>, optical: map<int, ListItem>) {
    && optical.Keys == t.status.Keys
    && (forall id :: id in optical ==> optical[id] == OpticalFormItem(port, adapter, t, rx, id))
  }

  lemma OpticalMapOf(port: Port, adapter: Adapter, ifIndex: int, w: Walks, prior: Option<seq<NameEntry>>)
    requires IsInt64(ifIndex)
    requires Rooted(Rows(w.status)) && Rooted(Rows(w.names)) && Rooted(Rows(w.serials))
    requires NamesMap(ifIndex, w) == map[] ==> CachedNames(prior) == map[]
    ensures OpticalForm(port, adapter, TablesOf(ifIndex, w), RxWithChannel(ifIndex, w),
                        OpticalMap(port, adapter, ifIndex, w, NamesAfterPoll(prior, ifIndex, w)))
  {
    PolledLatest(Rows(w.status), BuildWalkOid(ONU_STATUS, ifIndex));
    PolledLatest(Rows(w.names), BuildWalkOid(ONU_NAME, ifIndex));
    PolledLatest(Rows(w.serials), BuildWalkOid(ONU_SERIAL, ifIndex));
    if NamesMap(ifIndex, w) != map[] {
      ByIdOfList(NamesMap(ifIndex, w));
    }
    assert CachedNames(NamesAfterPoll(prior, ifIndex, w)) == NamesMap(ifIndex, w);
  }

  /** The pipeline's list and the direct one, as sorted lists of two maps over the same tables. */
  lemma TablesAgree(port: Port, adapter: Adapter, t: Tables, rx: map<int, Pdu>, optical: map<int, ListItem>)
    requires OpticalForm(port, adapter, t, rx, optical)
    ensures ListOf(optical) == ListOf(JoinMap(port, adapter, t)) <==> Covered(adapter, t, rx)
  {
    if Covered(adapter, t, rx) {
      CoveredMaps(port, adapter, t, rx, optical);
    }
    if ListOf(optical) == ListOf(JoinMap(port, adapter, t)) {
      ListOfInjective(optical, JoinMap(port, adapter, t));
      CoveredConverse(adapter, t, rx, port, optical);
    }
  }

  /** On one snapshot, the names poller followed by the optical poller stores exactly the list the
      on-demand join builds if and only if the tables are covered. Where the device has no name row the
      names cache is left as it is, so it must hold none. */
  lemma PipelineAgrees(port: Port, adapter: Adapter, ifIndex: int, w: Walks, prior: Option<seq<NameEntry>>)
    requires IsInt64(ifIndex)
    requires Rooted(Rows(w.status)) && Rooted(Rows(w.names)) && Rooted(Rows(w.serials))
    requires TablesOf(ifIndex, w).status != map[]
    requires NamesMap(ifIndex, w) == map[] ==> CachedNames(prior) == map[]
    ensures OpticalList(port, adapter, ifIndex, w, NamesAfterPoll(prior, ifIndex, w)) == DirectList(port, adapter, ifIndex, w)
            <==> Covered(adapter, TablesOf(ifIndex, w), RxWithChannel(ifIndex, w))
  {
    OpticalMapOf(port, adapter, ifIndex, w, prior);
    TablesAgree(port, adapter, TablesOf(ifIndex, w), RxWithChannel(ifIndex, w),
                OpticalMap(port, adapter, ifIndex, w, NamesAfterPoll(prior, ifIndex, w)));
  }

  lemma CoveredMaps(port: Port, adapter: Adapter, t: Tables, rx: map<int, Pdu>, optical: map<int, ListItem>)
    requires Covered(adapter, t, rx) && OpticalForm(port, adapter, t, rx, optical)
    ensures optical == JoinMap(port, adapter, t)
  {
    var direct := JoinMap(port, adapter, t);
    assert direct.Keys == optical.Keys;
    forall id | id in direct ensures direct[id] == optical[id] {
      assert direct[id] == JoinedItem(port, adapter, t, id);
    }
  }

  lemma CoveredConverse(adapter: Adapter, t: Tables, rx: map<int, Pdu>, port: Port, optical: map<int, ListItem>)
    requires OpticalForm(port, adapter, t, rx, optical) && optical == JoinMap(port, adapter, t)
    ensures Covered(adapter, t, rx)
  {
  }

  /** The device as documented: status and name rows for the same ONUs, serial and power rows among them,
      every power row with a channel component. Such tables are covered. */
  lemma RegularDeviceCovered(adapter: Adapter, ifIndex: int, w: Walks)
    requires IsInt64(ifIndex)
    requires var t := TablesOf(ifIndex, w);
             t.names.Keys == t.status.Keys && t.serials.Keys <= t.status.Keys && t.rx.Keys <= t.status.Keys
    requires Rooted(Rows(w.rx))
    requires forall i :: 0 <= i < |Rows(w.rx)| ==>
      |Split(TrimPrefix(Rows(w.rx)[i].name, BuildWalkOid(ONU_RX_POWER, ifIndex) + "."), '.')| >= 2
    ensures Covered(adapter, TablesOf(ifIndex, w), RxWithChannel(ifIndex, w))
  {
    var base := BuildWalkOid(ONU_RX_POWER, ifIndex);
    LatestCongruent(Rows(w.rx), Polled(base, 2), Polled(base, 1));
    PolledLatest(Rows(w.rx), base);
  }

  // ---- one device, from a discovered index

  /** An immutable snapshot: the rows of every subtree that can be walked. */
  type Device = map<string, seq<Pdu>>

  function Walk(device: Device, oid: string): Option<seq<Pdu>> {
    if oid in device then Some(device[oid]) else None
  }

  function WalksAt(device: Device, ifIndex: int): Walks
    requires IsInt64(ifIndex)
  {
    Walks(Walk(device, BuildWalkOid(ONU_STATUS, ifIndex)), Walk(device, BuildWalkOid(ONU_NAME, ifIndex)),
          Walk(device, BuildWalkOid(ONU_SERIAL, ifIndex)), Walk(device, BuildWalkOid(ONU_RX_POWER, ifIndex)))
  }

  function PortOf(oltId: string, ifIndex: int): Port {
    var p := ParseIfIndex(ifIndex);
    Port(oltId, p.slot, p.port)
  }

  /** For every discovered index of the canonical form, the two pollers leave in the cache exactly what an
      on-demand fetch of the same board and PON would answer, if and only if the tables are covered. */
  lemma PollersMatchFetch(device: Device, oltId: string, adapter: Adapter, ifIndex: int, prior: Option<seq<NameEntry>>)
    requires IsInt64(ifIndex) && Canonical(ifIndex)
    requires var w := WalksAt(device, ifIndex);
             && Rooted(Rows(w.status)) && Rooted(Rows(w.names)) && Rooted(Rows(w.serials))
             && TablesOf(ifIndex, w).status != map[]
             && (NamesMap(ifIndex, w) == map[] ==> CachedNames(prior) == map[])
    ensures var w := WalksAt(device, ifIndex);
            var port := PortOf(oltId, ifIndex);
            var fetched := CalculateIfIndex(1, port.board, port.pon);
            OpticalList(port, adapter, ifIndex, w, NamesAfterPoll(prior, ifIndex, w))
              == DirectList(port, adapter, fetched, WalksAt(device, fetched))
            <==> Covered(adapter, TablesOf(ifIndex, w), RxWithChannel(ifIndex, w))
  {
    SameSubtree(ifIndex);
    PipelineAgrees(PortOf(oltId, ifIndex), adapter, ifIndex, WalksAt(device, ifIndex), prior);
  }
}
