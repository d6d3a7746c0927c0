/** The search indexer's walk of a whole OLT: one join over all PONs keyed by interface index and ONU ID,
    and its agreement with the per-PON join. */
module Indexer {
  import opened Text
  import opened Decimal
  import opened Oids
  import opened IfIndex
  import opened Pdus
  import opened Keyed
  import opened Joins
  import Pipeline

  datatype Onu = Onu(ifIndex: int, id: int)

  datatype SearchItem = SearchItem(oltId: string, board: int, pon: int, onuId: int, name: string, serial: string, status: string)

  /** The key of the join. */
  function OnuKey(o: Onu): string { SignedDec(o.ifIndex) + "." + SignedDec(o.id) }

  lemma OnuKeyInjective(a: Onu, b: Onu)
    requires OnuKey(a) == OnuKey(b)
    ensures a == b
  {
    SignedDecChars(a.ifIndex);
    SignedDecChars(b.ifIndex);
    SplitCons(SignedDec(a.ifIndex), '.', SignedDec(a.id));
    SplitCons(SignedDec(b.ifIndex), '.', SignedDec(b.id));
    SignedDecChars(a.id);
    SignedDecChars(b.id);
    SplitWithout(SignedDec(a.id), '.');
    SplitWithout(SignedDec(b.id), '.');
    assert [SignedDec(a.ifIndex)] + [SignedDec(a.id)] == [SignedDec(b.ifIndex)] + [SignedDec(b.id)];
    assert SignedDec(a.ifIndex) == ([SignedDec(a.ifIndex)] + [SignedDec(a.id)])[0];
    assert SignedDec(a.id) == ([SignedDec(a.ifIndex)] + [SignedDec(a.id)])[1];
    SignedDecInjective(a.ifIndex, b.ifIndex);
    SignedDecInjective(a.id, b.id);
  }

  /** The ONU a row of a whole-OLT walk speaks of; the errors of the number parser are ignored. */
  function RowOnu(name: string, base: string): Option<Onu> {
    var parts := Split(TrimPrefix(name, base + "."), '.');
    if |parts| >= 2 then Some(Onu(AtoiLenient(parts[0]), AtoiLenient(parts[1]))) else None
  }

  /** The last row of every ONU. */
  function LatestOnu(pdus: seq<Pdu>, base: string): map<Onu, Pdu> {
    if pdus == [] then map[]
    else
      var last := pdus[|pdus| - 1];
      var before := LatestOnu(pdus[..|pdus| - 1], base);
      match RowOnu(last.name, base)
      case None => before
      case Some(onu) => before[onu := last]
  }

  lemma LatestOnuStep(pdus: seq<Pdu>, i: nat, base: string)
    requires i < |pdus|
    ensures LatestOnu(pdus[..i + 1], base) ==
            match RowOnu(pdus[i].name, base)
            case None => LatestOnu(pdus[..i], base)
            case Some(onu) => LatestOnu(pdus[..i], base)[onu := pdus[i]]
  {
    assert pdus[..i + 1][..i] == pdus[..i];
  }

  datatype IndexTables = IndexTables(status: map<Onu, Pdu>, names: map<Onu, Pdu>, serials: map<Onu, Pdu>)

  /** Names are taken as they are, not trimmed. */
  function IndexItem(oltId: string, t: IndexTables, o: Onu): SearchItem
    requires o in t.status
  {
    SearchItem(oltId, ParseIfIndex(o.ifIndex).slot, ParseIfIndex(o.ifIndex).port, o.id,
               if o in t.names then PduToString(t.names[o]) else "",
               if o in t.serials then ParseSerialNumber(t.serials[o]) else "",
               ParseOnuStatus(t.status[o]))
  }

  /** Status rows decide which ONUs there are. */
  function IndexMap(oltId: string, t: IndexTables): (m: map<Onu, SearchItem>)
    ensures m.Keys == t.status.Keys
    ensures forall o :: o in m ==> m[o] == IndexItem(oltId, t, o)
  {
    map o | o in t.status :: IndexItem(oltId, t, o)
  }

  // ---- the walk

  /** The program's map, keyed by text, holds what a map keyed by ONU does. */
  ghost predicate Represents(onus: map<string, SearchItem>, spec: map<Onu, SearchItem>) {
    && (forall o :: o in spec ==> OnuKey(o) in onus && onus[OnuKey(o)] == spec[o])
    && (forall key :: key in onus ==> exists o :: o in spec && OnuKey(o) == key)
  }

  lemma RepresentsUpdate(onus: map<string, SearchItem>, spec: map<Onu, SearchItem>, o: Onu, item: SearchItem)
    requires Represents(onus, spec)
    ensures Represents(onus[OnuKey(o) := item], spec[o := item])
  {
    var onus', spec' := onus[OnuKey(o) := item], spec[o := item];
    forall p | p in spec' ensures OnuKey(p) in onus' && onus'[OnuKey(p)] == spec'[p] {
      if OnuKey(p) == OnuKey(o) { OnuKeyInjective(p, o); }
    }
    forall key | key in onus' ensures exists p :: p in spec' && OnuKey(p) == key {
      if key == OnuKey(o) {
        assert o in spec';
      } else {
        var p :| p in spec && OnuKey(p) == key;
        assert p in spec';
      }
    }
  }

  lemma RepresentsMember(onus: map<string, SearchItem>, spec: map<Onu, SearchItem>, o: Onu)
    requires Represents(onus, spec)
    ensures OnuKey(o) in onus <==> o in spec
  {
    if OnuKey(o) in onus {
      var p :| p in spec && OnuKey(p) == OnuKey(o);
      OnuKeyInjective(p, o);
    }
  }

  /** One more row for an ONU that is there changes that item alone. */
  lemma IndexMapStep(oltId: string, t: IndexTables, after: IndexTables, o: Onu)
    requires o in t.status && after.status == t.status
    requires forall p :: p != o ==> (p in after.names <==> p in t.names) && (p in t.names ==> after.names[p] == t.names[p])
    requires forall p :: p != o ==> (p in after.serials <==> p in t.serials) && (p in t.serials ==> after.serials[p] == t.serials[p])
    ensures IndexMap(oltId, after) == IndexMap(oltId, t)[o := IndexItem(oltId, after, o)]
  {
    var m, m' := IndexMap(oltId, after), IndexMap(oltId, t)[o := IndexItem(oltId, after, o)];
    assert m.Keys == m'.Keys;
    forall p | p in m ensures m[p] == m'[p] {
      assert m[p] == IndexItem(oltId, after, p);
    }
  }

  /** A row for an ONU without a status row is dropped. */
  lemma IndexMapSkip(oltId: string, t: IndexTables, after: IndexTables, o: Onu)
    requires o !in t.status && after.status == t.status
    requires forall p :: p != o ==> (p in after.names <==> p in t.names) && (p in t.names ==> after.names[p] == t.names[p])
    requires forall p :: p != o ==> (p in after.serials <==> p in t.serials) && (p in t.serials ==> after.serials[p] == t.serials[p])
    ensures IndexMap(oltId, after) == IndexMap(oltId, t)
  {
  }

  lemma IndexMapStatus(oltId: string, status: map<Onu, Pdu>, o: Onu, pdu: Pdu)
    ensures var item := SearchItem(oltId, ParseIfIndex(o.ifIndex).slot, ParseIfIndex(o.ifIndex).port, o.id, "", "", ParseOnuStatus(pdu));
            IndexMap(oltId, IndexTables(status[o := pdu], map[], map[])) == IndexMap(oltId, IndexTables(status, map[], map[]))[o := item]
  {
  }

  function Blank(oltId: string, o: Onu): SearchItem {
    SearchItem(oltId, ParseIfIndex(o.ifIndex).slot, ParseIfIndex(o.ifIndex).port, o.id, "", "", "")
  }

  method GetOrCreate(onus: map<string, SearchItem>, oltId: string, o: Onu) returns (item: SearchItem)
    ensures item == if OnuKey(o) in onus then onus[OnuKey(o)] else Blank(oltId, o)
  {
    if OnuKey(o) !in onus {
      return Blank(oltId, o);
    }
    return onus[OnuKey(o)];
  }

  lemma StatusRow(onus: map<string, SearchItem>, oltId: string, status: map<Onu, Pdu>, o: Onu, pdu: Pdu, item: SearchItem)
    requires Represents(onus, IndexMap(oltId, IndexTables(status, map[], map[])))
    requires item == if OnuKey(o) in onus then onus[OnuKey(o)] else Blank(oltId, o)
    ensures Represents(onus[OnuKey(o) := item.(status := ParseOnuStatus(pdu))],
                       IndexMap(oltId, IndexTables(status[o := pdu], map[], map[])))
  {
    var spec := IndexMap(oltId, IndexTables(status, map[], map[]));
    RepresentsMember(onus, spec, o);
    IndexMapStatus(oltId, status, o, pdu);
    RepresentsUpdate(onus, spec, o, item.(status := ParseOnuStatus(pdu)));
  }

  method IndexStatus(oltId: string, pdus: seq<Pdu>) returns (onus: map<string, SearchItem>)
    ensures Represents(onus, IndexMap(oltId, IndexTables(LatestOnu(pdus, ONU_STATUS), map[], map[])))
  {
    onus := map[];
    for i := 0 to |pdus|
      invariant Represents(onus, IndexMap(oltId, IndexTables(LatestOnu(pdus[..i], ONU_STATUS), map[], map[])))
    {
      LatestOnuStep(pdus, i, ONU_STATUS);
      var row := RowOnu(pdus[i].name, ONU_STATUS);
      if row.Some? {
        var item := GetOrCreate(onus, oltId, row.value);
        StatusRow(onus, oltId, LatestOnu(pdus[..i], ONU_STATUS), row.value, pdus[i], item);
        onus := onus[OnuKey(row.value) := item.(status := ParseOnuStatus(pdus[i]))];
      }
    }
    assert pdus[..|pdus|] == pdus;
  }

  lemma NameRow(onus: map<string, SearchItem>, oltId: string, t: IndexTables, o: Onu, pdu: Pdu)
    requires Represents(onus, IndexMap(oltId, t))
    ensures OnuKey(o) in onus <==> o in t.status
    ensures o !in t.status ==> Represents(onus, IndexMap(oltId, t.(names := t.names[o := pdu])))
    ensures o in t.status ==>
      Represents(onus[OnuKey(o) := onus[OnuKey(o)].(name := PduToString(pdu))], IndexMap(oltId, t.(names := t.names[o := pdu])))
  {
    var after := t.(names := t.names[o := pdu]);
    RepresentsMember(onus, IndexMap(oltId, t), o);
    if o in t.status {
      IndexMapStep(oltId, t, after, o);
      RepresentsUpdate(onus, IndexMap(oltId, t), o, IndexItem(oltId, after, o));
    } else {
      IndexMapSkip(oltId, t, after, o);
    }
  }

  lemma SerialRow(onus: map<string, SearchItem>, oltId: string, t: IndexTables, o: Onu, pdu: Pdu)
    requires Represents(onus, IndexMap(oltId, t))
    ensures OnuKey(o) in onus <==> o in t.status
    ensures o !in t.status ==> Represents(onus, IndexMap(oltId, t.(serials := t.serials[o := pdu])))
    ensures o in t.status ==>
      Represents(onus[OnuKey(o) := onus[OnuKey(o)].(serial := ParseSerialNumber(pdu))], IndexMap(oltId, t.(serials := t.serials[o := pdu])))
  {
    var after := t.(serials := t.serials[o := pdu]);
    RepresentsMember(onus, IndexMap(oltId, t), o);
    if o in t.status {
      IndexMapStep(oltId, t, after, o);
      RepresentsUpdate(onus, IndexMap(oltId, t), o, IndexItem(oltId, after, o));
    } else {
      IndexMapSkip(oltId, t, after, o);
    }
  }

  method IndexNames(ghost oltId: string, ghost t: IndexTables, before: map<string, SearchItem>, pdus: seq<Pdu>)
    returns (onus: map<string, SearchItem>)
    requires t.names == map[] && Represents(before, IndexMap(oltId, t))
    ensures Represents(onus, IndexMap(oltId, t.(names := LatestOnu(pdus, ONU_NAME))))
  {
    onus := before;
    for i := 0 to |pdus|
      invariant Represents(onus, IndexMap(oltId, t.(names := LatestOnu(pdus[..i], ONU_NAME))))
    {
      LatestOnuStep(pdus, i, ONU_NAME);
      var row := RowOnu(pdus[i].name, ONU_NAME);
      if row.Some? {
        NameRow(onus, oltId, t.(names := LatestOnu(pdus[..i], ONU_NAME)), row.value, pdus[i]);
        var key := OnuKey(row.value);
        if key in onus {
          onus := onus[key := onus[key].(name := PduToString(pdus[i]))];
        }
      }
    }
    assert pdus[..|pdus|] == pdus;
  }

  method IndexSerials(ghost oltId: string, ghost t: IndexTables, before: map<string, SearchItem>, pdus: seq<Pdu>)
    returns (onus: map<string, SearchItem>)
    requires t.serials == map[] && Represents(before, IndexMap(oltId, t))
    ensures Represents(onus, IndexMap(oltId, t.(serials := LatestOnu(pdus, ONU_SERIAL))))
  {
    onus := before;
    for i := 0 to |pdus|
      invariant Represents(onus, IndexMap(oltId, t.(serials := LatestOnu(pdus[..i], ONU_SERIAL))))
    {
      LatestOnuStep(pdus, i, ONU_SERIAL);
      var row := RowOnu(pdus[i].name, ONU_SERIAL);
      if row.Some? {
        SerialRow(onus, oltId, t.(serials := LatestOnu(pdus[..i], ONU_SERIAL)), row.value, pdus[i]);
        var key := OnuKey(row.value);
        if key in onus {
          onus := onus[key := onus[key].(serial := ParseSerialNumber(pdus[i]))];
        }
      }
    }
    assert pdus[..|pdus|] == pdus;
  }

  /** The three walks of a whole OLT; None is a walk that failed. */
  datatype OltWalks = OltWalks(status: Option<seq<Pdu>>, names: Option<seq<Pdu>>, serials: Option<seq<Pdu>>)

  function IndexTablesOf(w: OltWalks): IndexTables {
    IndexTables(LatestOnu(Rows(w.status), ONU_STATUS), LatestOnu(Rows(w.names), ONU_NAME), LatestOnu(Rows(w.serials), ONU_SERIAL))
  }

  /** A listing of a map in some order, every key once. */
  ghost predicate ListsInOrder(items: seq<SearchItem>, order: seq<Onu>, spec: map<Onu, SearchItem>) {
    && |items| == |order|
    && (forall i, j :: 0 <= i < j < |order| ==> order[i] != order[j])
    && (forall i :: 0 <= i < |order| ==> order[i] in spec && items[i] == spec[order[i]])
    && (forall o :: o in spec ==> o in order)
  }

  /** The walks and joins of WalkOLT, for an OLT whose lock and client were obtained; None is its error.
      The items come in the order of the map's iteration. */
  method WalkOlt(oltId: string, w: OltWalks) returns (items: Option<seq<SearchItem>>, ghost order: seq<Onu>)
    ensures items.None? <==> w.status.None?
    ensures items.Some? ==> ListsInOrder(items.value, order, IndexMap(oltId, IndexTablesOf(w)))
  {
    order := [];
    if w.status.None? {
      return None, [];
    }
    var onus := IndexStatus(oltId, w.status.value);
    ghost var t := IndexTables(LatestOnu(w.status.value, ONU_STATUS), map[], map[]);
    if w.names.Some? {
      onus := IndexNames(oltId, t, onus, w.names.value);
    }
    t := t.(names := LatestOnu(Rows(w.names), ONU_NAME));
    if w.serials.Some? {
      onus := IndexSerials(oltId, t, onus, w.serials.value);
    }
    t := t.(serials := LatestOnu(Rows(w.serials), ONU_SERIAL));
    assert t == IndexTablesOf(w);
    var listed;
    listed, order := ListIndex(onus, IndexMap(oltId, t));
    return Some(listed), order;
  }

  lemma OnuOf(onus: map<string, SearchItem>, spec: map<Onu, SearchItem>, key: string) returns (o: Onu)
    requires Represents(onus, spec) && key in onus
    ensures o in spec && OnuKey(o) == key && onus[key] == spec[o]
  {
    o :| o in spec && OnuKey(o) == key;
  }

  ghost predicate Denotes(items: map<string, SearchItem>, spec: map<Onu, SearchItem>, key: string, o: Onu) {
    o in spec && OnuKey(o) == key && key in items && items[key] == spec[o]
  }

  ghost predicate Denoted(items: map<string, SearchItem>, spec: map<Onu, SearchItem>, key: string) {
    exists o :: Denotes(items, spec, key, o)
  }

  /** A listing by text key is a listing by ONU. */
  lemma {:induction false} OrderOfKeys(onus: map<string, SearchItem>, spec: map<Onu, SearchItem>, keys: seq<string>)
    returns (order: seq<Onu>)
    requires forall i :: 0 <= i < |keys| ==> Denoted(onus, spec, keys[i])
    ensures |order| == |keys|
    ensures forall i :: 0 <= i < |keys| ==> Denotes(onus, spec, keys[i], order[i])
    decreases |keys|
  {
    if keys == [] {
      order := [];
    } else {
      var n := |keys| - 1;
      var before := OrderOfKeys(onus, spec, keys[..n]);
      assert Denoted(onus, spec, keys[n]);
      var o :| Denotes(onus, spec, keys[n], o);
      order := before + [o];
      forall i | 0 <= i < |keys| ensures Denotes(onus, spec, keys[i], order[i]) {
        if i < n { assert keys[..n][i] == keys[i] && Denotes(onus, spec, keys[..n][i], before[i]); }
      }
    }
  }

  lemma ListedAll(onus: map<string, SearchItem>, spec: map<Onu, SearchItem>, keys: seq<string>, order: seq<Onu>)
    requires Represents(onus, spec) && |order| == |keys|
    requires forall key :: key in onus ==> key in keys
    requires forall i :: 0 <= i < |keys| ==> OnuKey(order[i]) == keys[i]
    ensures forall o :: o in spec ==> o in order
  {
    forall o | o in spec ensures o in order {
      assert OnuKey(o) in keys;
      var i :| 0 <= i < |keys| && keys[i] == OnuKey(o);
      OnuKeyInjective(order[i], o);
    }
  }

  /** A listing of the values under every key once lists the index by ONU. */
  lemma KeysList(onus: map<string, SearchItem>, spec: map<Onu, SearchItem>, keys: seq<string>, items: seq<SearchItem>)
    returns (order: seq<Onu>)
    requires Represents(onus, spec) && |items| == |keys|
    requires forall i :: 0 <= i < |keys| ==> keys[i] in onus && items[i] == onus[keys[i]]
    requires forall i, j :: 0 <= i < j < |keys| ==> keys[i] != keys[j]
    requires forall key :: key in onus ==> key in keys
    ensures ListsInOrder(items, order, spec)
  {
    forall i | 0 <= i < |keys| ensures Denoted(onus, spec, keys[i]) {
      var o := OnuOf(onus, spec, keys[i]);
      assert Denotes(onus, spec, keys[i], o);
    }
    order := OrderOfKeys(onus, spec, keys);
    ListedAll(onus, spec, keys, order);
  }

  method ListIndex(onus: map<string, SearchItem>, ghost spec: map<Onu, SearchItem>)
    returns (items: seq<SearchItem>, ghost order: seq<Onu>)
    requires Represents(onus, spec)
    ensures ListsInOrder(items, order, spec)
  {
    items := [];
    ghost var keys: seq<string> := [];
    var rest := onus.Keys;
    while rest != {}
      invariant rest <= onus.Keys && |items| == |keys|
      invariant forall i :: 0 <= i < |keys| ==> keys[i] in onus && keys[i] !in rest && items[i] == onus[keys[i]]
      invariant forall i, j :: 0 <= i < j < |keys| ==> keys[i] != keys[j]
      invariant forall key :: key in onus ==> key in rest || key in keys
    {
      var key, others := TakeKey(rest);
      items := items + [onus[key]];
      keys := keys + [key];
      rest := others;
    }
    order := KeysList(onus, spec, keys, items);
  }

  // ---- agreement with the per-PON join

  /** Rows as an agent reports them: interface index, ONU ID, and perhaps further components. */
  ghost predicate RegularRow(name: string, base: string) {
    exists i, n, suffix :: IsInt64(i) && IsInt64(n) && Named(name, base, i, n, suffix)
  }

  ghost predicate Named(name: string, base: string, i: int, n: int, suffix: string)
    requires IsInt64(i) && IsInt64(n)
  {
    i != MIN_INT64 && n != MIN_INT64 && DotLed(suffix) && name == BuildOnuOid(base, i, n, suffix)
  }

  ghost predicate Regular(pdus: seq<Pdu>, base: string) {
    forall k :: 0 <= k < |pdus| ==> RegularRow(pdus[k].name, base)
  }

  /** The rows of one subtree, in the order of the whole walk. */
  function Under(pdus: seq<Pdu>, prefix: string): seq<Pdu> {
    if pdus == [] then []
    else
      var last := pdus[|pdus| - 1];
      Under(pdus[..|pdus| - 1], prefix) + if HasPrefix(last.name, prefix) then [last] else []
  }

  lemma RowOnuNamed(base: string, i: int, n: int, suffix: string)
    requires IsInt64(i) && IsInt64(n) && i != MIN_INT64 && n != MIN_INT64 && DotLed(suffix)
    ensures RowOnu(BuildOnuOid(base, i, n, suffix), base) == Some(Onu(i, n))
  {
    var name := BuildOnuOid(base, i, n, suffix);
    var a, b := SignedDec(i), SignedDec(n);
    assert name == (base + ".") + (a + "." + (b + suffix));
    assert TrimPrefix(name, base + ".") == a + "." + (b + suffix);
    SignedDecChars(i);
    SignedDecChars(n);
    SplitCons(a, '.', b + suffix);
    SplitFirst(b, '.', suffix);
    AtoiSignedDec(i);
    AtoiSignedDec(n);
  }

  /** One ONU of the whole walk, against the same ONU in the walk of its PON. */
  lemma {:induction false} LatestOnuUnder(pdus: seq<Pdu>, base: string, i: int, n: int)
    requires Regular(pdus, base) && IsInt64(i) && i != MIN_INT64
    ensures var all := LatestOnu(pdus, base);
            var one := Latest(Under(pdus, BuildWalkOid(base, i) + "."), Checked(BuildWalkOid(base, i)));
            (Onu(i, n) in all <==> n in one) && (n in one ==> all[Onu(i, n)] == one[n])
  {
    if pdus != [] {
      var last := pdus[|pdus| - 1];
      var init := pdus[..|pdus| - 1];
      assert RegularRow(last.name, base);
      var j, m, suffix :| IsInt64(j) && IsInt64(m) && Named(last.name, base, j, m, suffix);
      assert forall k :: 0 <= k < |init| ==> init[k] == pdus[k];
      LatestOnuUnder(init, base, i, n);
      RowOnuNamed(base, j, m, suffix);
      OnuOidUnder(base, j, i, m, suffix);
      ExtractRoundTrip(base, j, i, m, suffix);
      var rest := Under(init, BuildWalkOid(base, i) + ".");
      if i == j {
        assert (rest + [last])[..|rest|] == rest;
      } else {
        assert Under(pdus, BuildWalkOid(base, i) + ".") == rest;
      }
    }
  }

  function UnderWalk(walk: Option<seq<Pdu>>, prefix: string): Option<seq<Pdu>> {
    if walk.Some? then Some(Under(walk.value, prefix)) else None
  }

  /** What the walks of one PON return on the device the whole walks were made of. */
  function PonWalks(w: OltWalks, rx: Option<seq<Pdu>>, ifIndex: int): Walks
    requires IsInt64(ifIndex)
  {
    Walks(UnderWalk(w.status, BuildWalkOid(ONU_STATUS, ifIndex) + "."), UnderWalk(w.names, BuildWalkOid(ONU_NAME, ifIndex) + "."),
          UnderWalk(w.serials, BuildWalkOid(ONU_SERIAL, ifIndex) + "."), rx)
  }

  /** An index item and a list item that say the same of one ONU. */
  predicate SameOnu(a: SearchItem, b: ListItem) {
    && a.oltId == b.oltId && a.board == b.board && a.pon == b.pon && a.onuId == b.onuId
    && a.status == b.status && a.serial == b.serial && TrimSpace(a.name) == b.name
  }

  /** On one device, for every canonical interface index, the index holds exactly the ONUs that have a
      status row in the fetch of that board and PON, with the same status and serial number and, after
      trimming, the same name. */
  lemma IndexAgrees(oltId: string, w: OltWalks, rx: Option<seq<Pdu>>, adapter: Adapter, ifIndex: int, n: int)
    requires IsInt64(ifIndex) && Canonical(ifIndex)
    requires Regular(Rows(w.status), ONU_STATUS) && Regular(Rows(w.names), ONU_NAME) && Regular(Rows(w.serials), ONU_SERIAL)
    ensures var port := Pipeline.PortOf(oltId, ifIndex);
            var fetched := CalculateIfIndex(1, port.board, port.pon);
            var t := TablesOf(fetched, PonWalks(w, rx, fetched));
            var index := IndexMap(oltId, IndexTablesOf(w));
            && (Onu(ifIndex, n) in index <==> n in t.status)
            && (n in t.status ==> SameOnu(index[Onu(ifIndex, n)], JoinedItem(port, adapter, t, n)))
  {
    SameSubtree(ifIndex);
    LatestOnuUnder(Rows(w.status), ONU_STATUS, ifIndex, n);
    LatestOnuUnder(Rows(w.names), ONU_NAME, ifIndex, n);
    LatestOnuUnder(Rows(w.serials), ONU_SERIAL, ifIndex, n);
    assert TrimSpace("") == "";
  }
}
