/** Keyed joins of SNMP walks into per-PON lists: what the on-demand service and the two pollers
    compute, as closed forms over the last row of every ONU ID. */
module Joins {
  import opened Text
  import opened Oids
  import opened Pdus
  import opened Keyed

  datatype ListItem = ListItem(
    oltId: string, board: int, pon: int, onuId: int,
    name: string, serial: string, status: string, statusCode: int, rxPower: real)

  datatype NameEntry = NameEntry(onuId: int, name: string, serial: string)

  /** How a producer reads an ONU ID from a row's name. */
  datatype Reader = Checked(base: string) | Polled(base: string, minParts: nat) {
    function Id(name: string): Option<int> {
      match this
      case Checked(base) => ExtractOnuId(name, base)
      case Polled(base, minParts) => PolledOnuId(name, base, minParts)
    }
  }

  /** The last row of every ID: later rows overwrite earlier ones. */
  function Latest(pdus: seq<Pdu>, reader: Reader): map<int, Pdu> {
    if pdus == [] then map[]
    else
      var last := pdus[|pdus| - 1];
      var before := Latest(pdus[..|pdus| - 1], reader);
      match reader.Id(last.name)
      case None => before
      case Some(id) => before[id := last]
  }

  /** The rows of a walk; a failed walk that is tolerated counts as empty. */
  function Rows(walk: Option<seq<Pdu>>): seq<Pdu> {
    if walk.Some? then walk.value else []
  }

  lemma LatestStep(pdus: seq<Pdu>, i: nat, reader: Reader)
    requires i < |pdus|
    ensures Latest(pdus[..i + 1], reader) ==
            match reader.Id(pdus[i].name)
            case None => Latest(pdus[..i], reader)
            case Some(id) => Latest(pdus[..i], reader)[id := pdus[i]]
  {
    assert pdus[..i + 1][..i] == pdus[..i];
  }

  lemma {:induction false} LatestCongruent(pdus: seq<Pdu>, r1: Reader, r2: Reader)
    requires forall i :: 0 <= i < |pdus| ==> r1.Id(pdus[i].name) == r2.Id(pdus[i].name)
    ensures Latest(pdus, r1) == Latest(pdus, r2)
  {
    if pdus != [] {
      LatestCongruent(pdus[..|pdus| - 1], r1, r2);
    }
  }

  // ---- the on-demand join

  function RowName(names: map<int, Pdu>, id: int): string {
    if id in names then TrimSpace(PduToString(names[id])) else ""
  }

  function RowSerial(serials: map<int, Pdu>, id: int): string {
    if id in serials then ParseSerialNumber(serials[id]) else ""
  }

  function RowPower(adapter: Adapter, rx: map<int, Pdu>, id: int): real {
    if id in rx then ConvertPower(adapter, PduInt(rx[id])) else 0.0
  }

  datatype Port = Port(oltId: string, board: int, pon: int)

  datatype Tables = Tables(status: map<int, Pdu>, names: map<int, Pdu>, serials: map<int, Pdu>, rx: map<int, Pdu>) {
    function Ids(): set<int> { status.Keys + names.Keys + serials.Keys + rx.Keys }
  }

  function JoinedItem(port: Port, adapter: Adapter, t: Tables, id: int): ListItem {
    ListItem(port.oltId, port.board, port.pon, id,
             RowName(t.names, id), RowSerial(t.serials, id),
             if id in t.status then ParseOnuStatus(t.status[id]) else "",
             if id in t.status then PduInt(t.status[id]) else 0,
             RowPower(adapter, t.rx, id))
  }

  function JoinMap(port: Port, adapter: Adapter, t: Tables): (m: map<int, ListItem>)
    ensures m.Keys == t.Ids()
    ensures forall id :: id in m ==> m[id] == JoinedItem(port, adapter, t, id)
  {
    map id | id in t.Ids() :: JoinedItem(port, adapter, t, id)
  }

  /** The results of the four walks of one PON; None is a walk that failed. */
  datatype Walks = Walks(status: Option<seq<Pdu>>, names: Option<seq<Pdu>>,
                         serials: Option<seq<Pdu>>, rx: Option<seq<Pdu>>)

  function TablesOf(ifIndex: int, w: Walks): Tables
    requires Decimal.IsInt64(ifIndex)
  {
    Tables(Latest(Rows(w.status), Checked(BuildWalkOid(ONU_STATUS, ifIndex))),
           Latest(Rows(w.names), Checked(BuildWalkOid(ONU_NAME, ifIndex))),
           Latest(Rows(w.serials), Checked(BuildWalkOid(ONU_SERIAL, ifIndex))),
           Latest(Rows(w.rx), Checked(BuildWalkOid(ONU_RX_POWER, ifIndex))))
  }

  /** The list an on-demand fetch builds: nothing when no status row names an ONU. */
  ghost function DirectList(port: Port, adapter: Adapter, ifIndex: int, w: Walks): seq<ListItem>
    requires Decimal.IsInt64(ifIndex)
  {
    var t := TablesOf(ifIndex, w);
    if t.status == map[] then [] else ListOf(JoinMap(port, adapter, t))
  }

  function NamesOf(items: seq<ListItem>): (names: seq<NameEntry>)
    ensures |names| == |items|
    ensures forall i :: 0 <= i < |items| ==> names[i] == NameEntry(items[i].onuId, items[i].name, items[i].serial)
  {
    seq(|items|, i requires 0 <= i < |items| => NameEntry(items[i].onuId, items[i].name, items[i].serial))
  }

  // ---- the names poller

  function NamesItem(names: map<int, Pdu>, serials: map<int, Pdu>, id: int): NameEntry {
    NameEntry(id, RowName(names, id), RowSerial(serials, id))
  }

  function NamesJoin(names: map<int, Pdu>, serials: map<int, Pdu>): (m: map<int, NameEntry>)
    ensures m.Keys == names.Keys
    ensures forall id :: id in m ==> m[id] == NamesItem(names, serials, id)
  {
    map id | id in names :: NamesItem(names, serials, id)
  }

  function NamesMap(ifIndex: int, w: Walks): map<int, NameEntry>
    requires Decimal.IsInt64(ifIndex)
  {
    NamesJoin(Latest(Rows(w.names), Polled(BuildWalkOid(ONU_NAME, ifIndex), 1)),
              Latest(Rows(w.serials), Polled(BuildWalkOid(ONU_SERIAL, ifIndex), 1)))
  }

  ghost function PolledNames(ifIndex: int, w: Walks): seq<NameEntry>
    requires Decimal.IsInt64(ifIndex)
  {
    ListOf(NamesMap(ifIndex, w))
  }

  // ---- the optical poller

  function ById(names: seq<NameEntry>): map<int, NameEntry> {
    if names == [] then map[]
    else
      var last := names[|names| - 1];
      ById(names[..|names| - 1])[last.onuId := last]
  }

  method NamesById(names: seq<NameEntry>) returns (byId: map<int, NameEntry>)
    ensures byId == ById(names)
  {
    byId := map[];
    for i := 0 to |names|
      invariant byId == ById(names[..i])
    {
      assert names[..i + 1][..i] == names[..i];
      byId := byId[names[i].onuId := names[i]];
    }
    assert names[..|names|] == names;
  }

  function CachedNames(names: Option<seq<NameEntry>>): map<int, NameEntry> {
    if names.Some? then ById(names.value) else map[]
  }

  function OpticalItem(port: Port, adapter: Adapter, status: map<int, Pdu>, rx: map<int, Pdu>,
                       names: map<int, NameEntry>, id: int): ListItem
    requires id in status
  {
    ListItem(port.oltId, port.board, port.pon, id,
             if id in names then names[id].name else "",
             if id in names then names[id].serial else "",
             ParseOnuStatus(status[id]), PduInt(status[id]), RowPower(adapter, rx, id))
  }

  function OpticalJoin(port: Port, adapter: Adapter, status: map<int, Pdu>, rx: map<int, Pdu>,
                       names: map<int, NameEntry>): (m: map<int, ListItem>)
    ensures m.Keys == status.Keys
    ensures forall id :: id in m ==> m[id] == OpticalItem(port, adapter, status, rx, names, id)
  {
    map id | id in status :: OpticalItem(port, adapter, status, rx, names, id)
  }

  function OpticalMap(port: Port, adapter: Adapter, ifIndex: int, w: Walks, names: Option<seq<NameEntry>>): map<int, ListItem>
    requires Decimal.IsInt64(ifIndex)
  {
    OpticalJoin(port, adapter, Latest(Rows(w.status), Polled(BuildWalkOid(ONU_STATUS, ifIndex), 1)),
                Latest(Rows(w.rx), Polled(BuildWalkOid(ONU_RX_POWER, ifIndex), 2)), CachedNames(names))
  }

  ghost function OpticalList(port: Port, adapter: Adapter, ifIndex: int, w: Walks, names: Option<seq<NameEntry>>): seq<ListItem>
    requires Decimal.IsInt64(ifIndex)
  {
    ListOf(OpticalMap(port, adapter, ifIndex, w, names))
  }

  // ---- shape of a stored list

  /** Strictly increasing ONU IDs, every item on the given port. */
  ghost predicate ForPort(items: seq<ListItem>, port: Port) {
    && (forall i, j :: 0 <= i < j < |items| ==> items[i].onuId < items[j].onuId)
    && (forall i :: 0 <= i < |items| ==> Port(items[i].oltId, items[i].board, items[i].pon) == port)
  }

  lemma DirectForPort(port: Port, adapter: Adapter, ifIndex: int, w: Walks)
    requires Decimal.IsInt64(ifIndex)
    ensures ForPort(DirectList(port, adapter, ifIndex, w), port)
  {
  }

  lemma OpticalForPort(port: Port, adapter: Adapter, ifIndex: int, w: Walks, names: Option<seq<NameEntry>>)
    requires Decimal.IsInt64(ifIndex)
    ensures ForPort(OpticalList(port, adapter, ifIndex, w, names), port)
    ensures OpticalMap(port, adapter, ifIndex, w, names) != map[] ==> OpticalList(port, adapter, ifIndex, w, names) != []
  {
  }
}
