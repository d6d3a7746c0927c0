/** A device that prints a table of ONUs, and the list an on-demand fetch makes of it. */
module PrintedDevice {
  import opened Text
  import opened Decimal
  import opened Oids
  import opened Pdus
  import opened Keyed
  import opened Joins
  import IfIndex
  import OnuService

  /** One ONU as the device stores it: a four-letter vendor code and four bytes make the serial number, and
      received power is a raw reading of the first channel. */
  datatype Unit = Unit(id: int, name: string, vendor: string, number: string, code: int, raw: int)

  predicate GoodUnit(u: Unit) {
    && IsInt64(u.id) && u.id != MIN_INT64 && Trimmed(u.name) && |u.vendor| == 4 && |u.number| == 4
    && 1 <= u.code <= 9 && 0 <= u.raw <= 65535
  }

  /** Agents report rows in increasing order. */
  ghost predicate GoodUnits(units: seq<Unit>) {
    && (forall k :: 0 <= k < |units| ==> GoodUnit(units[k]))
    && (forall j, k :: 0 <= j < k < |units| ==> units[j].id < units[k].id)
  }

  function Row(base: string, ifIndex: int, u: Unit, suffix: string, kind: PduType, value: PduValue): Pdu
    requires IsInt64(ifIndex) && GoodUnit(u)
  {
    Pdu(BuildOnuOid(base, ifIndex, u.id, suffix), kind, value)
  }

  function StatusRow(ifIndex: int, u: Unit): Pdu
    requires IsInt64(ifIndex) && GoodUnit(u)
  {
    Row(ONU_STATUS, ifIndex, u, "", Integer, Number(u.code))
  }

  function NameRow(ifIndex: int, u: Unit): Pdu
    requires IsInt64(ifIndex) && GoodUnit(u)
  {
    Row(ONU_NAME, ifIndex, u, "", OctetString, Bytes(u.name))
  }

  function SerialRow(ifIndex: int, u: Unit): Pdu
    requires IsInt64(ifIndex) && GoodUnit(u)
  {
    Row(ONU_SERIAL, ifIndex, u, "", OctetString, Bytes(u.vendor + u.number))
  }

  function PowerRow(ifIndex: int, u: Unit): Pdu
    requires IsInt64(ifIndex) && GoodUnit(u)
  {
    Row(ONU_RX_POWER, ifIndex, u, ".1", Integer, Number(u.raw))
  }

  ghost predicate Prints(w: Walks, ifIndex: int, units: seq<Unit>)
    requires IsInt64(ifIndex) && GoodUnits(units)
  {
    && w.status.Some? && w.names.Some? && w.serials.Some? && w.rx.Some?
    && |w.status.value| == |w.names.value| == |w.serials.value| == |w.rx.value| == |units|
    && forall k :: 0 <= k < |units| ==>
         && w.status.value[k] == StatusRow(ifIndex, units[k]) && w.names.value[k] == NameRow(ifIndex, units[k])
         && w.serials.value[k] == SerialRow(ifIndex, units[k]) && w.rx.value[k] == PowerRow(ifIndex, units[k])
  }

  const STATUS_NAMES := ["Offline", "Ranging", "Online", "LOS", "DyingGasp", "PowerOff", "Unauthorized", "AutoConfig", "FirmwareUpgrade"]

  /** What a list must show of an ONU. */
  ghost predicate Shows(item: ListItem, port: Port, adapter: Adapter, u: Unit) {
    && item.oltId == port.oltId && item.board == port.board && item.pon == port.pon && item.onuId == u.id
    && item.name == u.name && item.serial == u.vendor + UpperHex(u.number)
    && item.statusCode == u.code && 1 <= u.code <= 9 && item.status == STATUS_NAMES[u.code - 1]
    && item.rxPower == Dbm(adapter, u.raw)
  }

  /** A raw reading in dBm: steps of 0.002 above -30 with the two ends meaning no reading, or hundredths above
      -100 where the firmware is not known. */
  function Dbm(adapter: Adapter, raw: int): real {
    match adapter
    case Firmware => if raw == 0 || raw == 65535 then 0.0 else raw as real * 0.002 - 30.0
    case NoAdapter => raw as real * 0.01 - 100.0
  }

  // ---- reading the rows

  /** A row of a unit, with any further components in its name. */
  ghost predicate Names(pdu: Pdu, base: string, ifIndex: int, id: int)
    requires IsInt64(ifIndex) && IsInt64(id)
  {
    exists suffix :: DotLed(suffix) && pdu.name == BuildOnuOid(base, ifIndex, id, suffix)
  }

  lemma NameRead(pdu: Pdu, base: string, ifIndex: int, id: int)
    requires IsInt64(ifIndex) && IsInt64(id) && id != MIN_INT64 && Names(pdu, base, ifIndex, id)
    ensures Checked(BuildWalkOid(base, ifIndex)).Id(pdu.name) == Some(id)
  {
    var suffix :| DotLed(suffix) && pdu.name == BuildOnuOid(base, ifIndex, id, suffix);
    ExtractRoundTrip(base, ifIndex, ifIndex, id, suffix);
  }

  /** Each ID with its row. */
  function RowsOf(pdus: seq<Pdu>, ids: seq<int>): map<int, Pdu>
    requires |pdus| == |ids|
  {
    if ids == [] then map[] else RowsOf(pdus[..|ids| - 1], ids[..|ids| - 1])[ids[|ids| - 1] := pdus[|ids| - 1]]
  }

  lemma {:induction false} RowsOfKeys(pdus: seq<Pdu>, ids: seq<int>)
    requires |pdus| == |ids|
    ensures forall id :: id in RowsOf(pdus, ids) <==> id in ids
    decreases |ids|
  {
    if ids != [] {
      var n := |ids| - 1;
      RowsOfKeys(pdus[..n], ids[..n]);
      assert ids == ids[..n] + [ids[n]];
    }
  }

  lemma {:induction false} RowsOfAt(pdus: seq<Pdu>, ids: seq<int>, k: nat)
    requires |pdus| == |ids| && Increasing(ids) && k < |ids|
    ensures ids[k] in RowsOf(pdus, ids) && RowsOf(pdus, ids)[ids[k]] == pdus[k]
    decreases |ids|
  {
    var n := |ids| - 1;
    if k < n { RowsOfAt(pdus[..n], ids[..n], k); }
  }

  lemma {:induction false} LatestRows(pdus: seq<Pdu>, reader: Reader, ids: seq<int>)
    requires |pdus| == |ids| && forall k :: 0 <= k < |ids| ==> reader.Id(pdus[k].name) == Some(ids[k])
    ensures Latest(pdus, reader) == RowsOf(pdus, ids)
    decreases |ids|
  {
    if ids != [] { LatestRows(pdus[..|ids| - 1], reader, ids[..|ids| - 1]); }
  }

  function IdsOf(units: seq<Unit>): (ids: seq<int>)
    ensures |ids| == |units| && forall k :: 0 <= k < |ids| ==> ids[k] == units[k].id
  {
    seq(|units|, k requires 0 <= k < |units| => units[k].id)
  }

  lemma TableRows(pdus: seq<Pdu>, base: string, ifIndex: int, units: seq<Unit>)
    requires IsInt64(ifIndex) && GoodUnits(units) && |pdus| == |units|
    requires forall k :: 0 <= k < |units| ==> Names(pdus[k], base, ifIndex, units[k].id)
    ensures Latest(pdus, Checked(BuildWalkOid(base, ifIndex))) == RowsOf(pdus, IdsOf(units))
  {
    forall k | 0 <= k < |units| ensures Checked(BuildWalkOid(base, ifIndex)).Id(pdus[k].name) == Some(IdsOf(units)[k]) {
      NameRead(pdus[k], base, ifIndex, units[k].id);
    }
    LatestRows(pdus, Checked(BuildWalkOid(base, ifIndex)), IdsOf(units));
  }

  /** The tables of a printed device. */
  ghost predicate TablesPrinted(t: Tables, w: Walks, ids: seq<int>)
    requires w.status.Some? && w.names.Some? && w.serials.Some? && w.rx.Some?
    requires |w.status.value| == |w.names.value| == |w.serials.value| == |w.rx.value| == |ids|
  {
    && t.status == RowsOf(w.status.value, ids) && t.names == RowsOf(w.names.value, ids)
    && t.serials == RowsOf(w.serials.value, ids) && t.rx == RowsOf(w.rx.value, ids)
  }

  lemma PrintedTables(w: Walks, ifIndex: int, units: seq<Unit>)
    requires IsInt64(ifIndex) && GoodUnits(units) && Prints(w, ifIndex, units)
    ensures TablesPrinted(TablesOf(ifIndex, w), w, IdsOf(units))
  {
    forall k | 0 <= k < |units|
      ensures Names(w.status.value[k], ONU_STATUS, ifIndex, units[k].id) && Names(w.names.value[k], ONU_NAME, ifIndex, units[k].id)
      ensures Names(w.serials.value[k], ONU_SERIAL, ifIndex, units[k].id) && Names(w.rx.value[k], ONU_RX_POWER, ifIndex, units[k].id)
    {
      assert DotLed("") && DotLed(".1");
    }
    TableRows(w.status.value, ONU_STATUS, ifIndex, units);
    TableRows(w.names.value, ONU_NAME, ifIndex, units);
    TableRows(w.serials.value, ONU_SERIAL, ifIndex, units);
    TableRows(w.rx.value, ONU_RX_POWER, ifIndex, units);
  }

  // ---- the list

  lemma PowerShown(adapter: Adapter, raw: int)
    requires 0 <= raw <= 65535
    ensures ConvertPower(adapter, raw) == Dbm(adapter, raw)
  {
  }

  lemma SerialShown(pdu: Pdu, vendor: string, number: string)
    requires pdu.kind == OctetString && pdu.value == Bytes(vendor + number) && |vendor| == 4 && |number| == 4
    ensures ParseSerialNumber(pdu) == vendor + UpperHex(number)
  {
    var bytes := vendor + number;
    assert bytes[..4] == vendor && bytes[4..] == number;
  }

  lemma StatusShown(pdu: Pdu, code: int)
    requires pdu.kind == Integer && pdu.value == Number(code) && 1 <= code <= 9
    ensures PduInt(pdu) == code && ParseOnuStatus(pdu) == STATUS_NAMES[code - 1]
  {
  }

  lemma UnitShown(port: Port, adapter: Adapter, t: Tables, ifIndex: int, u: Unit)
    requires IsInt64(ifIndex) && GoodUnit(u)
    requires u.id in t.status && t.status[u.id] == StatusRow(ifIndex, u) && u.id in t.names && t.names[u.id] == NameRow(ifIndex, u)
    requires u.id in t.serials && t.serials[u.id] == SerialRow(ifIndex, u) && u.id in t.rx && t.rx[u.id] == PowerRow(ifIndex, u)
    ensures Shows(JoinedItem(port, adapter, t, u.id), port, adapter, u)
  {
    TrimSpaceTrims(u.name);
    SerialShown(t.serials[u.id], u.vendor, u.number);
    StatusShown(t.status[u.id], u.code);
    PowerShown(adapter, u.raw);
  }

  lemma TablesShow(port: Port, adapter: Adapter, ifIndex: int, w: Walks, units: seq<Unit>, t: Tables, k: nat)
    requires IsInt64(ifIndex) && GoodUnits(units) && Prints(w, ifIndex, units) && k < |units|
    requires TablesPrinted(t, w, IdsOf(units))
    ensures Shows(JoinedItem(port, adapter, t, units[k].id), port, adapter, units[k])
  {
    RowsOfAt(w.status.value, IdsOf(units), k);
    RowsOfAt(w.names.value, IdsOf(units), k);
    RowsOfAt(w.serials.value, IdsOf(units), k);
    RowsOfAt(w.rx.value, IdsOf(units), k);
    UnitShown(port, adapter, t, ifIndex, units[k]);
  }

  lemma TablesIds(ifIndex: int, w: Walks, units: seq<Unit>, t: Tables)
    requires IsInt64(ifIndex) && GoodUnits(units) && Prints(w, ifIndex, units) && TablesPrinted(t, w, IdsOf(units))
    ensures SortedKeys(t.Ids()) == IdsOf(units) && (units != [] ==> t.status != map[])
  {
    var ids := IdsOf(units);
    RowsOfKeys(w.status.value, ids);
    RowsOfKeys(w.names.value, ids);
    RowsOfKeys(w.serials.value, ids);
    RowsOfKeys(w.rx.value, ids);
    IncreasingUnique(SortedKeys(t.Ids()), ids);
    if units != [] { assert ids[0] in t.status; }
  }

  lemma ListShows(port: Port, adapter: Adapter, ifIndex: int, w: Walks, units: seq<Unit>)
    requires IsInt64(ifIndex) && GoodUnits(units) && Prints(w, ifIndex, units)
    ensures var list := DirectList(port, adapter, ifIndex, w);
            |list| == |units| && forall k :: 0 <= k < |units| ==> Shows(list[k], port, adapter, units[k])
  {
    var t := TablesOf(ifIndex, w);
    PrintedTables(w, ifIndex, units);
    TablesIds(ifIndex, w, units, t);
    forall k | 0 <= k < |units|
      ensures Shows(JoinedItem(port, adapter, t, units[k].id), port, adapter, units[k])
    {
      TablesShow(port, adapter, ifIndex, w, units, t, k);
    }
    var list := DirectList(port, adapter, ifIndex, w);
    assert |list| == |units|;
    forall k | 0 <= k < |units| ensures list[k] == JoinedItem(port, adapter, t, units[k].id) {
    }
  }

  /** On a device that prints the ONUs of a port in increasing order, an on-demand fetch of that board and PON
      lists exactly those, in that order, each with its own name, serial number, status and received power. */
  lemma FetchRoundTrip(port: Port, adapter: Adapter, w: Walks, units: seq<Unit>)
    requires GoodUnits(units) && Prints(w, IfIndex.CalculateIfIndex(1, port.board, port.pon), units)
    ensures var r := OnuService.FetchOutcome(port, adapter, w);
            r.Listed? && |r.items| == |units| && forall k :: 0 <= k < |units| ==> Shows(r.items[k], port, adapter, units[k])
  {
    ListShows(port, adapter, IfIndex.CalculateIfIndex(1, port.board, port.pon), w, units);
  }
}
