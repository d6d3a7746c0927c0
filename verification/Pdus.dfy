/** SNMP variables and the values the joins take out of them. */
module Pdus {
  import opened Text
  import opened Decimal

  datatype PduType =
    OctetString | Integer | Counter32 | Counter64 | Gauge32 | TimeTicks
    | NoSuchObject | NoSuchInstance | Null | OtherType

  /** The dynamic value: absent, bytes, an integer of any Go integer type, or another value by the text
      that %v prints for it. */
  datatype PduValue = Nil | Bytes(bytes: string) | Number(n: int) | Other(printed: string)

  datatype Pdu = Pdu(name: string, kind: PduType, value: PduValue)

  function PrintBytes(bytes: string): string {
    if bytes == "" then "]"
    else SignedDec(bytes[0] as int) + (if |bytes| == 1 then "" else " ") + PrintBytes(bytes[1..])
  }

  function PrintValue(v: PduValue): string {
    match v
    case Nil => "<nil>"
    case Bytes(b) => "[" + PrintBytes(b)
    case Number(n) => SignedDec(n)
    case Other(t) => t
  }

  function PduToString(pdu: Pdu): string {
    if pdu.value.Nil? then ""
    else
      match pdu.kind
      case NoSuchObject | NoSuchInstance | Null => ""
      case OctetString => if pdu.value.Bytes? then pdu.value.bytes else ""
      case Integer | Counter32 | Counter64 | Gauge32 | TimeTicks => PrintValue(pdu.value)
      case OtherType =>
        var s := PrintValue(pdu.value);
        if s == "<nil>" then "" else s
  }

  /** Unsigned 64-bit values wrap when converted. */
  function PduInt(pdu: Pdu): (r: int)
    ensures IsInt64(r)
  {
    if pdu.value.Number? then Wrap64(pdu.value.n) else 0
  }

  function UpperHexDigit(d: nat): char
    requires d < 16
  {
    if d < 10 then Digit(d) else ('A' as int + d - 10) as char
  }

  function UpperHex(bytes: string): string {
    if bytes == "" then ""
    else [UpperHexDigit((bytes[0] as int / 16) % 16), UpperHexDigit(bytes[0] as int % 16)] + UpperHex(bytes[1..])
  }

  function PduBytes(pdu: Pdu): string {
    if pdu.kind.OctetString? && pdu.value.Bytes? then pdu.value.bytes else ""
  }

  /** Eight bytes are a four-character vendor code and a hexadecimal device number. */
  function ParseSerialNumber(pdu: Pdu): string {
    var bytes := PduBytes(pdu);
    if |bytes| != 8 then UpperHex(bytes) else bytes[..4] + UpperHex(bytes[4..])
  }

  /** Bytes are characters below 256. */
  predicate IsBytes(s: string) { forall i :: 0 <= i < |s| ==> s[i] as int < 256 }

  function HexDigitValue(c: char): nat {
    if '0' <= c <= '9' then c as int - '0' as int else if 'A' <= c <= 'F' then c as int - 'A' as int + 10 else 0
  }

  /** Reading hexadecimal digits in pairs, the more significant first. */
  function FromHex(digits: string): seq<int> {
    if |digits| < 2 then [] else [16 * HexDigitValue(digits[0]) + HexDigitValue(digits[1])] + FromHex(digits[2..])
  }

  function Codes(bytes: string): (codes: seq<int>)
    ensures |codes| == |bytes| && forall i :: 0 <= i < |codes| ==> codes[i] == bytes[i] as int
  {
    seq(|bytes|, i requires 0 <= i < |bytes| => bytes[i] as int)
  }

  lemma HexDigitRead(d: nat)
    requires d < 16
    ensures HexDigitValue(UpperHexDigit(d)) == d
  {
  }

  lemma HexByteRead(byte: char)
    requires byte as int < 256
    ensures 16 * HexDigitValue(UpperHexDigit((byte as int / 16) % 16)) + HexDigitValue(UpperHexDigit(byte as int % 16)) == byte as int
  {
    HexDigitRead((byte as int / 16) % 16);
    HexDigitRead(byte as int % 16);
  }

  /** Printed bytes are read back as hexadecimal numbers. */
  lemma {:induction false} HexRoundTrip(bytes: string)
    requires IsBytes(bytes)
    ensures FromHex(UpperHex(bytes)) == Codes(bytes)
    decreases |bytes|
  {
    if bytes != "" {
      HexByteRead(bytes[0]);
      HexRoundTrip(bytes[1..]);
      assert UpperHex(bytes)[2..] == UpperHex(bytes[1..]);
      assert Codes(bytes)[1..] == Codes(bytes[1..]);
    }
  }

  lemma UpperHexInjective(a: string, b: string)
    requires IsBytes(a) && IsBytes(b) && UpperHex(a) == UpperHex(b)
    ensures a == b
  {
    HexRoundTrip(a);
    HexRoundTrip(b);
    assert |a| == |Codes(a)| == |b|;
    forall i | 0 <= i < |a| ensures a[i] == b[i] {
      assert Codes(a)[i] == Codes(b)[i];
    }
  }

  /** Devices with different serial numbers of the standard eight bytes are shown differently: vendor code
      and device number can both be read back. */
  lemma SerialNumbersDiffer(p: Pdu, q: Pdu)
    requires |PduBytes(p)| == 8 && |PduBytes(q)| == 8 && IsBytes(PduBytes(p)) && IsBytes(PduBytes(q))
    requires ParseSerialNumber(p) == ParseSerialNumber(q)
    ensures PduBytes(p) == PduBytes(q)
  {
    var a, b := PduBytes(p), PduBytes(q);
    var s := ParseSerialNumber(p);
    assert s[..4] == a[..4] == b[..4];
    assert s[4..] == UpperHex(a[4..]) == UpperHex(b[4..]);
    UpperHexInjective(a[4..], b[4..]);
    assert a == a[..4] + a[4..] && b == b[..4] + b[4..];
  }

  /** Serial numbers of any other length are shown as hexadecimal digits alone. */
  lemma OtherSerialRead(p: Pdu)
    requires |PduBytes(p)| != 8 && IsBytes(PduBytes(p))
    ensures FromHex(ParseSerialNumber(p)) == Codes(PduBytes(p))
  {
    HexRoundTrip(PduBytes(p));
  }

  /** A number of any integer type is shown as the text that reads back as it. */
  lemma NumberShown(p: Pdu)
    requires p.kind in {Integer, Counter32, Counter64, Gauge32, TimeTicks, OtherType} && p.value.Number? && IsInt64(p.value.n)
    ensures Atoi(PduToString(p)) == Some(p.value.n)
  {
    AtoiSignedDec(p.value.n);
    SignedDecChars(p.value.n);
  }

  function ParseOnuStatus(pdu: Pdu): string {
    match PduInt(pdu)
    case 1 => "Offline"
    case 2 => "Ranging"
    case 3 => "Online"
    case 4 => "LOS"
    case 5 => "DyingGasp"
    case 6 => "PowerOff"
    case 7 => "Unauthorized"
    case 8 => "AutoConfig"
    case 9 => "FirmwareUpgrade"
    case code => "Unknown(" + SignedDec(code) + ")"
  }

  /** Different status codes have different names. */
  lemma StatusNamesDiffer(p: Pdu, q: Pdu)
    requires ParseOnuStatus(p) == ParseOnuStatus(q)
    ensures PduInt(p) == PduInt(q)
  {
    var s, t := ParseOnuStatus(p), ParseOnuStatus(q);
    if 1 <= PduInt(p) <= 9 {
      assert |s| == |t| && s[0] == t[0] && s[|s| - 1] == t[|s| - 1];
    } else {
      assert s == "Unknown(" + SignedDec(PduInt(p)) + ")";
      assert t[7] == '(';
      assert t == "Unknown(" + SignedDec(PduInt(q)) + ")";
      assert s[8..|s| - 1] == SignedDec(PduInt(p)) && t[8..|t| - 1] == SignedDec(PduInt(q));
      SignedDecInjective(PduInt(p), PduInt(q));
    }
  }

  /** The firmware adapter of an OLT, if one is known; both firmware versions convert alike. */
  datatype Adapter = NoAdapter | Firmware

  /** Received power in dBm, exact where the program rounds to a float. */
  function ConvertPower(adapter: Adapter, raw: int): real {
    if adapter.NoAdapter? then Wrap64(raw - 10000) as real / 100.0
    else if raw == 65535 || raw == 0 then 0.0
    else Wrap64(raw - 15000) as real / 500.0
  }
}
