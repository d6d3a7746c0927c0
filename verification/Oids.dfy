/** OID texts: building the OID of a PON subtree or of one ONU, and reading the ONU ID back. */
module Oids {
  import opened Text
  import opened Decimal

  const ONU_NAME := ".1.3.6.1.4.1.3902.1012.3.28.1.1.2"
  const ONU_SERIAL := ".1.3.6.1.4.1.3902.1012.3.28.1.1.5"
  const ONU_STATUS := ".1.3.6.1.4.1.3902.1012.3.28.2.1.4"
  const ONU_RX_POWER := ".1.3.6.1.4.1.3902.1012.3.50.12.1.1.10"
  const PON_DESCRIPTION := ".1.3.6.1.4.1.3902.1012.3.13.1.1.1"

  /** What the package's own integer printer yields: the canonical decimal text, except for the one
      integer whose negation does not fit and which loses its digits. */
  function ItoaText(i: int): string
    requires IsInt64(i)
  {
    if i == MIN_INT64 then "-" else SignedDec(i)
  }

  /** Negation on 64-bit integers. */
  function Negate64(i: int): (r: int)
    requires IsInt64(i)
    ensures IsInt64(r)
  {
    if i == MIN_INT64 then i else -i
  }

  method Itoa(n: int) returns (text: string)
    requires IsInt64(n)
    ensures text == ItoaText(n)
  {
    if n == 0 {
      return "0";
    }
    var i := n;
    var result := "";
    var negative := i < 0;
    if negative {
      i := Negate64(i);
    }
    ghost var start := i;
    while i > 0
      invariant i == start || 0 <= i <= start
      invariant i == start ==> result == ""
      invariant start > 0 && i == 0 ==> result == Dec(start)
      invariant start > 0 && i > 0 ==> Dec(start) == Dec(i) + result
      decreases i
    {
      if i >= 10 {
        assert Dec(i) + result == Dec(i / 10) + ([Digit(i % 10)] + result);
      }
      result := [Digit(i % 10)] + result;
      i := i / 10;
    }
    if negative {
      result := "-" + result;
    }
    return result;
  }

  lemma ItoaTextChars(i: int)
    requires IsInt64(i)
    ensures ItoaText(i) != "" && '.' !in ItoaText(i)
  {
  }

  lemma ItoaTextInjective(i: int, j: int)
    requires IsInt64(i) && IsInt64(j)
    requires ItoaText(i) == ItoaText(j)
    ensures i == j
  {
    if i != MIN_INT64 && j != MIN_INT64 {
      SignedDecInjective(i, j);
    } else {
      SignedDecChars(i);
      SignedDecChars(j);
    }
  }

  /** The printer is inverted by strconv.Atoi exactly when its argument is not the least integer. */
  lemma ItoaRoundTrip(i: int)
    requires IsInt64(i)
    ensures Atoi(ItoaText(i)) == Some(i) <==> i != MIN_INT64
    ensures i == MIN_INT64 ==> Atoi(ItoaText(i)) == None
  {
    if i != MIN_INT64 { AtoiSignedDec(i); }
  }

  function BuildWalkOid(base: string, ifIndex: int): string
    requires IsInt64(ifIndex)
  {
    base + "." + ItoaText(ifIndex)
  }

  function BuildOnuOid(base: string, ifIndex: int, onuId: int, suffix: string): string
    requires IsInt64(ifIndex) && IsInt64(onuId)
  {
    base + "." + ItoaText(ifIndex) + "." + ItoaText(onuId) + suffix
  }

  /** The on-demand service's reading of an ONU ID; None stands for its error. */
  function ExtractOnuId(fullOid: string, baseOid: string): Option<int> {
    var suffix := TrimPrefix(fullOid, baseOid + ".");
    if suffix == fullOid then None
    else
      var parts := Split(suffix, '.');
      if parts[0] == "" then None else Atoi(parts[0])
  }

  /** The pollers' reading: no check that the prefix was there, but at least `minParts` components. */
  function PolledOnuId(fullOid: string, baseOid: string, minParts: nat): Option<int> {
    var parts := Split(TrimPrefix(fullOid, baseOid + "."), '.');
    if |parts| >= minParts && parts[0] != "" then Atoi(parts[0]) else None
  }

  /** A suffix the program appends to an ONU OID: empty, or a further component. */
  predicate DotLed(suffix: string) { suffix == "" || suffix[0] == '.' }

  /** What follows a PON subtree's prefix in the OID of one of its ONUs. */
  lemma OnuOidUnder(base: string, i: int, j: int, n: int, suffix: string)
    requires IsInt64(i) && IsInt64(j) && IsInt64(n)
    ensures HasPrefix(BuildOnuOid(base, i, n, suffix), BuildWalkOid(base, j) + ".") <==> i == j
    ensures i == j ==>
      TrimPrefix(BuildOnuOid(base, i, n, suffix), BuildWalkOid(base, j) + ".") == ItoaText(n) + suffix
  {
    var oid := BuildOnuOid(base, i, n, suffix);
    var walk := BuildWalkOid(base, j) + ".";
    var a, b := ItoaText(i), ItoaText(j);
    ItoaTextChars(i);
    ItoaTextChars(j);
    if i == j {
      assert oid == walk + (ItoaText(n) + suffix);
    } else if walk <= oid {
      var rest := ItoaText(n) + suffix;
      assert oid == (base + ".") + (a + "." + rest);
      assert walk == (base + ".") + (b + ".");
      PrefixAfter(base + ".", b + ".", a + "." + rest);
      SameFirst(a, b, '.', rest);
      ItoaTextInjective(i, j);
    }
  }

  /** Reading an ONU ID back from a built OID, against the subtree of any ifIndex: it succeeds exactly
      in the ONU's own subtree, for every ID but the least integer, and returns the ID built in. */
  lemma ExtractRoundTrip(base: string, i: int, j: int, n: int, suffix: string)
    requires IsInt64(i) && IsInt64(j) && IsInt64(n)
    requires DotLed(suffix)
    ensures ExtractOnuId(BuildOnuOid(base, i, n, suffix), BuildWalkOid(base, j))
            == if i == j && n != MIN_INT64 then Some(n) else None
  {
    var oid := BuildOnuOid(base, i, n, suffix);
    OnuOidUnder(base, i, j, n, suffix);
    if i == j {
      ItoaTextChars(n);
      SplitFirst(ItoaText(n), '.', suffix);
      ItoaRoundTrip(n);
    }
  }

  /** The pollers read the same ID as the service exactly when the walk prefix is present or the first
      component of the whole name is not a number; RX rows also need their channel component. */
  lemma PolledAgrees(name: string, base: string)
    ensures PolledOnuId(name, base, 1) == ExtractOnuId(name, base)
            <==> HasPrefix(name, base + ".") || Atoi(Split(name, '.')[0]) == None
  {
  }

  lemma PolledRoundTrip(base: string, i: int, n: int, suffix: string)
    requires IsInt64(i) && IsInt64(n) && n != MIN_INT64
    requires DotLed(suffix)
    ensures PolledOnuId(BuildOnuOid(base, i, n, suffix), BuildWalkOid(base, i), 1) == Some(n)
    ensures PolledOnuId(BuildOnuOid(base, i, n, suffix), BuildWalkOid(base, i), 2)
            == if suffix == "" then None else Some(n)
  {
    OnuOidUnder(base, i, i, n, suffix);
    ItoaTextChars(n);
    SplitFirst(ItoaText(n), '.', suffix);
    ItoaRoundTrip(n);
  }
}
