/** The PON list of a board: read on demand, and stored per board by the optical poller. */
module PonLists {
  import opened Text
  import opened Decimal
  import opened Oids
  import opened IfIndex
  import opened Pdus
  import Keyed
  import Pollers

  datatype PonInfo = PonInfo(board: int, pon: int, description: string)

  function TrimQuotesLeft(s: string): string { if s != "" && s[0] == '"' then TrimQuotesLeft(s[1..]) else s }

  function TrimQuotesRight(s: string): string { if s != "" && s[|s| - 1] == '"' then TrimQuotesRight(s[..|s| - 1]) else s }

  function TrimQuotes(s: string): string { TrimQuotesRight(TrimQuotesLeft(s)) }

  /** The PON a description row speaks of. */
  function PonOf(pdu: Pdu): Option<PonInfo> {
    var suffix := TrimPrefix(pdu.name, PON_DESCRIPTION + ".");
    if suffix == pdu.name then None
    else
      match Atoi(suffix)
      case None => None
      case Some(ifIndex) =>
        Some(PonInfo(ParseIfIndex(ifIndex).slot, ParseIfIndex(ifIndex).port, TrimQuotes(PduToString(pdu))))
  }

  /** The PONs of one board, in the order of the rows. */
  function BoardRows(pdus: seq<Pdu>, board: int): seq<PonInfo> {
    if pdus == [] then []
    else
      var before := BoardRows(pdus[..|pdus| - 1], board);
      match PonOf(pdus[|pdus| - 1])
      case None => before
      case Some(p) => if p.board == board then before + [p] else before
  }

  lemma BoardRowsStep(pdus: seq<Pdu>, i: nat, board: int)
    requires i < |pdus|
    ensures BoardRows(pdus[..i + 1], board) ==
            BoardRows(pdus[..i], board) + if PonOf(pdus[i]).Some? && PonOf(pdus[i]).value.board == board then [PonOf(pdus[i]).value] else []
  {
    assert pdus[..i + 1][..i] == pdus[..i];
  }

  predicate ByPon(list: seq<PonInfo>) { forall i, j :: 0 <= i < j < |list| ==> list[i].pon <= list[j].pon }

  /** sort.Slice by PON number; ports with equal numbers may come in any order. */
  method SortByPon(list: seq<PonInfo>) returns (sorted: seq<PonInfo>)
    ensures ByPon(sorted) && multiset(sorted) == multiset(list)
  {
    sorted := [];
    for i := 0 to |list|
      invariant ByPon(sorted) && multiset(sorted) == multiset(list[..i])
    {
      sorted := Insert(sorted, list[i]);
      assert list[..i + 1] == list[..i] + [list[i]];
    }
    assert list[..|list|] == list;
  }

  method Insert(sorted: seq<PonInfo>, p: PonInfo) returns (r: seq<PonInfo>)
    requires ByPon(sorted)
    ensures ByPon(r) && multiset(r) == multiset(sorted) + multiset{p}
  {
    var j := 0;
    while j < |sorted| && sorted[j].pon <= p.pon
      invariant 0 <= j <= |sorted|
      invariant forall k :: 0 <= k < j ==> sorted[k].pon <= p.pon
    {
      j := j + 1;
    }
    r := sorted[..j] + [p] + sorted[j..];
    assert sorted == sorted[..j] + sorted[j..];
    InsertedByPon(sorted, j, p);
  }

  lemma InsertedByPon(sorted: seq<PonInfo>, j: nat, p: PonInfo)
    requires ByPon(sorted) && j <= |sorted|
    requires forall k :: 0 <= k < j ==> sorted[k].pon <= p.pon
    requires j < |sorted| ==> p.pon < sorted[j].pon
    ensures ByPon(sorted[..j] + [p] + sorted[j..])
  {
  }

  /** An answer to a request for one board's PONs. */
  ghost predicate Answers(list: seq<PonInfo>, pdus: seq<Pdu>, board: int) {
    ByPon(list) && multiset(list) == multiset(BoardRows(pdus, board))
  }

  /** On demand: the rows of the board, sorted. None is a failed walk. */
  method GetPonList(walk: Option<seq<Pdu>>, board: int) returns (list: Option<seq<PonInfo>>)
    ensures list.None? <==> walk.None?
    ensures walk.Some? ==> Answers(list.value, walk.value, board)
  {
    if walk.None? {
      return None;
    }
    var descriptions := [];
    for i := 0 to |walk.value|
      invariant descriptions == BoardRows(walk.value[..i], board)
    {
      BoardRowsStep(walk.value, i, board);
      var p := PonOf(walk.value[i]);
      if p.Some? && p.value.board == board {
        descriptions := descriptions + [p.value];
      }
    }
    assert walk.value[..|walk.value|] == walk.value;
    descriptions := SortByPon(descriptions);
    return Some(descriptions);
  }

  /** Ports collected per board. */
  ghost predicate Grouped(boards: map<int, seq<PonInfo>>, pdus: seq<Pdu>) {
    && (forall b :: b in boards ==> boards[b] == BoardRows(pdus, b) && boards[b] != [])
    && (forall b :: b !in boards ==> BoardRows(pdus, b) == [])
  }

  lemma GroupStep(boards: map<int, seq<PonInfo>>, pdus: seq<Pdu>, i: nat)
    requires i < |pdus| && Grouped(boards, pdus[..i])
    ensures var p := PonOf(pdus[i]);
            Grouped(if p.None? then boards
                    else boards[p.value.board := (if p.value.board in boards then boards[p.value.board] else []) + [p.value]], pdus[..i + 1])
  {
    forall b ensures BoardRows(pdus[..i + 1], b) ==
      BoardRows(pdus[..i], b) + if PonOf(pdus[i]).Some? && PonOf(pdus[i]).value.board == b then [PonOf(pdus[i]).value] else []
    {
      BoardRowsStep(pdus, i, b);
    }
  }

  /** What the optical poller stores: one sorted list for every board that has a PON. */
  method PonListsByBoard(pdus: seq<Pdu>) returns (lists: map<int, seq<PonInfo>>)
    ensures forall b :: b in lists <==> BoardRows(pdus, b) != []
    ensures forall b :: b in lists ==> Answers(lists[b], pdus, b)
  {
    var boards: map<int, seq<PonInfo>> := map[];
    for i := 0 to |pdus|
      invariant Grouped(boards, pdus[..i])
    {
      GroupStep(boards, pdus, i);
      var p := PonOf(pdus[i]);
      if p.Some? {
        var have := if p.value.board in boards then boards[p.value.board] else [];
        boards := boards[p.value.board := have + [p.value]];
      }
    }
    assert pdus[..|pdus|] == pdus;
    lists := map[];
    var rest := boards.Keys;
    while rest != {}
      invariant rest <= boards.Keys && lists.Keys == boards.Keys - rest
      invariant forall b :: b in lists ==> Answers(lists[b], pdus, b)
    {
      var b, others := Keyed.TakeKey(rest);
      var sorted := SortByPon(boards[b]);
      lists := lists[b := sorted];
      rest := others;
    }
  }

  /** Ports with the same number are described alike. */
  ghost predicate Consistent(m: multiset<PonInfo>) {
    forall p, q :: p in m && q in m && p.pon == q.pon ==> p == q
  }

  lemma SameHead(a: seq<PonInfo>, b: seq<PonInfo>)
    requires ByPon(a) && ByPon(b) && multiset(a) == multiset(b) && a != [] && b != []
    requires Consistent(multiset(a))
    ensures a[0] == b[0]
  {
    assert a[0] in multiset(b) && b[0] in multiset(a);
    var i :| 0 <= i < |b| && b[i] == a[0];
    var j :| 0 <= j < |a| && a[j] == b[0];
    assert b[0].pon <= b[i].pon && a[0].pon <= a[j].pon;
  }

  lemma TailBag(a: seq<PonInfo>)
    requires a != []
    ensures multiset(a[1..]) == multiset(a) - multiset{a[0]}
  {
    assert a == [a[0]] + a[1..];
  }

  lemma TailConsistent(a: seq<PonInfo>)
    requires a != [] && ByPon(a) && Consistent(multiset(a))
    ensures ByPon(a[1..]) && Consistent(multiset(a[1..]))
  {
  }

  lemma SameSize(a: seq<PonInfo>, b: seq<PonInfo>)
    requires multiset(a) == multiset(b)
    ensures |a| == |b|
  {
    assert |a| == |multiset(a)| == |multiset(b)| == |b|;
  }

  lemma Extend(a: seq<PonInfo>, b: seq<PonInfo>)
    requires a != [] && b != [] && a[0] == b[0] && a[1..] == b[1..]
    ensures a == b
  {
  }

  lemma {:induction false} SortedUnique(a: seq<PonInfo>, b: seq<PonInfo>)
    requires ByPon(a) && ByPon(b) && multiset(a) == multiset(b) && Consistent(multiset(a))
    ensures a == b
    decreases |a|
  {
    SameSize(a, b);
    if a != [] {
      SameHead(a, b);
      TailBag(a);
      TailBag(b);
      TailConsistent(a);
      TailConsistent(b);
      SortedUnique(a[1..], b[1..]);
      Extend(a, b);
    }
  }

  /** On one device, a board on which no PON number is described in two ways gets the same list from the
      poller and on demand. */
  lemma PonListsAgree(polled: seq<PonInfo>, direct: seq<PonInfo>, pdus: seq<Pdu>, board: int)
    requires Answers(polled, pdus, board) && Answers(direct, pdus, board)
    requires Consistent(multiset(BoardRows(pdus, board)))
    ensures polled == direct
  {
    SortedUnique(polled, direct);
  }

  // ---- a device that prints one row per PON

  /** A PON and its description as the device stores it, perhaps in quotes. */
  datatype Unit = Unit(board: int, pon: int, before: string, description: string, after: string)

  predicate Quotes(s: string) { forall i :: 0 <= i < |s| ==> s[i] == '"' }

  predicate GoodUnit(u: Unit) {
    && IsByte(u.board) && IsByte(u.pon) && Quotes(u.before) && Quotes(u.after)
    && u.description != "" && u.description[0] != '"' && u.description[|u.description| - 1] != '"'
  }

  function UnitRow(u: Unit): Pdu {
    Pdu(PON_DESCRIPTION + "." + SignedDec(CalculateIfIndex(1, u.board, u.pon)), OctetString,
        Bytes(u.before + u.description + u.after))
  }

  ghost predicate Prints(pdus: seq<Pdu>, units: seq<Unit>) {
    && |pdus| == |units|
    && (forall i :: 0 <= i < |units| ==> GoodUnit(units[i]) && pdus[i] == UnitRow(units[i]))
  }

  lemma {:induction false} TrimQuotesAround(before: string, s: string, after: string)
    requires Quotes(before) && Quotes(after) && s != "" && s[0] != '"' && s[|s| - 1] != '"'
    ensures TrimQuotes(before + s + after) == s
  {
    assert before + s + after == before + (s + after);
    QuotesLeft(before, s + after);
    QuotesRight(s, after);
  }

  lemma {:induction false} QuotesLeft(before: string, s: string)
    requires Quotes(before) && s != "" && s[0] != '"'
    ensures TrimQuotesLeft(before + s) == s
    decreases |before|
  {
    if before == "" {
      assert before + s == s;
    } else {
      assert (before + s)[1..] == before[1..] + s;
      QuotesLeft(before[1..], s);
    }
  }

  lemma {:induction false} QuotesRight(s: string, after: string)
    requires Quotes(after) && s != "" && s[|s| - 1] != '"'
    ensures TrimQuotesRight(s + after) == s
    decreases |after|
  {
    if after == "" {
      assert s + after == s;
    } else {
      assert (s + after)[..|s + after| - 1] == s + after[..|after| - 1];
      QuotesRight(s, after[..|after| - 1]);
    }
  }

  lemma SuffixRead(base: string, text: string)
    requires text != ""
    ensures TrimPrefix(base + "." + text, base + ".") == text && text != base + "." + text
  {
    assert (base + "." + text)[|base + "."|..] == text;
  }

  lemma RowRead(base: string, ifIndex: int, pdu: Pdu)
    requires IsInt64(ifIndex) && pdu.name == base + "." + SignedDec(ifIndex)
    ensures var suffix := TrimPrefix(pdu.name, base + "."); suffix != pdu.name && Atoi(suffix) == Some(ifIndex)
  {
    SuffixRead(base, SignedDec(ifIndex));
    AtoiSignedDec(ifIndex);
  }

  lemma UnitRead(u: Unit)
    requires GoodUnit(u)
    ensures PonOf(UnitRow(u)) == Some(PonInfo(u.board, u.pon, u.description))
  {
    RowRead(PON_DESCRIPTION, CalculateIfIndex(1, u.board, u.pon), UnitRow(u));
    ParseCalculate(1, u.board, u.pon);
    TrimQuotesAround(u.before, u.description, u.after);
  }

  /** What the rows of a board must come to. */
  function UnitsOn(units: seq<Unit>, board: int): seq<PonInfo> {
    if units == [] then []
    else
      var u := units[|units| - 1];
      UnitsOn(units[..|units| - 1], board) + if u.board == board then [PonInfo(u.board, u.pon, u.description)] else []
  }

  lemma PrintsPrefix(pdus: seq<Pdu>, units: seq<Unit>, n: nat)
    requires Prints(pdus, units) && |units| == n + 1
    ensures Prints(pdus[..n], units[..n]) && GoodUnit(units[n]) && pdus[n] == UnitRow(units[n])
  {
  }

  lemma BoardRowsLast(pdus: seq<Pdu>, n: nat, p: PonInfo, board: int)
    requires |pdus| == n + 1 && PonOf(pdus[n]) == Some(p)
    ensures BoardRows(pdus, board) == BoardRows(pdus[..n], board) + if p.board == board then [p] else []
  {
  }

  lemma {:induction false} UnitsRead(pdus: seq<Pdu>, units: seq<Unit>, board: int)
    requires Prints(pdus, units)
    ensures BoardRows(pdus, board) == UnitsOn(units, board)
    decreases |units|
  {
    if units != [] {
      var n := |units| - 1;
      var u := units[n];
      PrintsPrefix(pdus, units, n);
      UnitsRead(pdus[..n], units[..n], board);
      UnitRead(u);
      BoardRowsLast(pdus, n, PonInfo(u.board, u.pon, u.description), board);
    }
  }

  ghost predicate Listed(units: seq<Unit>, board: int, p: PonInfo) {
    exists i :: 0 <= i < |units| && UnitAs(units[i], board, p)
  }

  predicate UnitAs(u: Unit, board: int, p: PonInfo) {
    u.board == board && p == PonInfo(board, u.pon, u.description)
  }

  lemma {:induction false} UnitsListed(units: seq<Unit>, board: int)
    ensures forall p :: p in UnitsOn(units, board) <==> Listed(units, board, p)
    decreases |units|
  {
    if units != [] {
      var n := |units| - 1;
      UnitsListed(units[..n], board);
      forall p ensures p in UnitsOn(units, board) <==> Listed(units, board, p) {
        if Listed(units[..n], board, p) {
          var i :| 0 <= i < n && UnitAs(units[..n][i], board, p);
          assert UnitAs(units[i], board, p);
        }
        if Listed(units, board, p) && !UnitAs(units[n], board, p) {
          var i :| 0 <= i < |units| && UnitAs(units[i], board, p);
          assert UnitAs(units[..n][i], board, p);
        }
      }
    }
  }

  ghost predicate OnceEach(units: seq<Unit>) {
    forall i, j :: 0 <= i < j < |units| ==> units[i].board != units[j].board || units[i].pon != units[j].pon
  }

  predicate Distinct(list: seq<PonInfo>) { forall i, j :: 0 <= i < j < |list| ==> list[i].pon != list[j].pon }

  lemma {:induction false} UnitsOnce(units: seq<Unit>, board: int)
    requires OnceEach(units)
    ensures Distinct(UnitsOn(units, board))
    decreases |units|
  {
    if units != [] {
      var n := |units| - 1;
      var before := UnitsOn(units[..n], board);
      assert forall i :: 0 <= i < n ==> units[..n][i] == units[i];
      UnitsOnce(units[..n], board);
      UnitsListed(units[..n], board);
      forall k | 0 <= k < |before| && units[n].board == board ensures before[k].pon != units[n].pon {
        assert before[k] in before;
        var i :| 0 <= i < n && UnitAs(units[..n][i], board, before[k]);
      }
    }
  }

  lemma DistinctAgain(list: seq<PonInfo>, sorted: seq<PonInfo>)
    requires Distinct(list) && ByPon(sorted) && multiset(sorted) == multiset(list)
    ensures forall i, j :: 0 <= i < j < |sorted| ==> sorted[i].pon < sorted[j].pon
  {
    forall i, j | 0 <= i < j < |sorted| ensures sorted[i].pon != sorted[j].pon {
      StillDistinct(list, sorted, i, j);
    }
  }

  lemma {:induction false} CountOne(list: seq<PonInfo>, p: PonInfo)
    requires Distinct(list)
    ensures multiset(list)[p] <= 1
    decreases |list|
  {
    if list != [] {
      var n := |list| - 1;
      assert list == list[..n] + [list[n]];
      CountOne(list[..n], p);
      assert p == list[n] ==> p !in list[..n];
    }
  }

  lemma StillDistinct(list: seq<PonInfo>, sorted: seq<PonInfo>, i: nat, j: nat)
    requires Distinct(list) && multiset(sorted) == multiset(list) && i < j < |sorted|
    ensures sorted[i].pon != sorted[j].pon
  {
    assert sorted[i] in multiset(list) && sorted[j] in multiset(list);
    var k :| 0 <= k < |list| && list[k] == sorted[i];
    var m :| 0 <= m < |list| && list[m] == sorted[j];
    if sorted[i] == sorted[j] {
      CountOne(list, sorted[i]);
      CountTwice(sorted, i, j);
    }
  }

  lemma CountTwice(sorted: seq<PonInfo>, i: nat, j: nat)
    requires i < j < |sorted| && sorted[i] == sorted[j]
    ensures multiset(sorted)[sorted[i]] >= 2
  {
    assert sorted == sorted[..j] + sorted[j..];
    assert sorted[i] in sorted[..j] && sorted[j..][0] == sorted[j];
  }

  lemma {:induction false} SomeUnit(units: seq<Unit>, board: int)
    ensures UnitsOn(units, board) != [] <==> exists i :: 0 <= i < |units| && units[i].board == board
    decreases |units|
  {
    if units != [] {
      var n := |units| - 1;
      SomeUnit(units[..n], board);
      assert forall i :: 0 <= i < n ==> units[..n][i] == units[i];
    }
  }

  /** On a device that prints one row per PON, the answer for a board lists exactly that board's PONs, each
      once, in increasing order, with the description the device stores without its quotes; and a board has a
      stored list exactly when it has a PON. */
  lemma PonListRoundTrip(list: seq<PonInfo>, pdus: seq<Pdu>, units: seq<Unit>, board: int)
    requires Prints(pdus, units) && OnceEach(units) && Answers(list, pdus, board)
    ensures forall i, j :: 0 <= i < j < |list| ==> list[i].pon < list[j].pon
    ensures forall p :: p in list <==>
              exists i :: 0 <= i < |units| && units[i].board == board && p == PonInfo(board, units[i].pon, units[i].description)
    ensures BoardRows(pdus, board) != [] <==> exists i :: 0 <= i < |units| && units[i].board == board
  {
    UnitsRead(pdus, units, board);
    UnitsListed(units, board);
    UnitsOnce(units, board);
    SomeUnit(units, board);
    DistinctAgain(UnitsOn(units, board), list);
    forall p ensures p in list <==> p in UnitsOn(units, board) {
      assert p in list <==> p in multiset(list);
    }
    forall p ensures p in list <==>
      exists i :: 0 <= i < |units| && units[i].board == board && p == PonInfo(board, units[i].pon, units[i].description)
    {
      if Listed(units, board, p) {
        var i :| 0 <= i < |units| && UnitAs(units[i], board, p);
      }
      if i :| 0 <= i < |units| && units[i].board == board && p == PonInfo(board, units[i].pon, units[i].description) {
        assert UnitAs(units[i], board, p);
      }
    }
  }

  // ---- the ports that discovery finds

  lemma SamePort(pdu: Pdu)
    ensures match Pollers.DiscoveredUnder(PON_DESCRIPTION, pdu.name)
            case None => PonOf(pdu) == None
            case Some(d) => PonOf(pdu).Some? && PonOf(pdu).value.board == d.board && PonOf(pdu).value.pon == d.pon
  {
  }

  ghost predicate PonIn(list: seq<PonInfo>, pon: int) { exists i :: 0 <= i < |list| && list[i].pon == pon }

  ghost predicate FoundOn(ports: seq<Pollers.PonPort>, board: int, pon: int) {
    exists p :: p in ports && p.board == board && p.pon == pon
  }

  predicate RowOn(pdu: Pdu, board: int, pon: int) {
    PonOf(pdu).Some? && PonOf(pdu).value.board == board && PonOf(pdu).value.pon == pon
  }

  ghost predicate SomeRow(pdus: seq<Pdu>, board: int, pon: int) {
    exists i :: 0 <= i < |pdus| && RowOn(pdus[i], board, pon)
  }

  lemma SomeRowStep(pdus: seq<Pdu>, n: nat, board: int, pon: int)
    requires |pdus| == n + 1
    ensures SomeRow(pdus, board, pon) <==> SomeRow(pdus[..n], board, pon) || RowOn(pdus[n], board, pon)
  {
    assert forall i :: 0 <= i < n ==> pdus[..n][i] == pdus[i];
  }

  lemma PonInStep(before: seq<PonInfo>, p: PonInfo, pon: int)
    ensures PonIn(before + [p], pon) <==> PonIn(before, pon) || p.pon == pon
  {
    assert forall i :: 0 <= i < |before| ==> (before + [p])[i] == before[i];
    assert (before + [p])[|before|] == p;
  }

  lemma {:induction false} BoardRowsHold(pdus: seq<Pdu>, board: int, pon: int)
    ensures PonIn(BoardRows(pdus, board), pon) <==> SomeRow(pdus, board, pon)
    decreases |pdus|
  {
    if pdus != [] {
      var n := |pdus| - 1;
      BoardRowsHold(pdus[..n], board, pon);
      SomeRowStep(pdus, n, board, pon);
      if PonOf(pdus[n]).Some? { PonInStep(BoardRows(pdus[..n], board), PonOf(pdus[n]).value, pon); }
    }
  }

  lemma {:induction false} PresentMember<T>(xs: seq<Option<T>>, x: T)
    ensures x in Pollers.Present(xs) <==> Some(x) in xs
    decreases |xs|
  {
    if xs != [] {
      var n := |xs| - 1;
      PresentMember(xs[..n], x);
      assert xs == xs[..n] + [xs[n]];
    }
  }

  lemma DiscoveredRow(pdus: seq<Pdu>, board: int, pon: int)
    ensures FoundOn(Pollers.DiscoveredAll(PON_DESCRIPTION, pdus), board, pon) <==> SomeRow(pdus, board, pon)
  {
    var found := Pollers.Reads(PON_DESCRIPTION, pdus);
    if FoundOn(Pollers.Present(found), board, pon) {
      var p: Pollers.PonPort :| p in Pollers.Present(found) && p.board == board && p.pon == pon;
      PresentMember(found, p);
      var i :| 0 <= i < |found| && found[i] == Some(p);
      SamePort(pdus[i]);
      assert RowOn(pdus[i], board, pon);
    }
    if SomeRow(pdus, board, pon) {
      var i :| 0 <= i < |pdus| && RowOn(pdus[i], board, pon);
      SamePort(pdus[i]);
      assert found[i] in found;
      PresentMember(found, found[i].value);
    }
  }

  /** On any rows, the ports listed for a board are those that discovery finds there. */
  lemma ListedAreDiscovered(list: seq<PonInfo>, pdus: seq<Pdu>, board: int, pon: int)
    requires Answers(list, pdus, board)
    ensures PonIn(list, pon) <==> FoundOn(Pollers.DiscoveredAll(PON_DESCRIPTION, pdus), board, pon)
  {
    BoardRowsHold(pdus, board, pon);
    DiscoveredRow(pdus, board, pon);
    SameMembers(list, BoardRows(pdus, board), pon);
  }

  lemma SameMembers(a: seq<PonInfo>, b: seq<PonInfo>, pon: int)
    requires multiset(a) == multiset(b)
    ensures PonIn(a, pon) <==> PonIn(b, pon)
  {
    if PonIn(a, pon) {
      var i :| 0 <= i < |a| && a[i].pon == pon;
      assert a[i] in multiset(b);
    }
    if PonIn(b, pon) {
      var i :| 0 <= i < |b| && b[i].pon == pon;
      assert b[i] in multiset(a);
    }
  }
}
