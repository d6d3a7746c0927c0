/** The next free ONU ID of a PON, from the table a device prints. */
module OnuIds {
  import opened Text
  import opened Decimal

  const MARK := "gpon-onu_"

  /** What the pattern has after its first number. */
  function PonPart(board: int, pon: int): string { "/" + SignedDec(board) + "/" + SignedDec(pon) + ":" }

  datatype Match = Match(id: string, rest: string)

  /** The pattern gpon-onu_\d+/board/pon:(\d+) matched where a text starts, and what follows the match. */
  function MatchAt(s: string, board: int, pon: int): (m: Option<Match>)
    ensures m.Some? ==> |m.value.rest| < |s| && m.value.id != ""
  {
    if !(MARK <= s) then None
    else
      var s1 := s[|MARK|..];
      var shelf := LeadingDigits(s1);
      var s2 := s1[|shelf|..];
      if shelf == "" || !(PonPart(board, pon) <= s2) then None
      else
        var s3 := s2[|PonPart(board, pon)|..];
        var id := LeadingDigits(s3);
        if id == "" then None else Some(Match(id, s3[|id|..]))
  }

  /** All matches, leftmost first and not overlapping. */
  function FindAll(s: string, board: int, pon: int): seq<string>
    decreases |s|
  {
    if s == "" then []
    else
      match MatchAt(s, board, pon)
      case None => FindAll(s[1..], board, pon)
      case Some(m) => [m.id] + FindAll(m.rest, board, pon)
  }

  /** The greatest number among the matches that fit an integer; zero if there is none. */
  function MaxId(ids: seq<string>): (m: int)
    ensures 0 <= m <= MAX_INT64
  {
    if ids == [] then 0
    else
      var before := MaxId(ids[..|ids| - 1]);
      match Atoi(ids[|ids| - 1])
      case Some(id) => if id > before then id else before
      case None => before
  }

  /** `output` is what the device prints for the PON. */
  method FindNextOnuId(output: string, board: int, pon: int) returns (next: int)
    ensures next == Wrap64(MaxId(FindAll(output, board, pon)) + 1)
  {
    var matches := FindAll(output, board, pon);
    var maxId := 0;
    for i := 0 to |matches|
      invariant maxId == MaxId(matches[..i])
    {
      assert matches[..i + 1][..i] == matches[..i];
      var id := Atoi(matches[i]);
      if id.Some? {
        if id.value > maxId {
          maxId := id.value;
        }
      }
    }
    assert matches[..|matches|] == matches;
    return Wrap64(maxId + 1);
  }

  // ---- a printed table

  datatype Row = Row(shelf: nat, board: int, pon: int, id: nat, tail: string)

  /** Text that ends its line and holds no interface name. */
  ghost predicate Unmarked(t: string) {
    && (t != "" ==> t[|t| - 1] == '\n')
    && (forall i :: 0 <= i <= |t| ==> !(MARK <= t[i..]))
  }

  ghost predicate GoodRow(r: Row) {
    r.id <= MAX_INT64 && r.tail != "" && !IsDigit(r.tail[0]) && Unmarked(r.tail)
  }

  function RowText(r: Row): string { MARK + (Dec(r.shelf) + (PonPart(r.board, r.pon) + (Dec(r.id) + r.tail))) }

  function TableText(rows: seq<Row>): string {
    if rows == [] then "" else RowText(rows[0]) + TableText(rows[1..])
  }

  function IdsOn(rows: seq<Row>, board: int, pon: int): seq<string> {
    if rows == [] then []
    else IdOn(rows[0], board, pon) + IdsOn(rows[1..], board, pon)
  }

  lemma {:induction false} LeadingDigitsOf(a: string, x: string)
    requires AllDigits(a) && (x == "" || !IsDigit(x[0]))
    ensures LeadingDigits(a + x) == a
    decreases |a|
  {
    if a == "" {
      assert a + x == x;
    } else {
      assert (a + x)[1..] == a[1..] + x;
      LeadingDigitsOf(a[1..], x);
      assert [a[0]] + a[1..] == a;
    }
  }

  lemma MarkChars()
    ensures MARK[0] == 'g' && '\n' !in MARK && 'g' !in MARK[1..] && |MARK| == 9
  {
  }

  lemma NoMark(t: string, rest: string)
    requires Unmarked(t) && t != ""
    ensures !(MARK <= t + rest)
  {
    MarkChars();
    assert t[0..] == t;
    if MARK <= t + rest {
      PrefixOfEither(MARK, t, rest);
    }
  }

  lemma PrefixOfEither(m: string, t: string, rest: string)
    requires m <= t + rest
    ensures |m| <= |t| ==> m <= t
    ensures 0 < |t| < |m| ==> t[|t| - 1] in m
  {
    assert m == (t + rest)[..|m|];
    assert |m| <= |t| ==> (t + rest)[..|m|] == t[..|m|];
    assert 0 < |t| < |m| ==> m[|t| - 1] == (t + rest)[|t| - 1] == t[|t| - 1];
  }

  lemma {:induction false} SkipUnmarked(t: string, rest: string, board: int, pon: int)
    requires Unmarked(t)
    ensures FindAll(t + rest, board, pon) == FindAll(rest, board, pon)
    decreases |t|
  {
    if t == "" {
      assert t + rest == rest;
    } else {
      NoMark(t, rest);
      assert (t + rest)[1..] == t[1..] + rest;
      assert forall i :: 0 <= i <= |t| - 1 ==> t[1..][i..] == t[i + 1..];
      SkipUnmarked(t[1..], rest, board, pon);
    }
  }

  lemma {:induction false} SkipNoG(a: string, rest: string, board: int, pon: int)
    requires 'g' !in a
    ensures FindAll(a + rest, board, pon) == FindAll(rest, board, pon)
    decreases |a|
  {
    MarkChars();
    if a == "" {
      assert a + rest == rest;
    } else {
      var s := a + rest;
      assert s[0] == a[0] && s[1..] == a[1..] + rest;
      assert !(MARK <= s);
      SkipNoG(a[1..], rest, board, pon);
    }
  }

  /** The part of the pattern that names a PON is the beginning of no other PON's. */
  lemma PonPartStarts(b: int, p: int, board: int, pon: int, rest: string)
    ensures PonPart(b, p) <= PonPart(board, pon) + rest <==> b == board && p == pon
  {
    SignedDecChars(b);
    SignedDecChars(p);
    SignedDecChars(board);
    SignedDecChars(pon);
    var x, y := SignedDec(b), SignedDec(board);
    var u, v := SignedDec(p), SignedDec(pon);
    var after := v + [':'] + rest;
    assert PonPart(b, p) == "/" + (x + ['/'] + (u + [':']));
    assert PonPart(board, pon) + rest == "/" + (y + ['/'] + after);
    PrefixAfter("/", x + ['/'] + (u + [':']), y + ['/'] + after);
    if x + ['/'] + (u + [':']) <= y + ['/'] + after {
      assert x + ['/'] <= x + ['/'] + (u + [':']);
      SameFirst(y, x, '/', after);
      SignedDecInjective(b, board);
      PrefixAfter(x + ['/'], u + [':'], after);
      SameFirst(v, u, ':', rest);
      SignedDecInjective(p, pon);
    }
  }

  lemma AfterHead(head: string, tail: string)
    ensures head <= head + tail && (head + tail)[|head|..] == tail
  {
  }

  lemma Nested(a: string, b: string, c: string, d: string, e: string, rest: string)
    ensures (a + (b + (c + (d + e)))) + rest == a + (b + (c + (d + (e + rest))))
  {
    assert (d + e) + rest == d + (e + rest);
    assert (c + (d + e)) + rest == c + ((d + e) + rest);
    assert (b + (c + (d + e))) + rest == b + ((c + (d + e)) + rest);
  }

  lemma ShelfRead(r: Row, rest: string)
    ensures var s := RowText(r) + rest;
            var after := PonPart(r.board, r.pon) + (Dec(r.id) + (r.tail + rest));
            MARK <= s && LeadingDigits(s[|MARK|..]) == Dec(r.shelf) && s[|MARK|..][|Dec(r.shelf)|..] == after
  {
    var after := PonPart(r.board, r.pon) + (Dec(r.id) + (r.tail + rest));
    Nested(MARK, Dec(r.shelf), PonPart(r.board, r.pon), Dec(r.id), r.tail, rest);
    AfterHead(MARK, Dec(r.shelf) + after);
    AfterHead(Dec(r.shelf), after);
    LeadingDigitsOf(Dec(r.shelf), after);
  }

  lemma RowMatches(r: Row, rest: string, board: int, pon: int)
    requires GoodRow(r)
    ensures MatchAt(RowText(r) + rest, board, pon)
            == if r.board == board && r.pon == pon then Some(Match(Dec(r.id), r.tail + rest)) else None
  {
    var last := Dec(r.id) + (r.tail + rest);
    ShelfRead(r, rest);
    PonPartStarts(board, pon, r.board, r.pon, last);
    if r.board == board && r.pon == pon {
      assert (PonPart(board, pon) + last)[|PonPart(board, pon)|..] == last;
      LeadingDigitsOf(Dec(r.id), r.tail + rest);
      assert last[|Dec(r.id)|..] == r.tail + rest;
    }
  }

  /** A name at the end of the text is read to the end. */
  lemma BareRow(r: Row, board: int, pon: int)
    requires r.tail == ""
    ensures FindAll(RowText(r), board, pon) == if r.board == board && r.pon == pon then [Dec(r.id)] else []
  {
    var last := Dec(r.id);
    assert RowText(r) + "" == RowText(r) && last + "" == last;
    ShelfRead(r, "");
    PonPartStarts(board, pon, r.board, r.pon, last);
    if r.board == board && r.pon == pon {
      assert (PonPart(board, pon) + last)[|PonPart(board, pon)|..] == last;
      LeadingDigitsOf(last, "");
      assert MatchAt(RowText(r), board, pon) == Some(Match(last, ""));
      assert FindAll("", board, pon) == [];
    } else {
      BareRest(r);
      SkipNoG(RowText(r)[1..], "", board, pon);
      assert RowText(r)[1..] + "" == RowText(r)[1..];
      assert MatchAt(RowText(r), board, pon) == None;
    }
  }

  lemma BareRest(r: Row)
    requires r.tail == ""
    ensures 'g' !in RowText(r)[1..]
  {
    MarkChars();
    var body := Dec(r.shelf) + (PonPart(r.board, r.pon) + Dec(r.id));
    SignedDecChars(r.board);
    SignedDecChars(r.pon);
    assert 'g' !in body && Dec(r.id) + "" == Dec(r.id);
    assert RowText(r) == MARK + body;
    assert RowText(r)[1..] == MARK[1..] + body;
  }

  lemma RowFound(r: Row, rest: string, board: int, pon: int)
    requires GoodRow(r) && r.board == board && r.pon == pon
    ensures FindAll(RowText(r) + rest, board, pon) == [Dec(r.id)] + FindAll(rest, board, pon)
  {
    RowMatches(r, rest, board, pon);
    SkipUnmarked(r.tail, rest, board, pon);
  }

  lemma OtherRowSkipped(r: Row, rest: string, board: int, pon: int)
    requires GoodRow(r) && !(r.board == board && r.pon == pon)
    ensures FindAll(RowText(r) + rest, board, pon) == FindAll(rest, board, pon)
  {
    RowMatches(r, rest, board, pon);
    RowBody(r, rest);
    SkipText(RowText(r) + rest, RowText(r)[1..|RowText(r)| - |r.tail|], r.tail, rest, board, pon);
  }

  lemma RowBody(r: Row, rest: string)
    ensures var text := RowText(r);
            && |text| > |r.tail| + 1 && 'g' !in text[1..|text| - |r.tail|]
            && (text + rest)[1..] == text[1..|text| - |r.tail|] + (r.tail + rest)
  {
    MarkChars();
    var body := Dec(r.shelf) + (PonPart(r.board, r.pon) + Dec(r.id));
    SignedDecChars(r.board);
    SignedDecChars(r.pon);
    assert 'g' !in body;
    assert RowText(r) == MARK + (body + r.tail);
    assert RowText(r)[1..|RowText(r)| - |r.tail|] == MARK[1..] + body;
  }

  function IdOn(r: Row, board: int, pon: int): seq<string> {
    if r.board == board && r.pon == pon then [Dec(r.id)] else []
  }

  lemma RowStep(r: Row, rest: string, board: int, pon: int)
    requires GoodRow(r)
    ensures FindAll(RowText(r) + rest, board, pon) == IdOn(r, board, pon) + FindAll(rest, board, pon)
  {
    if r.board == board && r.pon == pon {
      RowFound(r, rest, board, pon);
    } else {
      OtherRowSkipped(r, rest, board, pon);
    }
  }

  lemma {:induction false} TableFinds(rows: seq<Row>, board: int, pon: int)
    requires forall i :: 0 <= i < |rows| ==> GoodRow(rows[i])
    ensures FindAll(TableText(rows), board, pon) == IdsOn(rows, board, pon)
    decreases |rows|
  {
    if rows != [] {
      TableFinds(rows[1..], board, pon);
      RowStep(rows[0], TableText(rows[1..]), board, pon);
    }
  }

  lemma SkipText(s: string, body: string, tail: string, rest: string, board: int, pon: int)
    requires s != "" && s[1..] == body + (tail + rest) && 'g' !in body && Unmarked(tail)
    requires MatchAt(s, board, pon) == None
    ensures FindAll(s, board, pon) == FindAll(rest, board, pon)
  {
    SkipNoG(body, tail + rest, board, pon);
    SkipUnmarked(tail, rest, board, pon);
  }

  // ---- the greatest ID

  lemma {:induction false} MaxIdOf(ids: seq<string>, bound: int)
    ensures (forall i :: 0 <= i < |ids| && Atoi(ids[i]).Some? ==> Atoi(ids[i]).value <= bound) && bound >= 0 <==> MaxId(ids) <= bound
    ensures MaxId(ids) == 0 || exists i :: 0 <= i < |ids| && Atoi(ids[i]) == Some(MaxId(ids))
    decreases |ids|
  {
    if ids != [] {
      var init := ids[..|ids| - 1];
      MaxIdOf(init, bound);
      if MaxId(init) != 0 {
        var i :| 0 <= i < |init| && Atoi(init[i]) == Some(MaxId(init));
        assert ids[i] == init[i];
      }
      assert forall i :: 0 <= i < |init| ==> init[i] == ids[i];
    }
  }

  lemma {:induction false} IdsOnMembers(rows: seq<Row>, board: int, pon: int, text: string)
    ensures text in IdsOn(rows, board, pon)
            <==> exists i :: 0 <= i < |rows| && rows[i].board == board && rows[i].pon == pon && Dec(rows[i].id) == text
    decreases |rows|
  {
    if rows != [] {
      IdsOnMembers(rows[1..], board, pon, text);
      if text in IdsOn(rows[1..], board, pon) {
        var i :| 0 <= i < |rows| - 1 && rows[1..][i].board == board && rows[1..][i].pon == pon && Dec(rows[1..][i].id) == text;
        assert rows[i + 1] == rows[1..][i];
      }
      forall i | 0 <= i < |rows| && rows[i].board == board && rows[i].pon == pon && Dec(rows[i].id) == text
        ensures text in IdsOn(rows, board, pon)
      {
        if i > 0 { assert rows[1..][i - 1] == rows[i]; }
      }
    }
  }

  /** The ID found is free on exactly that board and PON, one more than the greatest there: rows of other
      boards and PONs, and whatever stands before and between the rows, do not matter. */
  lemma NextIdIsFree(header: string, rows: seq<Row>, board: int, pon: int)
    requires Unmarked(header) && forall i :: 0 <= i < |rows| ==> GoodRow(rows[i])
    ensures var max := MaxId(FindAll(header + TableText(rows), board, pon));
            && (forall i :: 0 <= i < |rows| && rows[i].board == board && rows[i].pon == pon ==> rows[i].id <= max)
            && (max == 0 || exists i :: 0 <= i < |rows| && rows[i].board == board && rows[i].pon == pon && rows[i].id == max)
  {
    SkipUnmarked(header, TableText(rows), board, pon);
    TableFinds(rows, board, pon);
    var ids := IdsOn(rows, board, pon);
    var max := MaxId(ids);
    MaxIdOf(ids, max);
    forall i | 0 <= i < |rows| && rows[i].board == board && rows[i].pon == pon ensures rows[i].id <= max {
      IdsOnMembers(rows, board, pon, Dec(rows[i].id));
      AtoiSignedDec(rows[i].id);
      var k :| 0 <= k < |ids| && ids[k] == Dec(rows[i].id);
    }
    if max != 0 {
      var k :| 0 <= k < |ids| && Atoi(ids[k]) == Some(max);
      IdsOnMembers(rows, board, pon, ids[k]);
      var i :| 0 <= i < |rows| && rows[i].board == board && rows[i].pon == pon && Dec(rows[i].id) == ids[k];
      AtoiSignedDec(rows[i].id);
    }
  }
}
