/** Interface indexes of PON ports: bit fields of a 64-bit integer. */
module IfIndex {
  import opened Decimal

  /** The shelf argument is not used. */
  function CalculateIfIndex(shelf: int, slot: int, port: int): (r: int)
    ensures IsInt64(r)
  {
    Wrap64(0x1000_0000 + slot * 0x1_0000 + port * 0x100)
  }

  datatype Location = Location(shelf: int, slot: int, port: int)

  /** Arithmetic right shifts and masks: floor division and Euclidean remainder. */
  function ParseIfIndex(ifIndex: int): Location {
    Location((ifIndex / 0x1000_0000) % 0x10, (ifIndex / 0x1_0000) % 0x100, (ifIndex / 0x100) % 0x100)
  }

  predicate IsByte(x: int) { 0 <= x < 0x100 }

  /** Parsing inverts calculation exactly for shelf 1 and slot and port numbers of one byte. */
  lemma ParseCalculate(shelf: int, slot: int, port: int)
    ensures ParseIfIndex(CalculateIfIndex(shelf, slot, port)) == Location(shelf, slot, port)
            <==> shelf == 1 && IsByte(slot) && IsByte(port)
  {
    var x := CalculateIfIndex(shelf, slot, port);
    var p := ParseIfIndex(x);
    assert IsByte(p.slot) && IsByte(p.port);
    if IsByte(slot) && IsByte(port) {
      assert x == 0x1000_0000 + slot * 0x1_0000 + port * 0x100;
      assert x / 0x100 == 0x10_0000 + slot * 0x100 + port;
      assert x / 0x1_0000 == 0x1000 + slot;
      assert x / 0x1000_0000 == 1;
    }
  }

  /** The form of every index the devices report: shelf nibble one, three bytes below it, the last zero. */
  predicate Canonical(ifIndex: int) {
    ifIndex % 0x100 == 0 && ifIndex / 0x100_0000 == 0x10
  }

  /** Poller and on-demand fetch walk the same subtree exactly for canonical indexes: recalculating a
      discovered index from the board and PON parsed out of it gives the index back. */
  lemma SameSubtree(ifIndex: int)
    ensures var p := ParseIfIndex(ifIndex);
            CalculateIfIndex(1, p.slot, p.port) == ifIndex <==> Canonical(ifIndex)
  {
    var p := ParseIfIndex(ifIndex);
    var a := ifIndex / 0x100;
    var b := a / 0x100;
    assert b == ifIndex / 0x1_0000;
    var c := b / 0x100;
    assert c == ifIndex / 0x100_0000;
    assert ifIndex == a * 0x100 + ifIndex % 0x100;
    assert a == b * 0x100 + p.port;
    assert b == c * 0x100 + p.slot;
    assert CalculateIfIndex(1, p.slot, p.port) == 0x1000_0000 + p.slot * 0x1_0000 + p.port * 0x100;
  }

  /** Indexes of one-byte boards and PONs sort by board and then by PON, and the observed ones come out. */
  lemma IndexOrder(board: int, pon: int, board': int, pon': int)
    requires IsByte(board) && IsByte(pon) && IsByte(board') && IsByte(pon')
    ensures CalculateIfIndex(1, board, pon) < CalculateIfIndex(1, board', pon') <==> board < board' || (board == board' && pon < pon')
    ensures CalculateIfIndex(1, 1, 1) == 268501248 && CalculateIfIndex(1, 1, 2) == 268501504
  {
  }
}
