/** X11 KeySym values of the non-ASCII keys the emulator reacts to (from X11/keysymdef.h). */
module KeySym {
  const BackSpace := 0xff08
  const Tab := 0xff09
  const Return := 0xff0d
  const SysReq := 0xff15
  const Escape := 0xff1b
  const Left := 0xff51
  const Up := 0xff52
  const Right := 0xff53
  const Down := 0xff54
  const F1 := 0xffbe
  const F3 := 0xffc0
  const F4 := 0xffc1
  const F9 := 0xffc6
  const F11 := 0xffc8
  const F12 := 0xffc9
  const ShiftL := 0xffe1
  const ShiftR := 0xffe2
  const ControlL := 0xffe3
  const ControlR := 0xffe4
  const MetaL := 0xffe7
  const MetaR := 0xffe8
  const AltL := 0xffe9
  const AltR := 0xffea
  const Delete := 0xffff
  const Sterling := 0xa3
}

/**
 * The Ace keyboard matrix as the emulator presents it: eight active-low rows,
 * one byte each, read through port 0xFE with the row chosen by the high
 * address byte.
 */
module KeyMatrix {
  type Row = r: int | 0 <= r < 8

  /** Every key up: all eight rows read 0xFF. */
  const AllUp: seq<bv8> := [0xff, 0xff, 0xff, 0xff, 0xff, 0xff, 0xff, 0xff]

  /** The high address byte that selects row r: every bit set except bit r. */
  function RowSelect(r: Row): (h: bv8)
    ensures h | ((1 as bv8) << r) == 0xff && h & ((1 as bv8) << r) == 0
  {
    0xff ^ ((1 as bv8) << r)
  }

  /** Different rows are selected by different high bytes. */
  lemma RowSelectInjective(r: Row, s: Row)
    ensures RowSelect(r) == RowSelect(s) <==> r == s
  {
  }

  /** Whether some row is selected by the high byte h. */
  predicate SelectsRow(h: int)
  {
    exists r: Row :: RowSelect(r) as int == h
  }

  /** The eight row-select bytes, 0xFE for row 0 up to 0x7F for row 7. */
  lemma RowSelectValues(h: int)
    ensures RowSelect(0) == 0xfe && RowSelect(1) == 0xfd && RowSelect(2) == 0xfb && RowSelect(3) == 0xf7
    ensures RowSelect(4) == 0xef && RowSelect(5) == 0xdf && RowSelect(6) == 0xbf && RowSelect(7) == 0x7f
    ensures SelectsRow(h) <==> h in {0xfe, 0xfd, 0xfb, 0xf7, 0xef, 0xdf, 0xbf, 0x7f}
  {
    if SelectsRow(h) {
      var r: Row :| RowSelect(r) as int == h;
      assert r == 0 || r == 1 || r == 2 || r == 3 || r == 4 || r == 5 || r == 6 || r == 7;
    } else {
      assert RowSelect(0) as int != h && RowSelect(7) as int != h;
    }
  }

  /**
   * The three byte operations of the row updates, as functions so that proofs
   * about rows of the matrix use the laws below instead of bit-level reasoning.
   */
  function BitAnd(a: bv8, b: bv8): bv8
  {
    a & b
  }

  function BitOr(a: bv8, b: bv8): bv8
  {
    a | b
  }

  function BitNot(a: bv8): bv8
  {
    !a
  }

  /** The byte identities the proofs about row updates use. */
  lemma BitLaws(a: bv8, b: bv8, c: bv8)
    ensures BitAnd(a, 0xff) == a && BitAnd(0xff, a) == a
    ensures BitOr(a, 0) == a && BitOr(0, a) == a
    ensures BitAnd(BitAnd(a, b), c) == BitAnd(a, BitAnd(b, c))
    ensures BitOr(BitOr(a, b), c) == BitOr(a, BitOr(b, c))
    ensures BitNot(BitAnd(a, b)) == BitOr(BitNot(a), BitNot(b))
    ensures BitOr(a, BitNot(a)) == 0xff
    ensures BitNot(0xff) == 0
    ensures BitAnd(BitAnd(a, b), BitNot(a)) == 0
    ensures BitAnd(BitOr(a, b), a) == a
  {
    AndAssociates(a, b, c);
    OrAssociates(a, b, c);
    NotOfAnd(a, b);
    AndOfComplement(a, b);
    OrAbsorbs(a, b);
  }

  lemma AndAssociates(a: bv8, b: bv8, c: bv8)
    ensures BitAnd(BitAnd(a, b), c) == BitAnd(a, BitAnd(b, c))
  {
  }

  lemma OrAssociates(a: bv8, b: bv8, c: bv8)
    ensures BitOr(BitOr(a, b), c) == BitOr(a, BitOr(b, c))
  {
  }

  lemma NotOfAnd(a: bv8, b: bv8)
    ensures BitNot(BitAnd(a, b)) == BitOr(BitNot(a), BitNot(b))
  {
  }

  lemma AndOfComplement(a: bv8, b: bv8)
    ensures BitAnd(BitAnd(a, b), BitNot(a)) == 0
  {
  }

  lemma OrAbsorbs(a: bv8, b: bv8)
    ensures BitAnd(BitOr(a, b), a) == a
  {
  }
}
