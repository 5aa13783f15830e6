/**
 * The Jupiter Ace's banked, mirrored 64 KiB memory (z80.h).
 *
 * The emulator keeps one flat array `mem` of 65536 bytes and reaches it through
 * an eight-entry bank table `memptr`; bank i starts at mem + i * 0x2000.  Stores
 * skip banks whose `memattr` entry is 0 (the ROM) and copy every write into the
 * Ace's partially decoded video and character RAM: 0x2000-0x2FFF is seen twice
 * (each 1 KiB region has a twin 0x400 away) and 0x3000-0x3FFF four times.
 */
module AceMemory {

  const MemSize: nat := 0x10000
  const BankSize: nat := 0x2000

  /** `memptr`: the start of each bank inside the flat array. */
  const MemPtr: seq<nat> := [0x0000, 0x2000, 0x4000, 0x6000, 0x8000, 0xa000, 0xc000, 0xe000]

  /** `memattr`: bank 0 holds the ROM and is read-only, every other bank is RAM. */
  const MemAttr: seq<int> := [0, 1, 1, 1, 1, 1, 1, 1]

  /** `(x & 0xe000) >> 13`: the bank an address falls in. */
  function Page(x: nat): (p: nat)
    ensures p < 8
  {
    x / BankSize % 8
  }

  /** `x & 0x1fff`: the offset inside the bank. */
  function Offset(x: nat): (o: nat)
    ensures o < BankSize
  {
    x % BankSize
  }

  /** The bank table maps every address onto the flat array position `x mod 0x10000`. */
  lemma BankAddress(x: nat)
    ensures MemPtr[Page(x)] + Offset(x) == x % MemSize
  {
    var p := Page(x);
    assert MemPtr[p] == p * BankSize by {
      assert p == 0 || p == 1 || p == 2 || p == 3 || p == 4 || p == 5 || p == 6 || p == 7;
    }
    assert x % MemSize == p * BankSize + Offset(x);
  }

  /** Below 0x10000 the bank table is the identity on addresses; the mirrored RAM is in bank 1. */
  lemma BankIdentity(x: nat)
    requires x < MemSize
    ensures MemPtr[Page(x)] + Offset(x) == x
    ensures 0x2000 <= x < 0x4000 ==> MemPtr[Page(x)] == 0x2000
  {
    BankAddress(x);
  }

  /** `fetch(x)`: read one byte through the bank table. */
  function Fetch(m: seq<bv8>, x: nat): (b: bv8)
    requires |m| == MemSize
    ensures b == m[x % MemSize]
  {
    BankAddress(x);
    m[MemPtr[Page(x)] + Offset(x)]
  }

  /**
   * `fetch2(x)`: a little-endian word, low byte at x and high byte at x + 1.
   * At x = 0xFFFF the high byte comes from address 0.
   */
  function Fetch2(m: seq<bv8>, x: nat): (w: bv16)
    requires |m| == MemSize
    ensures Low(w) == m[x % MemSize] && High(w) == m[(x + 1) % MemSize]
  {
    Pair(Fetch(m, x + 1), Fetch(m, x))
  }

  /** Address 0xFFFF is followed by address 0. */
  lemma Fetch2WrapsAtTop(m: seq<bv8>)
    requires |m| == MemSize
    ensures Fetch2(m, 0xffff) == Pair(m[0], m[0xffff])
  {
  }

  /** `v & 255`: the low byte of a word. */
  function Low(v: bv16): bv8
  {
    (v & 0xff) as bv8
  }

  /** `v >> 8`: the high byte of a word. */
  function High(v: bv16): bv8
  {
    (v >> 8) as bv8
  }

  /** `(hi << 8) | lo`, as used by `fetch2` and the `bc`, `de` and `hl` register pair views. */
  function Pair(hi: bv8, lo: bv8): (w: bv16)
    ensures High(w) == hi && Low(w) == lo
  {
    (hi as bv16 << 8) | lo as bv16
  }

  /** Splitting a word into its two bytes and pairing them gives it back. */
  lemma PairSplit(v: bv16)
    ensures Pair(High(v), Low(v)) == v
  {
  }

  /** Pairing is injective: the two halves can be read back from the word. */
  lemma PairInjective(h1: bv8, l1: bv8, h2: bv8, l2: bv8)
    ensures Pair(h1, l1) == Pair(h2, l2) <==> h1 == h2 && l1 == l2
  {
  }

  predicate InPairLow(x: nat)
  {
    (0x2000 <= x <= 0x23ff) || (0x2800 <= x <= 0x2bff)
  }

  predicate InPairHigh(x: nat)
  {
    (0x2400 <= x <= 0x27ff) || (0x2c00 <= x <= 0x2fff)
  }

  predicate InQuad(x: nat)
  {
    0x3000 <= x <= 0x3fff
  }

  /**
   * Whether address t is written by a `store` at x when x's bank is writable:
   * x itself and its images in the mirrored video and character RAM.
   */
  predicate StoreTarget(x: nat, t: int)
  {
    if InPairLow(x) then t == x || t == x + 0x400
    else if InPairHigh(x) then t == x || t == x - 0x400
    else if InQuad(x) then
      t == x || t == 0x3000 + x % 0x400 || t == 0x3400 + x % 0x400 ||
      t == 0x3800 + x % 0x400 || t == 0x3c00 + x % 0x400
    else t == x
  }

  /** The whole memory after `store(x, y)`. */
  function Stored(m: seq<bv8>, attr: seq<int>, x: nat, y: bv8): (m': seq<bv8>)
    requires |attr| == 8
    ensures |m'| == |m|
  {
    if attr[Page(x)] == 0 then m
    else seq(|m|, i requires 0 <= i < |m| => if StoreTarget(x, i) then y else m[i])
  }

  /**
   * The whole memory after `store2b(x, hi, lo)` as the macro is written: only
   * x's bank attribute is consulted, lo goes to x and its images, and hi goes
   * one byte above each of those.
   */
  function Stored2b(m: seq<bv8>, attr: seq<int>, x: nat, hi: bv8, lo: bv8): (m': seq<bv8>)
    requires |attr| == 8
    ensures |m'| == |m|
  {
    if attr[Page(x)] == 0 then m
    else
      seq(|m|, i requires 0 <= i < |m| =>
        if StoreTarget(x, i) then lo
        else if i >= 1 && StoreTarget(x, i - 1) then hi
        else m[i])
  }

  /** The memory after a 16-bit store made of two byte stores, low byte first. */
  function StoredWord(m: seq<bv8>, attr: seq<int>, x: nat, v: bv16): (m': seq<bv8>)
    requires |attr| == 8 && x < MemSize
    ensures |m'| == |m|
  {
    Stored(Stored(m, attr, x, Low(v)), attr, (x + 1) % MemSize, High(v))
  }

  /** The four shapes a store takes, as sequences of single-byte updates. */
  lemma StoredUpdates(m: seq<bv8>, attr: seq<int>, x: nat, y: bv8)
    requires |m| == MemSize && |attr| == 8 && x < MemSize && attr[Page(x)] != 0
    ensures InPairLow(x) ==> Stored(m, attr, x, y) == m[x := y][x + 0x400 := y]
    ensures InPairHigh(x) ==> Stored(m, attr, x, y) == m[x := y][x - 0x400 := y]
    ensures InQuad(x) ==>
      var k := x % 0x400;
      Stored(m, attr, x, y) == m[x := y][0x3000 + k := y][0x3400 + k := y][0x3800 + k := y][0x3c00 + k := y]
    ensures !InPairLow(x) && !InPairHigh(x) && !InQuad(x) ==> Stored(m, attr, x, y) == m[x := y]
  {
  }

  /** The same for `store2b`, with each high byte written right after its low byte. */
  lemma Stored2bUpdates(m: seq<bv8>, attr: seq<int>, x: nat, hi: bv8, lo: bv8)
    requires |m| == MemSize && |attr| == 8 && x < 0xffff && attr[Page(x)] != 0
    ensures InPairLow(x) ==>
      Stored2b(m, attr, x, hi, lo) == m[x := lo][x + 1 := hi][x + 0x400 := lo][x + 0x401 := hi]
    ensures InPairHigh(x) ==>
      Stored2b(m, attr, x, hi, lo) == m[x := lo][x + 1 := hi][x - 0x400 := lo][x - 0x3ff := hi]
    ensures InQuad(x) ==>
      var k := x % 0x400;
      Stored2b(m, attr, x, hi, lo) ==
        m[x := lo][x + 1 := hi][0x3000 + k := lo][0x3001 + k := hi][0x3400 + k := lo][0x3401 + k := hi]
         [0x3800 + k := lo][0x3801 + k := hi][0x3c00 + k := lo][0x3c01 + k := hi]
    ensures !InPairLow(x) && !InPairHigh(x) && !InQuad(x) ==>
      Stored2b(m, attr, x, hi, lo) == m[x := lo][x + 1 := hi]
  {
  }

  /** The video and character RAM images agree with each other. */
  predicate Mirrored(m: seq<bv8>)
    requires |m| == MemSize
  {
    (forall a :: 0x2000 <= a < 0x2400 ==> m[a] == m[a + 0x400]) &&
    (forall a :: 0x2800 <= a < 0x2c00 ==> m[a] == m[a + 0x400]) &&
    (forall a :: 0x3000 <= a < 0x3400 ==>
      m[a] == m[a + 0x400] && m[a] == m[a + 0x800] && m[a] == m[a + 0xc00])
  }

  /** A store into a read-only bank changes nothing; with the default table that is the ROM bank. */
  lemma StoreReadOnly(m: seq<bv8>, attr: seq<int>, x: nat, y: bv8)
    requires |attr| == 8 && attr[Page(x)] == 0
    ensures Stored(m, attr, x, y) == m
  {
  }

  lemma RomIsReadOnly(x: nat)
    requires x < MemSize
    ensures x < 0x2000 <==> MemAttr[Page(x)] == 0
  {
    assert MemAttr[Page(x)] == 0 <==> Page(x) == 0;
  }

  /** After a store into a writable bank the byte reads back; nothing outside the targets moves. */
  lemma StoreReadsBack(m: seq<bv8>, attr: seq<int>, x: nat, y: bv8)
    requires |m| == MemSize && |attr| == 8 && x < MemSize && attr[Page(x)] != 0
    ensures Stored(m, attr, x, y)[x] == y && Fetch(Stored(m, attr, x, y), x) == y
    ensures forall i :: 0 <= i < MemSize && !StoreTarget(x, i) ==> Stored(m, attr, x, y)[i] == m[i]
  {
    assert StoreTarget(x, x);
  }

  /** With the default bank table no store reaches the ROM. */
  lemma StoreKeepsRom(m: seq<bv8>, x: nat, y: bv8)
    requires |m| == MemSize && x < MemSize
    ensures Stored(m, MemAttr, x, y)[..0x2000] == m[..0x2000]
  {
    RomIsReadOnly(x);
    if x >= 0x2000 {
      StoreTargetsInRange(x);
      StoreReadsBack(m, MemAttr, x, y);
      var m' := Stored(m, MemAttr, x, y);
      forall i | 0 <= i < 0x2000
        ensures m'[i] == m[i]
      {
        assert !StoreTarget(x, i);
      }
    }
  }

  /** The image writes: a pair twin, or all four quad images, receive the same byte. */
  lemma StoreAliases(m: seq<bv8>, attr: seq<int>, x: nat, y: bv8)
    requires |m| == MemSize && |attr| == 8 && x < MemSize && attr[Page(x)] != 0
    ensures InPairLow(x) ==> Stored(m, attr, x, y)[x + 0x400] == y
    ensures InPairHigh(x) ==> Stored(m, attr, x, y)[x - 0x400] == y
    ensures InQuad(x) ==>
      var k := x % 0x400;
      var m' := Stored(m, attr, x, y);
      m'[0x3000 + k] == y && m'[0x3400 + k] == y && m'[0x3800 + k] == y && m'[0x3c00 + k] == y
  {
  }

  /** A word store goes through the same table, so it never changes the ROM either. */
  lemma Stored2bKeepsRom(m: seq<bv8>, x: nat, hi: bv8, lo: bv8)
    requires |m| == MemSize && x < MemSize
    ensures Stored2b(m, MemAttr, x, hi, lo)[..0x2000] == m[..0x2000]
  {
    RomIsReadOnly(x);
    if x >= 0x2000 {
      StoreTargetsInRange(x);
      var m' := Stored2b(m, MemAttr, x, hi, lo);
      forall i | 0 <= i < 0x2000
        ensures m'[i] == m[i]
      {
        assert !StoreTarget(x, i) && !(i >= 1 && StoreTarget(x, i - 1));
      }
    }
  }

  /** The range rules never send an image write outside the mirrored RAM or outside memory. */
  lemma StoreTargetsInRange(x: nat)
    requires x < MemSize
    ensures forall t :: StoreTarget(x, t) ==> 0 <= t < MemSize
    ensures forall t :: StoreTarget(x, t) && t != x ==> 0x2000 <= t < 0x4000
  {
  }

  /** A store keeps the images equal. */
  lemma StoreKeepsMirrored(m: seq<bv8>, attr: seq<int>, x: nat, y: bv8)
    requires |m| == MemSize && |attr| == 8 && x < MemSize && Mirrored(m)
    ensures Mirrored(Stored(m, attr, x, y))
  {
    var m' := Stored(m, attr, x, y);
    if attr[Page(x)] != 0 {
      forall a | 0x2000 <= a < 0x2400
        ensures m'[a] == m'[a + 0x400]
      {
        assert StoreTarget(x, a) <==> StoreTarget(x, a + 0x400);
      }
      forall a | 0x2800 <= a < 0x2c00
        ensures m'[a] == m'[a + 0x400]
      {
        assert StoreTarget(x, a) <==> StoreTarget(x, a + 0x400);
      }
      forall a | 0x3000 <= a < 0x3400
        ensures m'[a] == m'[a + 0x400] && m'[a] == m'[a + 0x800] && m'[a] == m'[a + 0xc00]
      {
        assert StoreTarget(x, a) <==> StoreTarget(x, a + 0x400);
        assert StoreTarget(x, a) <==> StoreTarget(x, a + 0x800);
        assert StoreTarget(x, a) <==> StoreTarget(x, a + 0xc00);
      }
    }
  }

  /** The word read at x is the pair of the bytes at x and x + 1. */
  lemma Fetch2OfBytes(m: seq<bv8>, x: nat, hi: bv8, lo: bv8)
    requires |m| == MemSize
    requires m[x % MemSize] == lo && m[(x + 1) % MemSize] == hi
    ensures Fetch2(m, x) == Pair(hi, lo)
  {
    assert Fetch(m, x) == lo && Fetch(m, x + 1) == hi;
  }

  /** The two byte stores of a 16-bit store leave the low byte at x and the high byte after it. */
  lemma StoredWordBytes(m: seq<bv8>, attr: seq<int>, x: nat, v: bv16)
    requires |m| == MemSize && |attr| == 8 && x < MemSize
    requires attr[Page(x)] != 0 && attr[Page((x + 1) % MemSize)] != 0
    ensures StoredWord(m, attr, x, v)[x] == Low(v)
    ensures StoredWord(m, attr, x, v)[(x + 1) % MemSize] == High(v)
  {
    var m1 := Stored(m, attr, x, Low(v));
    var x1 := (x + 1) % MemSize;
    assert x1 == if x == 0xffff then 0 else x + 1;
    StoreReadsBack(m, attr, x, Low(v));
    StoreReadsBack(m1, attr, x1, High(v));
    assert !StoreTarget(x1, x);
  }

  /** A 16-bit store made of two byte stores reads back as the word when both banks are writable. */
  lemma StoredWordReadsBack(m: seq<bv8>, attr: seq<int>, x: nat, v: bv16)
    requires |m| == MemSize && |attr| == 8 && x < MemSize
    requires attr[Page(x)] != 0 && attr[Page((x + 1) % MemSize)] != 0
    ensures Fetch2(StoredWord(m, attr, x, v), x) == v
  {
    StoredWordBytes(m, attr, x, v);
    assert x % MemSize == x;
    Fetch2OfBytes(StoredWord(m, attr, x, v), x, High(v), Low(v));
    PairSplit(v);
  }

  /** With the default bank table, a word stored anywhere in RAM below 0xFFFF reads back. */
  lemma StoredWordReadsBackInRam(m: seq<bv8>, x: nat, v: bv16)
    requires |m| == MemSize && 0x2000 <= x < 0xffff
    ensures Fetch2(StoredWord(m, MemAttr, x, v), x) == v
  {
    RomIsReadOnly(x);
    RomIsReadOnly(x + 1);
    StoredWordReadsBack(m, MemAttr, x, v);
  }

  /** A 16-bit store made of two byte stores keeps the images equal. */
  lemma StoredWordKeepsMirrored(m: seq<bv8>, attr: seq<int>, x: nat, v: bv16)
    requires |m| == MemSize && |attr| == 8 && x < MemSize && Mirrored(m)
    ensures Mirrored(StoredWord(m, attr, x, v))
  {
    StoreKeepsMirrored(m, attr, x, Low(v));
    StoreKeepsMirrored(Stored(m, attr, x, Low(v)), attr, (x + 1) % MemSize, High(v));
  }

  /** With x's bank writable, `store2b` puts lo at x and hi right after it. */
  lemma Stored2bBytes(m: seq<bv8>, attr: seq<int>, x: nat, hi: bv8, lo: bv8)
    requires |m| == MemSize && |attr| == 8 && x < 0xffff && attr[Page(x)] != 0
    ensures Stored2b(m, attr, x, hi, lo)[x] == lo && Stored2b(m, attr, x, hi, lo)[x + 1] == hi
  {
    assert !StoreTarget(x, x + 1) && StoreTarget(x, x);
  }

  /** With x's bank writable, `store2b` writes the word x reads back. */
  lemma Stored2bReadsBack(m: seq<bv8>, attr: seq<int>, x: nat, hi: bv8, lo: bv8)
    requires |m| == MemSize && |attr| == 8 && x < 0xffff && attr[Page(x)] != 0
    ensures Fetch2(Stored2b(m, attr, x, hi, lo), x) == Pair(hi, lo)
  {
    Stored2bBytes(m, attr, x, hi, lo);
    assert x % MemSize == x && (x + 1) % MemSize == x + 1;
    Fetch2OfBytes(Stored2b(m, attr, x, hi, lo), x, hi, lo);
  }

  /**
   * As written, `store2b` consults only x's bank: a word stored at 0x1FFF
   * (last ROM byte) drops its high byte although 0x2000 is RAM.
   */
  lemma Stored2bIgnoresSecondBank(m: seq<bv8>)
    requires |m| == MemSize
    ensures Stored2b(m, MemAttr, 0x1fff, 0xab, 0xcd) == m
    ensures Stored(m, MemAttr, 0x2000, 0xab)[0x2000] == 0xab
  {
  }

  /**
   * As written, `store2b` picks the images from x's range alone: a word
   * written at 0x23FF puts its high byte at 0x2400 without copying it to
   * 0x2000, so an all-zero (hence mirrored) memory stops being mirrored.
   */
  lemma Stored2bBreaksMirror()
    ensures Mirrored(seq(MemSize, _ => 0 as bv8))
    ensures !Mirrored(Stored2b(seq(MemSize, _ => 0 as bv8), MemAttr, 0x23ff, 0xab, 0xcd))
  {
    var m' := Stored2b(seq(MemSize, _ => 0 as bv8), MemAttr, 0x23ff, 0xab, 0xcd);
    assert !StoreTarget(0x23ff, 0x2400) && StoreTarget(0x23ff, 0x23ff);
    assert m'[0x2400] == 0xab;
    assert !StoreTarget(0x23ff, 0x2000) && !StoreTarget(0x23ff, 0x1fff);
    assert m'[0x2000] == 0;
  }

  /**
   * A word store at x straddles the end of a 1 KiB image when x is the last
   * byte of one (0x1FFF, the byte below the mirrored RAM, counts as well): its
   * high byte then leaves the region whose images `store2b` chose.
   */
  predicate StraddlesImage(x: nat)
  {
    0x1fff <= x < 0x4000 && x % 0x400 == 0x3ff
  }

  /** Two addresses that agree before a `store2b` and are hit alike by it agree after it. */
  lemma Stored2bPairs(m: seq<bv8>, attr: seq<int>, x: nat, hi: bv8, lo: bv8, a: nat, b: nat)
    requires |m| == MemSize && |attr| == 8 && 1 <= a < b < MemSize && m[a] == m[b]
    requires StoreTarget(x, a) <==> StoreTarget(x, b)
    requires StoreTarget(x, a - 1) <==> StoreTarget(x, b - 1)
    ensures Stored2b(m, attr, x, hi, lo)[a] == Stored2b(m, attr, x, hi, lo)[b]
  {
  }

  /** Away from the ends of the images, an address and its twin 0x400 above are hit alike. */
  lemma TwinTargets(x: nat, a: nat)
    requires !StraddlesImage(x) && ((0x2000 <= a < 0x2400) || (0x2800 <= a < 0x2c00))
    ensures StoreTarget(x, a) <==> StoreTarget(x, a + 0x400)
    ensures StoreTarget(x, a - 1) <==> StoreTarget(x, a + 0x3ff)
  {
  }

  /** Away from the ends of the images, the four character-RAM images are hit alike. */
  lemma QuadTargets(x: nat, a: nat, d: nat)
    requires !StraddlesImage(x) && 0x3000 <= a < 0x3400 && (d == 0x400 || d == 0x800 || d == 0xc00)
    ensures StoreTarget(x, a) <==> StoreTarget(x, a + d)
    ensures StoreTarget(x, a - 1) <==> StoreTarget(x, a + d - 1)
  {
  }

  /** Away from the ends of the images, `store2b` as written keeps the images equal. */
  lemma Stored2bKeepsMirrored(m: seq<bv8>, attr: seq<int>, x: nat, hi: bv8, lo: bv8)
    requires |m| == MemSize && |attr| == 8 && x < MemSize && Mirrored(m) && !StraddlesImage(x)
    ensures Mirrored(Stored2b(m, attr, x, hi, lo))
  {
    var m' := Stored2b(m, attr, x, hi, lo);
    forall a | 0x2000 <= a < 0x2400
      ensures m'[a] == m'[a + 0x400]
    {
      Stored2bKeepsTwin(m, attr, x, hi, lo, a);
    }
    forall a | 0x2800 <= a < 0x2c00
      ensures m'[a] == m'[a + 0x400]
    {
      Stored2bKeepsTwin(m, attr, x, hi, lo, a);
    }
    forall a | 0x3000 <= a < 0x3400
      ensures m'[a] == m'[a + 0x400] && m'[a] == m'[a + 0x800] && m'[a] == m'[a + 0xc00]
    {
      Stored2bKeepsQuad(m, attr, x, hi, lo, a, 0x400);
      Stored2bKeepsQuad(m, attr, x, hi, lo, a, 0x800);
      Stored2bKeepsQuad(m, attr, x, hi, lo, a, 0xc00);
    }
  }

  lemma Stored2bKeepsTwin(m: seq<bv8>, attr: seq<int>, x: nat, hi: bv8, lo: bv8, a: nat)
    requires |m| == MemSize && |attr| == 8 && Mirrored(m) && !StraddlesImage(x)
    requires 0x2000 <= a < 0x2400 || 0x2800 <= a < 0x2c00
    ensures Stored2b(m, attr, x, hi, lo)[a] == Stored2b(m, attr, x, hi, lo)[a + 0x400]
  {
    TwinTargets(x, a);
    Stored2bPairs(m, attr, x, hi, lo, a, a + 0x400);
  }

  lemma Stored2bKeepsQuad(m: seq<bv8>, attr: seq<int>, x: nat, hi: bv8, lo: bv8, a: nat, d: nat)
    requires |m| == MemSize && |attr| == 8 && Mirrored(m) && !StraddlesImage(x)
    requires 0x3000 <= a < 0x3400 && (d == 0x400 || d == 0x800 || d == 0xc00)
    ensures Stored2b(m, attr, x, hi, lo)[a] == Stored2b(m, attr, x, hi, lo)[a + d]
  {
    QuadTargets(x, a, d);
    Stored2bPairs(m, attr, x, hi, lo, a, a + d);
  }

  /** At 0xFFFF only the low byte lands in `mem`; the macro's high byte would fall past its end. */
  lemma Stored2bAtTop(m: seq<bv8>, attr: seq<int>, hi: bv8, lo: bv8)
    requires |m| == MemSize && |attr| == 8
    ensures Stored2b(m, attr, 0xffff, hi, lo) == Stored(m, attr, 0xffff, lo)
  {
  }

  /** The memory after F12's `memset(mem + 8192, 0xff, 57344)`. */
  function RamFilled(m: seq<bv8>): (m': seq<bv8>)
    requires |m| == MemSize
    ensures |m'| == MemSize
  {
    seq(MemSize, i requires 0 <= i < MemSize => if i < 0x2000 then m[i] else 0xff)
  }

  /** Filling the RAM keeps the ROM, sets every other byte to 0xFF and leaves the images equal. */
  lemma RamFilledCorrect(m: seq<bv8>)
    requires |m| == MemSize
    ensures RamFilled(m)[..0x2000] == m[..0x2000]
    ensures forall i :: 0x2000 <= i < MemSize ==> RamFilled(m)[i] == 0xff
    ensures Mirrored(RamFilled(m))
  {
  }

  /** The emulator's `mem` array seen through its bank table and attribute table. */
  class Memory {
    const mem: array<bv8>
    const attr: seq<int>

    ghost predicate Valid()
      reads this
    {
      mem.Length == MemSize && |attr| == 8
    }

    /** A zeroed 64 KiB array with the default bank attributes. */
    constructor ()
      ensures Valid() && fresh(mem) && attr == MemAttr
      ensures mem[..] == seq(MemSize, _ => 0 as bv8)
    {
      mem := new bv8[MemSize](_ => 0);
      attr := MemAttr;
    }

    /** `store(x, y)` / `storefunc(ad, b)`. */
    method Store(x: nat, y: bv8)
      requires Valid() && x < MemSize
      modifies mem
      ensures mem[..] == Stored(old(mem[..]), attr, x, y)
    {
      var off := Offset(x);
      var page := Page(x);
      var base := MemPtr[page];
      BankIdentity(x);
      if attr[page] != 0 {
        StoredUpdates(mem[..], attr, x, y);
        mem[base + off] := y;
        if InPairLow(x) {
          mem[base + off + 0x400] := y;
        } else if InPairHigh(x) {
          mem[base + off - 0x400] := y;
        } else if InQuad(x) {
          var k := x % 0x400;
          mem[base + k + 0x1000] := y;
          mem[base + k + 0x1400] := y;
          mem[base + k + 0x1800] := y;
          mem[base + k + 0x1c00] := y;
        }
      }
    }

    /** `store2b(x, hi, lo)` / `store2func(ad, b1, b2)` as written; at x = 0xFFFF it would index past `mem`. */
    method Store2b(x: nat, hi: bv8, lo: bv8)
      requires Valid() && x < 0xffff
      modifies mem
      ensures mem[..] == Stored2b(old(mem[..]), attr, x, hi, lo)
    {
      var off := Offset(x);
      var page := Page(x);
      var base := MemPtr[page];
      BankIdentity(x);
      if attr[page] != 0 {
        Stored2bUpdates(mem[..], attr, x, hi, lo);
        mem[base + off] := lo;
        mem[base + off + 1] := hi;
        if InPairLow(x) {
          mem[base + off + 0x400] := lo;
          mem[base + off + 0x401] := hi;
        } else if InPairHigh(x) {
          mem[base + off - 0x400] := lo;
          mem[base + off - 0x3ff] := hi;
        } else if InQuad(x) {
          StoreQuadImages2b(x % 0x400, hi, lo);
        }
      }
    }

    /** The eight writes `store2b` makes into the four character-RAM images at offset k. */
    method StoreQuadImages2b(k: nat, hi: bv8, lo: bv8)
      requires Valid() && k < 0x400
      modifies mem
      ensures mem[..] == old(mem[..])[0x3000 + k := lo][0x3001 + k := hi][0x3400 + k := lo][0x3401 + k := hi]
        [0x3800 + k := lo][0x3801 + k := hi][0x3c00 + k := lo][0x3c01 + k := hi]
    {
      mem[0x3000 + k] := lo;
      mem[0x3001 + k] := hi;
      mem[0x3400 + k] := lo;
      mem[0x3401 + k] := hi;
      mem[0x3800 + k] := lo;
      mem[0x3801 + k] := hi;
      mem[0x3c00 + k] := lo;
      mem[0x3c01 + k] := hi;
    }

    /**
     * `store2(x, v)` as written: `store2b(x, v >> 8, v & 255)`.  At x = 0xFFFF
     * the macro's high byte would land one past `mem`; here it is dropped.
     */
    method Store2(x: nat, v: bv16)
      requires Valid() && x < MemSize
      modifies mem
      ensures mem[..] == Stored2b(old(mem[..]), attr, x, High(v), Low(v))
    {
      if x == 0xffff {
        Stored2bAtTop(mem[..], attr, High(v), Low(v));
        Store(x, Low(v));
      } else {
        Store2b(x, High(v), Low(v));
      }
    }

    /** A 16-bit store as two byte stores; the address of the high byte wraps to 0 above 0xFFFF. */
    method StoreWord(x: nat, v: bv16)
      requires Valid() && x < MemSize
      modifies mem
      ensures mem[..] == StoredWord(old(mem[..]), attr, x, v)
    {
      Store(x, Low(v));
      Store((x + 1) % MemSize, High(v));
    }

    /** F12: `memset(mem + 8192, 0xff, 57344)`. */
    method FillRam()
      requires Valid()
      modifies mem
      ensures mem[..] == RamFilled(old(mem[..]))
    {
      forall i | 0x2000 <= i < MemSize {
        mem[i] := 0xff;
      }
    }
  }
}
