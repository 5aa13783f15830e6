/**
 * The tape interface of the Jupiter Ace emulator (src/tape.c).
 *
 * The ROM's LOAD and SAVE routines are patched to trap into LoadP and SaveP.
 * A tape image file holds blocks laid out as [size low, size high, data...,
 * checksum], where size counts the data bytes and the checksum byte. A file on
 * tape is a header block followed by a data block. When no tape image is
 * attached, loading reads a built-in "empty tape" whose one file is called
 * "other": a small dictionary or a small screen saying that the wanted file
 * could not be loaded.
 *
 * A stdio stream is modelled as a TapeFile value (its bytes, its position and
 * its end-of-file indicator); the statics of the C file are the fields of the
 * class TapeDeck, whose methods are proved against the step functions
 * LoadStep and SaveStep.
 */
module Tape {
  import opened Optional
  import opened AceMemory

  /** TAPE_MAX_OBSERVERS: the number of observers the deck can hold. */
  const MaxObservers: nat := 10

  // ---------------------------------------------------------------- words

  /** A byte of memory or of a tape image. */
  type Byte = b: int | 0 <= b < 256

  /** `low_byte`: the low eight bits of a word. */
  function LowByte(w: int): Byte { w % 256 }

  /** `high_byte`: the word shifted right by eight, truncated to an unsigned char. */
  function HighByte(w: int): Byte { (w / 256) % 256 }

  /** The block size a loader reads from a low and a high byte. */
  function SizeOf(lo: int, hi: int): int { lo + hi * 256 }

  /** The two bytes of a 16-bit size give the size back. */
  lemma WordBytes(w: int)
    requires 0 <= w < 0x10000
    ensures SizeOf(LowByte(w), HighByte(w)) == w
  {
  }

  // ------------------------------------------------------------- checksum

  /** Bitwise exclusive or of two naturals, one bit at a time. */
  function Xor(a: nat, b: nat): nat
    decreases a + b
  {
    if a == 0 then b else if b == 0 then a
    else 2 * Xor(a / 2, b / 2) + (if a % 2 == b % 2 then 0 else 1)
  }

  function Pow2(k: nat): nat { if k == 0 then 1 else 2 * Pow2(k - 1) }

  lemma {:induction false} XorZero(a: nat)
    ensures Xor(a, 0) == a && Xor(0, a) == a
  {}

  lemma {:induction false} XorSelf(a: nat)
    ensures Xor(a, a) == 0
    decreases a
  {
    if a != 0 { XorSelf(a / 2); }
  }

  /** The XOR of two k-bit numbers is a k-bit number, so bytes XOR to a byte. */
  lemma {:induction false} XorBelow(a: nat, b: nat, k: nat)
    requires a < Pow2(k) && b < Pow2(k)
    ensures Xor(a, b) < Pow2(k)
    decreases a + b
  {
    if a != 0 && b != 0 { XorBelow(a / 2, b / 2, k - 1); }
  }

  lemma {:induction false} XorHalves(a: nat, b: nat)
    ensures Xor(a, b) / 2 == Xor(a / 2, b / 2)
    ensures Xor(a, b) % 2 == (if a % 2 == b % 2 then 0 else 1)
  {
    if a == 0 { XorZero(b); XorZero(b / 2); } else if b == 0 { XorZero(a); XorZero(a / 2); }
  }

  lemma {:induction false} XorAssociates(a: nat, b: nat, c: nat)
    ensures Xor(Xor(a, b), c) == Xor(a, Xor(b, c))
    decreases a + b + c
  {
    if a == 0 {
      XorZero(b); XorZero(Xor(b, c));
    } else if b == 0 {
      XorZero(a); XorZero(c);
    } else if c == 0 {
      XorZero(Xor(a, b)); XorZero(b);
    } else {
      XorAssociates(a / 2, b / 2, c / 2);
      XorHalves(a, b); XorHalves(Xor(a, b), c); XorHalves(b, c); XorHalves(a, Xor(b, c));
      var l := Xor(Xor(a, b), c);
      var r := Xor(a, Xor(b, c));
      assert l / 2 == r / 2 && l % 2 == r % 2;
    }
  }

  /** The XOR of two bytes, as C computes `checksum ^= data[i]` on chars. */
  function XorByte(a: Byte, b: Byte): Byte
  {
    XorBelow(a, b, 8);
    Xor(a, b)
  }

  /** The XOR of every byte of the data, as `tape_calc_checksum` computes it. */
  function Checksum(data: seq<Byte>): Byte
  {
    if |data| == 0 then 0 else XorByte(Checksum(data[..|data| - 1]), data[|data| - 1])
  }

  /** `tape_calc_checksum`: XOR every byte of the data into the checksum. */
  method CalcChecksum(data: seq<Byte>) returns (checksum: Byte)
    ensures checksum == Checksum(data)
  {
    checksum := 0;
    var i := 0;
    while i < |data|
      invariant 0 <= i <= |data|
      invariant checksum == Checksum(data[..i])
    {
      assert data[..i + 1][..i] == data[..i];
      checksum := XorByte(checksum, data[i]);
      i := i + 1;
    }
    assert data[..i] == data;
  }

  /** The checksum of two pieces is the XOR of their checksums. */
  lemma {:induction false} ChecksumAppend(a: seq<Byte>, b: seq<Byte>)
    ensures Checksum(a + b) == XorByte(Checksum(a), Checksum(b))
    decreases |b|
  {
    if |b| == 0 {
      assert a + b == a;
      XorZero(Checksum(a));
    } else {
      var b' := b[..|b| - 1];
      assert (a + b)[..|a + b| - 1] == a + b';
      ChecksumAppend(a, b');
      XorAssociates(Checksum(a), Checksum(b'), b[|b| - 1]);
    }
  }

  /** A block followed by its checksum XORs to zero, which is how a loader can check it. */
  lemma ChecksumCancels(data: seq<Byte>)
    ensures Checksum(data + [Checksum(data)]) == 0
  {
    assert (data + [Checksum(data)])[..|data|] == data;
    XorSelf(Checksum(data));
  }

  /** The bytes `tape_save_block` writes for a block: size, data, checksum. */
  function BlockBytes(block: seq<Byte>): seq<Byte>
  {
    [LowByte(|block| + 1), HighByte(|block| + 1)] + block + [Checksum(block)]
  }

  /** A saved block is n+3 bytes; its size field counts the data and the checksum. */
  lemma BlockLayout(block: seq<Byte>)
    requires |block| + 1 < 0x10000
    ensures |BlockBytes(block)| == |block| + 3
    ensures SizeOf(BlockBytes(block)[0], BlockBytes(block)[1]) == |block| + 1
    ensures BlockBytes(block)[2..|block| + 2] == block
    ensures BlockBytes(block)[|block| + 2] == Checksum(block)
    ensures Checksum(BlockBytes(block)[2..]) == 0
  {
    WordBytes(|block| + 1);
    assert BlockBytes(block)[2..] == block + [Checksum(block)];
    ChecksumCancels(block);
  }

  // ---------------------------------------------------------- stdio files

  /** A tape image opened with stdio: its bytes, the position and the end-of-file indicator. */
  datatype TapeFile = TapeFile(data: seq<Byte>, pos: nat, eof: bool)

  /** The number of bytes between the position and the end of the file. */
  function Available(f: TapeFile): nat
  {
    if f.pos < |f.data| then |f.data| - f.pos else 0
  }

  /** `fgetc`: the next byte as 0..255, or -1 (EOF), which sets the indicator. */
  function GetC(f: TapeFile): (int, TapeFile)
  {
    if f.pos < |f.data| then var c: int := f.data[f.pos]; (c, f.(pos := f.pos + 1))
    else (-1, f.(eof := true))
  }

  /**
   * `fread` of `count` bytes: as many as are left; a short read (or a
   * negative count, which the C conversion to size_t makes huge) sets the
   * indicator.
   */
  function ReadBytes(f: TapeFile, count: int): (seq<Byte>, TapeFile)
  {
    var whole := 0 <= count <= Available(f);
    var n := if whole then count else Available(f);
    (if n == 0 then [] else f.data[f.pos..f.pos + n], f.(pos := f.pos + n, eof := f.eof || !whole))
  }

  /** `fseek(fp, offset, SEEK_CUR)`: fails on a negative target, otherwise clears the indicator. */
  function Seek(f: TapeFile, offset: int): TapeFile
  {
    if f.pos + offset < 0 then f else f.(pos := f.pos + offset, eof := false)
  }

  /** `fseek(fp, 0, SEEK_SET)`. */
  function Rewound(f: TapeFile): TapeFile
  {
    f.(pos := 0, eof := false)
  }

  /**
   * `fputc`/`fwrite` at the position: the bytes replace what is there or
   * extend the file (a gap before the position reads as zeros).
   */
  function Written(f: TapeFile, bytes: seq<Byte>): TapeFile
  {
    f.(data := seq(Max(f.pos + |bytes|, |f.data|), i requires 0 <= i < Max(f.pos + |bytes|, |f.data|) =>
                     if f.pos <= i < f.pos + |bytes| then bytes[i - f.pos]
                     else if i < |f.data| then f.data[i] else 0),
       pos := f.pos + |bytes|)
  }

  function Max(a: int, b: int): int { if a < b then b else a }

  /** `ftruncate(fileno(fp), ftell(fp))`: the file ends at the position. */
  function Truncated(f: TapeFile): TapeFile
  {
    f.(data := seq(f.pos, i requires 0 <= i < f.pos => if i < |f.data| then f.data[i] else 0))
  }

  /** Bytes written one piece after another land as if written together. */
  lemma WrittenTwice(f: TapeFile, a: seq<Byte>, b: seq<Byte>)
    ensures Written(Written(f, a), b) == Written(f, a + b)
  {
    var g := Written(Written(f, a), b);
    var h := Written(f, a + b);
    assert |g.data| == |h.data|;
    forall i | 0 <= i < |g.data|
      ensures g.data[i] == h.data[i]
    {
      if f.pos + |a| <= i < f.pos + |a| + |b| {
        assert (a + b)[i - f.pos] == b[i - f.pos - |a|];
      }
    }
    assert g.data == h.data;
  }

  /** The four writes of `tape_save_block` land as the block's bytes written together. */
  lemma WrittenInPieces(f: TapeFile, lo: Byte, hi: Byte, block: seq<Byte>, c: Byte)
    ensures Written(Written(Written(Written(f, [lo]), [hi]), block), [c]) == Written(f, [lo, hi] + block + [c])
  {
    WrittenTwice(f, [lo], [hi]);
    assert [lo] + [hi] == [lo, hi];
    WrittenTwice(f, [lo, hi], block);
    WrittenTwice(f, [lo, hi] + block, [c]);
  }

  /** Writing at a position inside the file keeps what precedes it and reads back the bytes. */
  lemma WrittenLayout(f: TapeFile, bytes: seq<Byte>)
    requires f.pos <= |f.data|
    ensures Written(f, bytes).pos == f.pos + |bytes|
    ensures Written(f, bytes).data[..f.pos] == f.data[..f.pos]
    ensures Written(f, bytes).data[f.pos..f.pos + |bytes|] == bytes
    ensures Truncated(f).data == f.data[..f.pos]
    ensures Written(Truncated(f), bytes).data == f.data[..f.pos] + bytes
  {
  }

  // ---------------------------------------------------------- memory copy

  /** Memory after `memcpy`/`fread` of bytes to `dest` (bytes past the end of memory are dropped). */
  function Copied(m: seq<Byte>, dest: nat, bytes: seq<Byte>): seq<Byte>
  {
    seq(|m|, i requires 0 <= i < |m| => if dest <= i < dest + |bytes| then bytes[i - dest] else m[i])
  }

  /** The copy lands at `dest` and nothing else changes. */
  lemma CopiedLayout(m: seq<Byte>, dest: nat, bytes: seq<Byte>)
    requires dest + |bytes| <= |m|
    ensures |Copied(m, dest, bytes)| == |m|
    ensures Copied(m, dest, bytes)[dest..dest + |bytes|] == bytes
    ensures Copied(m, dest, bytes)[..dest] == m[..dest]
    ensures Copied(m, dest, bytes)[dest + |bytes|..] == m[dest + |bytes|..]
  {
  }

  /** The copy the C code performs by `memcpy` or `fread`, one byte at a time. */
  method CopyInto(mem: array<Byte>, dest: nat, bytes: seq<Byte>)
    modifies mem
    ensures mem[..] == Copied(old(mem[..]), dest, bytes)
  {
    var i := 0;
    while i < |bytes|
      invariant 0 <= i <= |bytes|
      invariant forall j :: 0 <= j < mem.Length ==>
                  mem[j] == (if dest <= j < dest + i then bytes[j - dest] else old(mem[j]))
    {
      if dest + i < mem.Length {
        mem[dest + i] := bytes[i];
      }
      i := i + 1;
    }
    assert mem[..] == Copied(old(mem[..]), dest, bytes);
  }

  // ----------------------------------------------------------- file blocks

  datatype Loaded = Loaded(file: TapeFile, mem: seq<Byte>)

  /**
   * `tape_load_block` from a file: the size, then size-1 data bytes into
   * memory, then the checksum is skipped. At end of tape nothing is copied.
   */
  function FileBlockLoaded(f: TapeFile, m: seq<Byte>, dest: nat): Loaded
  {
    var lo := GetC(f);
    if lo.1.eof then Loaded(lo.1, m)
    else
      var hi := GetC(lo.1);
      var data := ReadBytes(hi.1, SizeOf(lo.0, hi.0) - 1);
      Loaded(GetC(data.1).1, Copied(m, dest, data.0))
  }

  /** `tape_skip_block` on a file: read the size and seek past that many bytes. */
  function FileBlockSkipped(f: TapeFile): TapeFile
  {
    var lo := GetC(f);
    var hi := GetC(lo.1);
    Seek(hi.1, SizeOf(lo.0, hi.0))
  }

  /** The file holds `block`, size field and checksum included, at its position. */
  predicate HoldsBlock(f: TapeFile, block: seq<Byte>)
  {
    f.pos + |block| + 3 <= |f.data| && f.data[f.pos..f.pos + |block| + 3] == BlockBytes(block)
  }

  /** A well-formed block at the position loads its data and leaves the position after it. */
  lemma LoadsBlockAt(f: TapeFile, block: seq<Byte>, m: seq<Byte>, dest: nat)
    requires !f.eof && |block| + 1 < 0x10000
    requires HoldsBlock(f, block)
    ensures FileBlockLoaded(f, m, dest) == Loaded(f.(pos := f.pos + |block| + 3), Copied(m, dest, block))
  {
    var p := f.pos;
    BlockFields(f.data, p, block);
    var lo := GetC(f);
    assert lo == (LowByte(|block| + 1), f.(pos := p + 1));
    var hi := GetC(lo.1);
    assert hi == (HighByte(|block| + 1), f.(pos := p + 2));
    WordBytes(|block| + 1);
    var data := ReadBytes(hi.1, |block|);
    assert data == (block, f.(pos := p + 2 + |block|));
    assert GetC(data.1).1 == f.(pos := p + |block| + 3);
  }

  /** The fields of a block stored in a byte sequence at `p`. */
  lemma BlockFields(data: seq<Byte>, p: nat, block: seq<Byte>)
    requires p + |block| + 3 <= |data| && data[p..p + |block| + 3] == BlockBytes(block)
    ensures data[p] == LowByte(|block| + 1) && data[p + 1] == HighByte(|block| + 1)
    ensures data[p + 2..p + 2 + |block|] == block
  {
    var bb := BlockBytes(block);
    assert data[p] == data[p..p + |block| + 3][0] == bb[0];
    assert data[p + 1] == data[p..p + |block| + 3][1] == bb[1];
    forall i | 0 <= i < |block|
      ensures data[p + 2 + i] == block[i]
    {
      assert data[p + 2 + i] == data[p..p + |block| + 3][2 + i] == bb[2 + i];
    }
  }

  /** Skipping a well-formed block moves past its n+3 bytes. */
  lemma SkipsBlockAt(f: TapeFile, block: seq<Byte>)
    requires |block| + 1 < 0x10000
    requires HoldsBlock(f, block)
    ensures FileBlockSkipped(f) == f.(pos := f.pos + |block| + 3, eof := false)
  {
    BlockFields(f.data, f.pos, block);
    WordBytes(|block| + 1);
  }

  /** Where a block written at the position lands in the file. */
  lemma WrittenBlock(f: TapeFile, block: seq<Byte>)
    requires f.pos <= |f.data|
    ensures var g := Written(f, BlockBytes(block));
            |g.data| >= f.pos + |block| + 3 && g.pos == f.pos + |block| + 3 && g.eof == f.eof &&
            g.data[f.pos..f.pos + |block| + 3] == BlockBytes(block)
  {
    WrittenLayout(f, BlockBytes(block));
  }

  /** Loading a block just saved copies exactly its data and moves past it. */
  lemma SaveThenLoad(f: TapeFile, block: seq<Byte>, m: seq<Byte>, dest: nat)
    requires f.pos <= |f.data| && !f.eof && |block| + 1 < 0x10000
    ensures var g := Written(f, BlockBytes(block));
            FileBlockLoaded(g.(pos := f.pos), m, dest) ==
            Loaded(g.(pos := f.pos + |block| + 3), Copied(m, dest, block))
  {
    WrittenBlock(f, block);
    LoadsBlockAt(Written(f, BlockBytes(block)).(pos := f.pos), block, m, dest);
  }

  /** Skipping a block just saved moves past exactly its n+3 bytes. */
  lemma SaveThenSkip(f: TapeFile, block: seq<Byte>)
    requires f.pos <= |f.data| && |block| + 1 < 0x10000
    ensures var g := Written(f, BlockBytes(block));
            FileBlockSkipped(g.(pos := f.pos)) == g.(pos := f.pos + |block| + 3, eof := false)
  {
    WrittenBlock(f, block);
    SkipsBlockAt(Written(f, BlockBytes(block)).(pos := f.pos), block);
  }

  // ----------------------------------------------------------- empty tape

  datatype EmptyKind = EmptyDict | EmptyBytes

  /** `empty_dict`: a header "other" and a 42-byte dictionary (and its checksum slot). */
  const DictTable: seq<Byte> :=
    [0x1a, 0x00, 0x00] + OtherName +
    [0x2a, 0x00, 0x51, 0x3c] + [0x58, 0x3c, 0x4c, 0x3c] + [0x4c, 0x3c, 0x4f, 0x3c] +
    [0x7b, 0x3c, 0x20] + [0x2b, 0x00, 0x52, 0x55] + [0xce, 0x27, 0x00, 0x49] +
    [0x3c, 0x03, 0xc3, 0x0e] + [0x1d, 0x0a, 0x96, 0x13] + [0x18, 0x00, 0x43, 0x6f] +
    [0x75, 0x6c, 0x64, 0x6e] + [0x27, 0x74, 0x20, 0x6c] + [0x6f, 0x61, 0x64, 0x20] +
    [0x79, 0x6f, 0x75, 0x72] + [0x20, 0x66, 0x69, 0x6c] + [0x65, 0x21, 0xb6, 0x04] +
    [0xff, 0x00]

  /** The initialised prefix of `empty_bytes`: a header "other" and the start of a screen. */
  const BytesListed: seq<Byte> :=
    [0x1a, 0x00, 0x20] + OtherName +
    [0x00, 0x03, 0x00] + [0x24, 0x20, 0x20, 0x20] + [0x20, 0x20, 0x20, 0x20] +
    [0x20, 0x20, 0x20, 0x20] + [0x01, 0x03, 0x43, 0x6f] + [0x75, 0x6c, 0x64, 0x6e] +
    [0x27, 0x74, 0x20, 0x6c] + [0x6f, 0x61, 0x64, 0x20] + [0x79, 0x6f, 0x75, 0x72] +
    [0x20, 0x66, 0x69, 0x6c] + [0x65, 0x21, 0x20]

  /** `empty_bytes[799]`: the listed bytes, then zeros (C's static initialisation). */
  const BytesTable: seq<Byte> := BytesListed + Zeros(799 - |BytesListed|)

  function Zeros(n: nat): (z: seq<Byte>)
    ensures |z| == n
  {
    seq(n, _ => 0)
  }

  function Table(k: EmptyKind): seq<Byte>
  {
    match k
    case EmptyDict => DictTable
    case EmptyBytes => BytesTable
  }

  /** The two empty tapes the deck can fall back on: a dictionary and a bytes table. */
  datatype EmptyTapes = EmptyTapes(dict: seq<Byte>, bytes: seq<Byte>)

  /** `empty_dict` and `empty_bytes`. */
  const BuiltInTapes := EmptyTapes(DictTable, BytesTable)

  function TapeOf(e: EmptyTapes, k: EmptyKind): seq<Byte>
  {
    match k
    case EmptyDict => e.dict
    case EmptyBytes => e.bytes
  }

  /** A table holding a 26-byte header block at 0 and a data block at 28 that ends at `end`. */
  predicate LaidOut(t: seq<Byte>, end: nat)
  {
    28 < end <= |t| && BlockFits(t, 0) && SizeAt(t, 0) == 26 && BlockFits(t, 28) && 30 + SizeAt(t, 28) == end
  }

  /** Both empty tapes are laid out as header and data blocks, ending where EmptyEnd says. */
  predicate TapesLaidOut(e: EmptyTapes)
  {
    LaidOut(e.dict, EmptyEnd(EmptyDict)) && LaidOut(e.bytes, EmptyEnd(EmptyBytes))
  }

  lemma BuiltInLaidOut()
    ensures TapesLaidOut(BuiltInTapes)
    ensures forall k :: TapeOf(BuiltInTapes, k) == Table(k)
  {
    TableLayout(EmptyDict);
    TableLayout(EmptyBytes);
  }

  /** The name field of both empty-tape headers: "other" padded with blanks. */
  const OtherName: seq<Byte> := [0x6f, 0x74, 0x68, 0x65, 0x72, 0x20, 0x20, 0x20, 0x20, 0x20]

  /** Where the empty-tape cursor ends after the header and the data block. */
  function EmptyEnd(k: EmptyKind): nat
  {
    match k
    case EmptyDict => 73
    case EmptyBytes => 799
  }

  /** The block size stored at `p` of an empty-tape table. */
  function SizeAt(t: seq<Byte>, p: nat): int
    requires p + 2 <= |t|
  {
    SizeOf(t[p], t[p + 1])
  }

  /** The block at `p`, with `size` bytes after its size field, lies inside the table. */
  predicate BlockFits(t: seq<Byte>, p: nat)
  {
    p + 2 <= |t| && 0 <= SizeAt(t, p) && p + 2 + SizeAt(t, p) <= |t|
  }

  /** Each table is a 26-byte header block at 0 and a data block at 28 that ends at EmptyEnd. */
  lemma TableLayout(k: EmptyKind)
    ensures EmptyEnd(k) <= |Table(k)| && 28 < EmptyEnd(k)
    ensures BlockFits(Table(k), 0) && SizeAt(Table(k), 0) == 26
    ensures BlockFits(Table(k), 28) && 30 + SizeAt(Table(k), 28) == EmptyEnd(k)
    ensures Table(k)[3..13] == OtherName
  {
    if k == EmptyBytes {
      BytesLayout();
    } else {
      DictLayout();
    }
  }

  lemma DictLayout()
    ensures |DictTable| == 74 && DictTable[3..13] == OtherName
    ensures DictTable[0] == 0x1a && DictTable[1] == 0x00
    ensures DictTable[28] == 0x2b && DictTable[29] == 0x00 && DictTable[72] == 0xff
  {
    assert |DictTable| == 74;
    assert DictTable[0] == 0x1a && DictTable[1] == 0x00;
    assert DictTable[28] == 0x2b && DictTable[29] == 0x00;
    assert DictTable[72] == 0xff;
    DictName();
  }

  lemma DictName()
    ensures DictTable[3..13] == OtherName
  {
    assert DictTable[..13] == [0x1a, 0x00, 0x00] + OtherName;
  }

  lemma BytesLayout()
    ensures |BytesTable| == 799 && BytesTable[3..13] == OtherName
    ensures BytesTable[0] == 0x1a && BytesTable[1] == 0x00
    ensures BytesTable[28] == 0x01 && BytesTable[29] == 0x03
  {
    assert BytesTable[..|BytesListed|] == BytesListed;
    assert BytesListed[3..13] == OtherName;
    assert BytesListed[0] == 0x1a && BytesListed[1] == 0x00;
    assert BytesListed[28] == 0x01 && BytesListed[29] == 0x03;
  }


  /**
   * `tape_load_empty_tape_block` as written: it copies `size` bytes, the
   * checksum slot included, where a file block yields `size - 1`.
   */
  function EmptyBlockLoadedAsWritten(t: seq<Byte>, p: nat, m: seq<Byte>, dest: nat): (r: (nat, seq<Byte>))
    requires BlockFits(t, p)
    ensures r.0 == p + 2 + SizeAt(t, p) && |r.1| == |m|
  {
    var size := SizeAt(t, p);
    (p + 2 + size, Copied(m, dest, t[p + 2..p + 2 + size]))
  }

  /** `tape_load_empty_tape_block` with the checksum slot left in the table, as a file block loads. */
  function EmptyBlockLoaded(t: seq<Byte>, p: nat, m: seq<Byte>, dest: nat): (r: (nat, seq<Byte>))
    requires BlockFits(t, p)
    ensures r.0 == p + 2 + SizeAt(t, p) && |r.1| == |m|
  {
    var size := SizeAt(t, p);
    var data := if size == 0 then [] else t[p + 2..p + 1 + size];
    (p + 2 + size, Copied(m, dest, data))
  }

  /**
   * As written, loading the empty dictionary's data block writes 43 bytes:
   * the byte after the 42-byte dictionary receives the checksum slot 0xff.
   */
  lemma EmptyDataOverrunsBlock(m: seq<Byte>, dest: nat)
    requires dest + 43 <= |m| && m[dest + 42] != 0xff
    ensures SizeAt(DictTable, 28) - 1 == 42
    ensures EmptyBlockLoadedAsWritten(DictTable, 28, m, dest).1[dest + 42] == 0xff
    ensures EmptyBlockLoadedAsWritten(DictTable, 28, m, dest).1 != EmptyBlockLoaded(DictTable, 28, m, dest).1
  {
    TableLayout(EmptyDict);
    DictLayout();
  }

  /** A corrected empty-tape load copies exactly the block's data, as a file block does. */
  lemma EmptyBlockLoadsData(t: seq<Byte>, p: nat, m: seq<Byte>, dest: nat)
    requires BlockFits(t, p) && 1 <= SizeAt(t, p) && dest + SizeAt(t, p) <= |m|
    ensures var size := SizeAt(t, p);
            var r := EmptyBlockLoaded(t, p, m, dest);
            r.1[dest..dest + size - 1] == t[p + 2..p + 1 + size] &&
            r.1[dest + size - 1..] == m[dest + size - 1..] && r.1[..dest] == m[..dest]
  {
    var size := SizeAt(t, p);
    CopiedLayout(m, dest, t[p + 2..p + 1 + size]);
  }

  // --------------------------------------------------------------- names

  /** `isspace` in the C locale. */
  predicate IsSpace(b: Byte)
  {
    b == 0x20 || (0x09 <= b <= 0x0d)
  }

  /** `tape_extract_filename`: ten characters, blanks turned into NULs, then a NUL. */
  function Extracted(m: seq<Byte>, at: nat): (name: seq<Byte>)
    requires at + 10 <= |m|
    ensures |name| == 11 && name[10] == 0
  {
    seq(11, i requires 0 <= i < 11 => if i == 10 || IsSpace(m[at + i]) then 0 else m[at + i])
  }

  /** The characters a C string holds: everything before its first NUL. */
  function CString(s: seq<Byte>): seq<Byte>
  {
    if |s| == 0 || s[0] == 0 then [] else [s[0]] + CString(s[1..])
  }

  /** A C string is a NUL-free prefix that stops at the first NUL. */
  lemma {:induction false} CStringPrefix(s: seq<Byte>)
    ensures |CString(s)| <= |s| && CString(s) == s[..|CString(s)|]
    ensures forall i :: 0 <= i < |CString(s)| ==> s[i] != 0
    ensures |CString(s)| < |s| ==> s[|CString(s)|] == 0
  {
    if |s| == 0 || s[0] == 0 {
    } else {
      CStringPrefix(s[1..]);
    }
  }

  /**
   * The name `strcmp` compares is the stored name up to its first blank or
   * NUL, at most ten characters.
   */
  lemma ExtractedName(m: seq<Byte>, at: nat)
    requires at + 10 <= |m|
    ensures var n := CString(Extracted(m, at));
            |n| <= 10 && n == m[at..at + |n|] &&
            (forall i :: 0 <= i < |n| ==> n[i] != 0 && !IsSpace(n[i])) &&
            (|n| < 10 ==> m[at + |n|] == 0 || IsSpace(m[at + |n|]))
  {
    var e := Extracted(m, at);
    CStringPrefix(e);
    var n := CString(e);
    assert |n| <= 10;
    forall i | 0 <= i < |n|
      ensures n[i] == m[at + i] && !IsSpace(n[i])
    {
      assert e[i] != 0;
    }
  }

  /** A string whose first NUL is at `n` holds the n characters before it. */
  lemma {:induction false} CStringStops(s: seq<Byte>, n: nat)
    requires n < |s| && s[n] == 0 && forall i :: 0 <= i < n ==> s[i] != 0
    ensures CString(s) == s[..n]
  {
    if n > 0 {
      CStringStops(s[1..], n - 1);
      assert s[..n] == [s[0]] + s[1..][..n - 1];
    }
  }

  /** The empty tape's only file is called "other". */
  lemma EmptyTapeIsOther(k: EmptyKind, m: seq<Byte>, dest: nat)
    requires dest + 26 <= |m|
    ensures BlockFits(Table(k), 0) &&
            CString(Extracted(EmptyBlockLoadedAsWritten(Table(k), 0, m, dest).1, dest + 1)) == OtherName[..5]
  {
    TableLayout(k);
    var t := Table(k);
    var m' := EmptyBlockLoadedAsWritten(t, 0, m, dest).1;
    assert m' == Copied(m, dest, t[2..28]);
    var e := Extracted(m', dest + 1);
    forall i | 0 <= i < 10
      ensures e[i] == (if i < 5 then OtherName[i] else 0)
    {
      assert t[2..28][i + 1] == t[3..13][i];
      assert m'[dest + 1 + i] == OtherName[i];
    }
    CStringStops(e, 5);
  }



  // -------------------------------------------------------------- the deck

  /** TapeMessageType: an ordinary message or an error. */
  datatype MessageType = Message | Error

  /** Which message observers receive (the file names inside the texts are not modelled). */
  datatype Reason =
    | Attached | CouldntCreate | Detached | EndOfTape | Searching | Skipping | Found
    | LoadComplete | NoTape | Saving | SaveComplete

  /** A notification: the message and, at that moment, whether a tape is attached and its position. */
  datatype Note = Note(kind: MessageType, reason: Reason, attached: bool, pos: int)

  /**
   * The statics of the tape code: the attached file, the empty-tape table and
   * cursor, and whether the next load and the next save handle a header.
   */
  datatype Deck = Deck(fp: Option<TapeFile>, emptyTape: Option<EmptyKind>, emptyPos: nat,
                       loadHeader: bool, saveHeader: bool, tapes: EmptyTapes)

  /** The deck before any tape call: no file, no empty tape chosen, both sides expecting a header. */
  const InitialDeck := Deck(None, None, 0, true, true, BuiltInTapes)

  /**
   * A data load always follows a header load, which chose an empty-tape
   * table; the empty-tape cursor sits at a block boundary of its table.
   */
  predicate DeckValid(d: Deck)
  {
    TapesLaidOut(d.tapes) &&
    (!d.loadHeader ==> d.emptyTape.Some?) &&
    (d.emptyTape.Some? ==> d.emptyPos == 0 || d.emptyPos == 28 || d.emptyPos == EmptyEnd(d.emptyTape.value))
  }

  /** `tape_notify_observers`: what the observers are told. */
  function NoteOf(d: Deck, kind: MessageType, reason: Reason): Note
  {
    Note(kind, reason, d.fp.Some?, if d.fp.Some? then d.fp.value.pos else d.emptyPos)
  }

  /** `tape_eof`: the file's end-of-file indicator, or the empty-tape cursor past the header. */
  predicate AtEof(d: Deck)
  {
    (d.fp.Some? && d.fp.value.eof) || (d.fp.None? && d.emptyPos > 28)
  }

  /** `tape_rewind_to_start`. */
  function RewoundDeck(d: Deck): Deck
  {
    if d.fp.Some? then d.(fp := Some(Rewound(d.fp.value))) else d.(emptyPos := 0)
  }

  /** `tape_attach_empty_tape`: load type 0 asks for a dictionary, anything else for bytes. */
  function WithEmptyTape(d: Deck, loadType: Byte): Deck
  {
    d.(emptyTape := Some(if loadType == 0 then EmptyDict else EmptyBytes), emptyPos := 0)
  }

  /** With no file attached, the empty-tape cursor is at the header or the data block of its table. */
  predicate CanRead(d: Deck)
  {
    TapesLaidOut(d.tapes) && (d.fp.None? ==> d.emptyTape.Some? && (d.emptyPos == 0 || d.emptyPos == 28))
  }

  datatype Step = Step(deck: Deck, mem: seq<Byte>)

  /** `tape_load_block`: from the file when one is attached, else from the empty tape. */
  function BlockLoaded(d: Deck, m: seq<Byte>, dest: nat): (r: Step)
    requires CanRead(d)
    ensures |r.mem| == |m| && r.deck.loadHeader == d.loadHeader && r.deck.fp.Some? == d.fp.Some?
    ensures r.deck.emptyTape == d.emptyTape
    ensures d.fp.None? ==> r.deck.emptyPos == (if d.emptyPos == 0 then 28 else EmptyEnd(d.emptyTape.value))
  {
    if d.fp.Some? then
      var l := FileBlockLoaded(d.fp.value, m, dest);
      Step(d.(fp := Some(l.file)), l.mem)
    else
      var r := EmptyBlockLoadedAsWritten(TapeOf(d.tapes, d.emptyTape.value), d.emptyPos, m, dest);
      Step(d.(emptyPos := r.0), r.1)
  }

  /** `tape_skip_block`: from the file when one is attached, else on the empty tape. */
  function BlockSkipped(d: Deck): (r: Deck)
    requires CanRead(d)
    ensures r.loadHeader == d.loadHeader && r.emptyTape == d.emptyTape && r.fp.Some? == d.fp.Some?
    ensures d.fp.None? ==> r.emptyPos == (if d.emptyPos == 0 then 28 else EmptyEnd(d.emptyTape.value))
  {
    if d.fp.Some? then d.(fp := Some(FileBlockSkipped(d.fp.value)))
    else
      d.(emptyPos := d.emptyPos + 2 + SizeAt(TapeOf(d.tapes, d.emptyTape.value), d.emptyPos))
  }

  datatype LoadOutcome = LoadOutcome(deck: Deck, mem: seq<Byte>, notes: seq<Note>)

  /**
   * `tape_load_p`: at the end of the tape, rewind and look for a header. In
   * header mode, choose the empty tape the ROM's load type asks for, load a
   * header block to `dest` and compare its name with the requested one at
   * 9986: on a mismatch skip the file's data block, on a match switch to data
   * mode. In data mode, load the data block and go back to header mode.
   */
  function LoadStep(d: Deck, m: seq<Byte>, dest: nat): LoadOutcome
    requires DeckValid(d) && |m| == MemSize && dest + 11 <= MemSize
  {
    var d1 := EofRewound(d);
    var r := LoadMode(d1, m, dest);
    r.(notes := EofNotes(d) + r.notes)
  }

  /** After the rewind, `tape_load_p` searches for a header or loads data, as the mode says. */
  function LoadMode(d: Deck, m: seq<Byte>, dest: nat): LoadOutcome
    requires TapesLaidOut(d.tapes) && (!d.loadHeader ==> CanRead(d))
    requires |m| == MemSize && dest + 11 <= MemSize
  {
    if d.loadHeader then HeaderSearch(d, m, dest) else DataLoad(d, m, dest)
  }

  /** The start of `tape_load_p`: at the end of the tape, rewind and look for a header again. */
  function EofRewound(d: Deck): Deck
  {
    if AtEof(d) then RewoundDeck(d).(loadHeader := true) else d
  }

  /** The end of the tape is reported before the rewind. */
  function EofNotes(d: Deck): seq<Note>
  {
    if AtEof(d) then [NoteOf(d, Message, EndOfTape)] else []
  }

  /** The header half of `tape_load_p`. */
  function HeaderSearch(d: Deck, m: seq<Byte>, dest: nat): LoadOutcome
    requires TapesLaidOut(d.tapes) && |m| == MemSize && dest + 11 <= MemSize
  {
    var d2 := WithEmptyTape(d, m[9985]);
    var r := HeaderMatched(d2, m, dest, Extracted(m, 9986));
    r.(notes := [NoteOf(d2, Message, Searching)] + r.notes)
  }

  /** Load a header block and compare its name with the requested one. */
  function HeaderMatched(d: Deck, m: seq<Byte>, dest: nat, requested: seq<Byte>): LoadOutcome
    requires CanRead(d) && (d.fp.None? ==> d.emptyPos == 0) && |m| == MemSize && dest + 11 <= MemSize
  {
    var l := BlockLoaded(d, m, dest);
    if CString(requested) != CString(Extracted(l.mem, dest + 1)) then
      var d3 := BlockSkipped(l.deck);
      LoadOutcome(d3, l.mem, [NoteOf(d3, Message, Skipping)])
    else
      var d3 := l.deck.(loadHeader := false);
      LoadOutcome(d3, l.mem, [NoteOf(d3, Message, Found)])
  }

  /** The data half of `tape_load_p`. */
  function DataLoad(d: Deck, m: seq<Byte>, dest: nat): LoadOutcome
    requires CanRead(d)
  {
    var l := BlockLoaded(d, m, dest);
    var d3 := l.deck.(loadHeader := true);
    LoadOutcome(d3, l.mem, [NoteOf(d3, Message, LoadComplete)])
  }

  /** Every load keeps the deck valid, so the empty tape is never read outside its table. */
  lemma LoadStepKeepsValid(d: Deck, m: seq<Byte>, dest: nat)
    requires DeckValid(d) && |m| == MemSize && dest + 11 <= MemSize
    ensures DeckValid(LoadStep(d, m, dest).deck) && |LoadStep(d, m, dest).mem| == |m|
  {
  }

  /**
   * Loads alternate: a data load happens only right after a header was
   * found, and is always followed by a header search; observers hear "found"
   * exactly when the deck switches to data mode.
   */
  lemma LoadStepAlternates(d: Deck, m: seq<Byte>, dest: nat)
    requires DeckValid(d) && |m| == MemSize && dest + 11 <= MemSize
    ensures var r := LoadStep(d, m, dest);
            (!d.loadHeader && !AtEof(d) ==> r.deck.loadHeader && r.notes[|r.notes| - 1].reason == LoadComplete) &&
            ((d.loadHeader || AtEof(d)) ==> (!r.deck.loadHeader <==> r.notes[|r.notes| - 1].reason == Found)) &&
            (AtEof(d) <==> r.notes[0].reason == EndOfTape)
  {
  }

  /**
   * A header search over a header block with the requested name loads the
   * header to `dest`, leaves the position after it and switches to data mode.
   */
  lemma HeaderSearchFinds(d: Deck, header: seq<Byte>, m: seq<Byte>, dest: nat)
    requires TapesLaidOut(d.tapes) && d.fp.Some? && !d.fp.value.eof
    requires 11 <= |header| < 0xffff
    requires HoldsBlock(d.fp.value, header)
    requires |m| == MemSize && dest + |header| <= MemSize
    requires CString(Extracted(m, 9986)) == CString(Extracted(header, 1))
    ensures var r := HeaderSearch(d, m, dest);
            !r.deck.loadHeader && r.mem == Copied(m, dest, header) && DeckValid(r.deck) &&
            r.deck.fp == Some(d.fp.value.(pos := d.fp.value.pos + |header| + 3))
  {
    HeaderMatchedFinds(WithEmptyTape(d, m[9985]), header, m, dest, Extracted(m, 9986));
  }

  /** Before the end of the tape, a load in header mode is a header search and nothing else. */
  lemma SearchingStep(d: Deck, m: seq<Byte>, dest: nat)
    requires DeckValid(d) && d.loadHeader && !AtEof(d) && |m| == MemSize && dest + 11 <= MemSize
    ensures LoadStep(d, m, dest) == HeaderSearch(d, m, dest)
  {
    assert [] + HeaderSearch(d, m, dest).notes == HeaderSearch(d, m, dest).notes;
  }

  /** The comparison half of HeaderSearchFinds. */
  lemma HeaderMatchedFinds(d: Deck, header: seq<Byte>, m: seq<Byte>, dest: nat, requested: seq<Byte>)
    requires TapesLaidOut(d.tapes) && d.fp.Some? && !d.fp.value.eof && 11 <= |header| < 0xffff
    requires HoldsBlock(d.fp.value, header)
    requires |m| == MemSize && dest + |header| <= MemSize
    requires CString(requested) == CString(Extracted(header, 1))
    ensures var d3 := d.(fp := Some(d.fp.value.(pos := d.fp.value.pos + |header| + 3)), loadHeader := false);
            HeaderMatched(d, m, dest, requested) == LoadOutcome(d3, Copied(m, dest, header), [NoteOf(d3, Message, Found)])
  {
    var f := d.fp.value;
    FileBlockStep(d, header, m, dest);
    var l := BlockLoaded(d, m, dest);
    ExtractedCopied(m, dest, header);
    assert CString(requested) == CString(Extracted(l.mem, dest + 1));
  }

  /** Loading a well-formed file block copies it and moves past it. */
  lemma FileBlockStep(d: Deck, block: seq<Byte>, m: seq<Byte>, dest: nat)
    requires TapesLaidOut(d.tapes) && d.fp.Some? && !d.fp.value.eof && |block| + 1 < 0x10000
    requires HoldsBlock(d.fp.value, block)
    ensures BlockLoaded(d, m, dest) == Step(d.(fp := Some(d.fp.value.(pos := d.fp.value.pos + |block| + 3))),
                                            Copied(m, dest, block))
  {
    LoadsBlockAt(d.fp.value, block, m, dest);
  }

  /** The name read back from a copied header is the header's own name. */
  lemma ExtractedCopied(m: seq<Byte>, dest: nat, header: seq<Byte>)
    requires 11 <= |header| && dest + |header| <= |m|
    ensures Extracted(Copied(m, dest, header), dest + 1) == Extracted(header, 1)
  {
    var m1 := Copied(m, dest, header);
    forall i | 0 <= i < 11
      ensures Extracted(m1, dest + 1)[i] == Extracted(header, 1)[i]
    {
      if i < 10 {
        assert m1[dest + 1 + i] == header[1 + i];
      }
    }
  }

  /** A data load over a well-formed block copies its data and returns to header mode. */
  lemma DataLoadLoads(d: Deck, body: seq<Byte>, m: seq<Byte>, dest: nat)
    requires DeckValid(d) && !d.loadHeader && d.fp.Some? && !d.fp.value.eof
    requires |body| < 0xffff
    requires HoldsBlock(d.fp.value, body)
    requires |m| == MemSize && dest + 11 <= MemSize
    ensures var r := LoadStep(d, m, dest);
            r.deck.loadHeader && r.mem == Copied(m, dest, body) &&
            r.deck.fp == Some(d.fp.value.(pos := d.fp.value.pos + |body| + 3))
  {
    FileBlockStep(d, body, m, dest);
    assert EofRewound(d) == d;
  }

  datatype SaveOutcome = SaveOutcome(deck: Deck, notes: seq<Note>)

  /**
   * `tape_save_p`: with no file attached, report once and stop expecting a
   * header. Otherwise truncate the file at the position before a header,
   * write the block, and alternate between header and data.
   */
  function SaveStep(d: Deck, block: seq<Byte>): SaveOutcome
  {
    if d.fp.None? then
      if d.saveHeader then SaveOutcome(d.(saveHeader := false), [NoteOf(d, Message, NoTape)])
      else SaveOutcome(d, [])
    else
      var f := if d.saveHeader then Truncated(d.fp.value) else d.fp.value;
      var d2 := d.(fp := Some(Written(f, BlockBytes(block))), saveHeader := !d.saveHeader);
      SaveOutcome(d2, [NoteOf(d2, Message, if d.saveHeader then Saving else SaveComplete)])
  }

  /**
   * Saving a header and then its data leaves the file ending with the two
   * blocks at the old position, ready for the next header.
   */
  lemma SaveWritesFile(d: Deck, header: seq<Byte>, body: seq<Byte>)
    requires d.fp.Some? && d.saveHeader && d.fp.value.pos <= |d.fp.value.data|
    ensures var r1 := SaveStep(d, header);
            var r2 := SaveStep(r1.deck, body);
            var f := d.fp.value;
            r2.deck.saveHeader && r2.deck.fp.Some? &&
            r2.deck.fp.value.data == f.data[..f.pos] + BlockBytes(header) + BlockBytes(body) &&
            r2.deck.fp.value.pos == f.pos + |header| + |body| + 6 &&
            r1.notes[0].reason == Saving && r2.notes[0].reason == SaveComplete
  {
    var f := d.fp.value;
    var r1 := SaveStep(d, header);
    assert r1.deck.fp == Some(Written(Truncated(f), BlockBytes(header)));
    TruncatedThenWritten(f, BlockBytes(header), BlockBytes(body));
  }

  /** Two writes after a truncation leave the kept part followed by both pieces. */
  lemma TruncatedThenWritten(f: TapeFile, a: seq<Byte>, b: seq<Byte>)
    requires f.pos <= |f.data|
    ensures var g := Written(Written(Truncated(f), a), b);
            g.data == f.data[..f.pos] + a + b && g.pos == f.pos + |a| + |b|
  {
    var t := Truncated(f);
    WrittenTwice(t, a, b);
    WrittenLayout(f, a + b);
    assert f.data[..f.pos] + (a + b) == f.data[..f.pos] + a + b;
  }

  /** With no tape attached, only the first save reports it; the ones after stay silent. */
  lemma SaveWithoutTape(d: Deck, block: seq<Byte>, block2: seq<Byte>)
    requires d.fp.None?
    ensures var r1 := SaveStep(d, block);
            r1.deck == d.(saveHeader := false) && |r1.notes| == (if d.saveHeader then 1 else 0) &&
            SaveStep(r1.deck, block2) == SaveOutcome(r1.deck, [])
  {
  }

  /** `tape_detach`: close the file, if any, and report it. */
  function DetachStep(d: Deck): (Deck, seq<Note>)
  {
    if d.fp.Some? then (d.(fp := None), [NoteOf(d.(fp := None), Message, Detached)]) else (d, [])
  }

  /**
   * `tape_attach`: detach, then open an existing image for update from its
   * start, or else create an empty one; `existing` is the image that "rb+"
   * opens, if any, and `creatable` whether "wb+" succeeds.
   */
  function AttachStep(d: Deck, existing: Option<seq<Byte>>, creatable: bool): (Deck, seq<Note>)
  {
    var det := DetachStep(d);
    var fp := if existing.Some? then Some(TapeFile(existing.value, 0, false))
              else if creatable then Some(TapeFile([], 0, false)) else None;
    var d2 := det.0.(fp := fp);
    (d2, det.1 + [if fp.Some? then NoteOf(d2, Message, Attached) else NoteOf(d2, Error, CouldntCreate)])
  }

  /** Attaching reads an existing image from its start, else a new empty one; only a failed attach leaves no tape. */
  lemma AttachOpens(d: Deck, existing: Option<seq<Byte>>, creatable: bool)
    ensures var r := AttachStep(d, existing, creatable);
            (existing.Some? ==> r.0.fp == Some(TapeFile(existing.value, 0, false))) &&
            (r.0.fp.None? <==> existing.None? && !creatable) &&
            (r.0.fp.None? <==> r.1[|r.1| - 1].kind == Error) &&
            r.0.(fp := d.fp) == d && (DeckValid(d) ==> DeckValid(r.0))
  {
  }

  // -------------------------------------------------------------- the class

  /** A notification as delivered: the note and the observers that received it, in order. */
  datatype Notice = Notice(note: Note, observers: seq<int>)

  /** The notices a run of notes produces while the same observers are registered. */
  function Delivered(notes: seq<Note>, observers: seq<int>): (r: seq<Notice>)
    ensures |r| == |notes| && forall i :: 0 <= i < |notes| ==> r[i] == Notice(notes[i], observers)
  {
    seq(|notes|, i requires 0 <= i < |notes| => Notice(notes[i], observers))
  }

  lemma DeliveredAppend(a: seq<Note>, b: seq<Note>, observers: seq<int>)
    ensures Delivered(a + b, observers) == Delivered(a, observers) + Delivered(b, observers)
  {
  }

  /** Two rounds of notifications add up to one round for all the notes. */
  lemma NoticesAppended(n0: seq<Notice>, n1: seq<Notice>, n2: seq<Notice>, a: seq<Note>, b: seq<Note>, obs: seq<int>)
    requires n1 == n0 + Delivered(a, obs) && n2 == n1 + Delivered(b, obs)
    ensures n2 == n0 + Delivered(a + b, obs)
  {
    DeliveredAppend(a, b, obs);
  }

  /** `tape_extract_filename`: copy ten characters, blanks as NULs, and end with a NUL. */
  method ExtractFilename(filename: array<Byte>, mem: array<Byte>, at: nat)
    requires filename.Length == 11 && at + 10 <= mem.Length && filename != mem
    modifies filename
    ensures filename[..] == Extracted(mem[..], at)
  {
    var i := 0;
    while i < 10
      invariant 0 <= i <= 10
      invariant forall j :: 0 <= j < i ==> filename[j] == Extracted(mem[..], at)[j]
    {
      filename[i] := if IsSpace(mem[at + i]) then 0 else mem[at + i];
      i := i + 1;
    }
    filename[10] := 0;
  }

  /**
   * The tape deck: the statics of src/tape.c. The observers are identified by
   * number; every notification they are sent is kept in `notices`.
   */
  class TapeDeck {
    var fp: Option<TapeFile>
    var emptyTape: Option<EmptyKind>
    var emptyPos: nat
    var loadHeader: bool
    var saveHeader: bool
    const tapes: EmptyTapes
    const observers: array<int>
    var observerCount: nat
    var notices: seq<Notice>

    function State(): Deck
      reads this
    {
      Deck(fp, emptyTape, emptyPos, loadHeader, saveHeader, tapes)
    }

    /** The registered observers, in the order they are called. */
    function Observers(): seq<int>
      reads this, observers
      requires observerCount <= observers.Length
    {
      observers[..observerCount]
    }

    ghost predicate Valid()
      reads this, observers
    {
      observers.Length == MaxObservers && observerCount <= MaxObservers && DeckValid(State())
    }

    constructor()
      ensures Valid() && State() == InitialDeck && Observers() == [] && notices == []
    {
      fp := None;
      emptyTape := None;
      emptyPos := 0;
      loadHeader := true;
      saveHeader := true;
      tapes := BuiltInTapes;
      observers := new int[MaxObservers];
      observerCount := 0;
      notices := [];
      BuiltInLaidOut();
    }

    /** `tape_add_observer`: register an observer while there is room for it. */
    method AddObserver(observer: int)
      requires Valid()
      modifies this, observers
      ensures Valid() && State() == old(State()) && notices == old(notices)
      ensures Observers() == if old(observerCount) < MaxObservers then old(Observers()) + [observer] else old(Observers())
    {
      if observerCount < MaxObservers {
        observers[observerCount] := observer;
        observerCount := observerCount + 1;
      }
    }

    /** `tape_clear_observers`: later notifications reach nobody. */
    method ClearObservers()
      requires Valid()
      modifies this
      ensures Valid() && State() == old(State()) && notices == old(notices) && Observers() == []
    {
      observerCount := 0;
    }

    /** `tape_notify_observers`: tell every registered observer. */
    method Notify(kind: MessageType, reason: Reason)
      requires observerCount <= observers.Length
      modifies this`notices
      ensures notices == old(notices) + [Notice(NoteOf(State(), kind, reason), Observers())]
    {
      notices := notices + [Notice(NoteOf(State(), kind, reason), Observers())];
    }

    /** `tape_patches`: the ROM's load and save routines trap to LoadP and SaveP. */
    method Patches(mem: array<Byte>)
      requires mem.Length == MemSize
      modifies mem
      ensures mem[0x18a7..0x18aa] == [0xed, 0xfc, 0xc9] && mem[0x1820..0x1823] == [0xed, 0xfd, 0xc9]
      ensures forall i :: 0 <= i < MemSize && !(0x18a7 <= i < 0x18aa) && !(0x1820 <= i < 0x1823) ==>
                mem[i] == old(mem[i])
    {
      mem[0x18a7] := 0xed;
      mem[0x18a8] := 0xfc;
      mem[0x18a9] := 0xc9;
      mem[0x1820] := 0xed;
      mem[0x1821] := 0xfd;
      mem[0x1822] := 0xc9;
    }

    /** `tape_detach`. */
    method Detach()
      requires observerCount <= observers.Length
      modifies this`fp, this`notices
      ensures State() == DetachStep(old(State())).0
      ensures notices == old(notices) + Delivered(DetachStep(old(State())).1, Observers())
    {
      if fp.Some? {
        fp := None;
        Notify(Message, Detached);
      }
    }

    /** `tape_attach`: returns whether a tape image is now attached. */
    method Attach(existing: Option<seq<Byte>>, creatable: bool) returns (attached: bool)
      requires Valid()
      modifies this`fp, this`notices
      ensures Valid() && attached == fp.Some?
      ensures State() == AttachStep(old(State()), existing, creatable).0
      ensures notices == old(notices) + Delivered(AttachStep(old(State()), existing, creatable).1, Observers())
    {
      ghost var before := notices;
      Detach();
      ghost var detached := notices;
      if existing.Some? {
        fp := Some(TapeFile(existing.value, 0, false));
        fp := Some(Rewound(fp.value));
      } else if creatable {
        fp := Some(TapeFile([], 0, false));
      }
      if fp.Some? {
        Notify(Message, Attached);
      } else {
        Notify(Error, CouldntCreate);
      }
      attached := fp.Some?;
      DeliveredAppend(DetachStep(old(State())).1, [NoteOf(State(), if fp.Some? then Message else Error,
                                                           if fp.Some? then Attached else CouldntCreate)], Observers());
    }

    /** `tape_rewind_to_start`. */
    method Rewind()
      modifies this`fp, this`emptyPos
      ensures State() == RewoundDeck(old(State()))
    {
      if fp.Some? {
        fp := Some(Rewound(fp.value));
      } else {
        emptyPos := 0;
      }
    }

    /** `tape_attach_empty_tape`. */
    method AttachEmptyTape(loadType: Byte)
      modifies this`emptyTape, this`emptyPos
      ensures State() == WithEmptyTape(old(State()), loadType)
    {
      if loadType == 0 {
        emptyTape := Some(EmptyDict);
      } else {
        emptyTape := Some(EmptyBytes);
      }
      emptyPos := 0;
    }

    /** `tape_load_empty_tape_block`, copying `block_size` bytes, the checksum slot included. */
    method LoadEmptyTapeBlock(mem: array<Byte>, dest: nat)
      requires fp.None? && emptyTape.Some? && BlockFits(TapeOf(tapes, emptyTape.value), emptyPos)
      modifies this`emptyPos, mem
      ensures var r := EmptyBlockLoadedAsWritten(TapeOf(tapes, emptyTape.value), old(emptyPos), old(mem[..]), dest);
              emptyPos == r.0 && mem[..] == r.1
    {
      var t := TapeOf(tapes, emptyTape.value);
      var size: int := t[emptyPos];
      emptyPos := emptyPos + 1;
      size := size + (t[emptyPos] as int) * 256;
      emptyPos := emptyPos + 1;
      CopyInto(mem, dest, t[emptyPos..emptyPos + size]);
      emptyPos := emptyPos + size;
    }

    /** `tape_load_block`. */
    method LoadBlock(mem: array<Byte>, dest: nat)
      requires CanRead(State())
      modifies this`fp, this`emptyPos, mem
      ensures var r := BlockLoaded(old(State()), old(mem[..]), dest);
              State() == r.deck && mem[..] == r.mem
    {
      if fp.Some? {
        var lo := GetC(fp.value);
        fp := Some(lo.1);
        if !fp.value.eof {
          var hi := GetC(fp.value);
          var data := ReadBytes(hi.1, SizeOf(lo.0, hi.0) - 1);
          CopyInto(mem, dest, data.0);
          fp := Some(GetC(data.1).1);
        }
      } else {
        LoadEmptyTapeBlock(mem, dest);
      }
    }

    /** `tape_skip_block`. */
    method SkipBlock()
      requires CanRead(State())
      modifies this`fp, this`emptyPos
      ensures State() == BlockSkipped(old(State()))
    {
      if fp.Some? {
        var lo := GetC(fp.value);
        var hi := GetC(lo.1);
        fp := Some(Seek(hi.1, SizeOf(lo.0, hi.0)));
      } else {
        var t := TapeOf(tapes, emptyTape.value);
        var size: int := t[emptyPos] + (t[emptyPos + 1] as int) * 256;
        emptyPos := emptyPos + 2 + size;
      }
    }

    /** `tape_load_p`. */
    method LoadP(mem: array<Byte>, dest: nat)
      requires Valid() && mem.Length == MemSize && dest + 11 <= MemSize
      modifies this, mem
      ensures Valid() && Observers() == old(Observers())
      ensures var r := LoadStep(old(State()), old(mem[..]), dest);
              State() == r.deck && mem[..] == r.mem && notices == old(notices) + Delivered(r.notes, Observers())
    {
      ghost var d0 := State();
      ghost var m0 := mem[..];
      LoadStepKeepsValid(d0, m0, dest);
      RewindAtEnd();
      ghost var d1 := State();
      ghost var n1 := notices;
      assert d1 == EofRewound(d0);
      LoadInMode(mem, dest);
      ghost var r := LoadMode(d1, m0, dest);
      assert LoadStep(d0, m0, dest) == r.(notes := EofNotes(d0) + r.notes);
      NoticesAppended(old(notices), n1, notices, EofNotes(d0), r.notes, Observers());
    }

    /** The rest of `tape_load_p`, after the rewind. */
    method LoadInMode(mem: array<Byte>, dest: nat)
      requires observerCount <= observers.Length && TapesLaidOut(tapes) && (!loadHeader ==> CanRead(State()))
      requires mem.Length == MemSize && dest + 11 <= MemSize
      modifies this`fp, this`emptyTape, this`emptyPos, this`loadHeader, this`notices, mem
      ensures var r := LoadMode(old(State()), old(mem[..]), dest);
              State() == r.deck && mem[..] == r.mem && notices == old(notices) + Delivered(r.notes, Observers())
    {
      if loadHeader {
        SearchHeader(mem, dest);
      } else {
        LoadData(mem, dest);
      }
    }

    /** The start of `tape_load_p`. */
    method RewindAtEnd()
      requires observerCount <= observers.Length
      modifies this`fp, this`emptyPos, this`loadHeader, this`notices
      ensures State() == EofRewound(old(State()))
      ensures notices == old(notices) + Delivered(EofNotes(old(State())), Observers())
    {
      if AtEof(State()) {
        Notify(Message, EndOfTape);
        Rewind();
        loadHeader := true;
      }
    }

    /** The header half of `tape_load_p`. */
    method SearchHeader(mem: array<Byte>, dest: nat)
      requires observerCount <= observers.Length && TapesLaidOut(tapes)
      requires mem.Length == MemSize && dest + 11 <= MemSize
      modifies this`fp, this`emptyTape, this`emptyPos, this`loadHeader, this`notices, mem
      ensures var r := HeaderSearch(old(State()), old(mem[..]), dest);
              State() == r.deck && mem[..] == r.mem && notices == old(notices) + Delivered(r.notes, Observers())
    {
      ghost var m0 := mem[..];
      AttachEmptyTape(mem[9985]);
      ghost var d2 := State();
      var requested := new Byte[11];
      ExtractFilename(requested, mem, 9986);
      Notify(Message, Searching);
      ghost var searching := [NoteOf(d2, Message, Searching)];
      ghost var n1 := notices;
      assert n1 == old(notices) + Delivered(searching, Observers());
      MatchHeader(mem, dest, requested[..]);
      NoticesAppended(old(notices), n1, notices, searching, HeaderMatched(d2, m0, dest, Extracted(m0, 9986)).notes, Observers());
    }

    /** Load a header block and compare its name with the requested one. */
    method MatchHeader(mem: array<Byte>, dest: nat, requested: seq<Byte>)
      requires observerCount <= observers.Length && CanRead(State()) && (fp.None? ==> emptyPos == 0)
      requires mem.Length == MemSize && dest + 11 <= MemSize
      modifies this`fp, this`emptyPos, this`loadHeader, this`notices, mem
      ensures var r := HeaderMatched(old(State()), old(mem[..]), dest, requested);
              State() == r.deck && mem[..] == r.mem && notices == old(notices) + Delivered(r.notes, Observers())
    {
      LoadBlock(mem, dest);
      var found := new Byte[11];
      ExtractFilename(found, mem, dest + 1);
      CompareNames(requested, found[..]);
    }

    /** The end of the header half: skip the file unless its name is the requested one. */
    method CompareNames(requested: seq<Byte>, found: seq<Byte>)
      requires observerCount <= observers.Length && CanRead(State())
      modifies this`fp, this`emptyPos, this`loadHeader, this`notices
      ensures var d3 := if CString(requested) != CString(found) then BlockSkipped(old(State()))
                        else old(State()).(loadHeader := false);
              State() == d3 &&
              notices == old(notices) + [Notice(NoteOf(d3, Message,
                                                       if CString(requested) != CString(found) then Skipping else Found),
                                                Observers())]
    {
      if CString(requested) != CString(found) {
        SkipBlock();
        Notify(Message, Skipping);
      } else {
        loadHeader := false;
        Notify(Message, Found);
      }
    }

    /** The data half of `tape_load_p`. */
    method LoadData(mem: array<Byte>, dest: nat)
      requires observerCount <= observers.Length && CanRead(State())
      modifies this`fp, this`emptyPos, this`loadHeader, this`notices, mem
      ensures var r := DataLoad(old(State()), old(mem[..]), dest);
              State() == r.deck && mem[..] == r.mem && notices == old(notices) + Delivered(r.notes, Observers())
    {
      LoadBlock(mem, dest);
      loadHeader := true;
      Notify(Message, LoadComplete);
    }

    /** `tape_truncate`: cut the file at the position (a failing `ftruncate` is not modelled). */
    method Truncate()
      requires fp.Some?
      modifies this`fp
      ensures fp == Some(Truncated(old(fp.value)))
    {
      fp := Some(Truncated(fp.value));
    }

    /** `tape_save_block`: size, data and checksum, one write after another. */
    method SaveBlock(block: seq<Byte>)
      requires fp.Some?
      modifies this`fp
      ensures fp == Some(Written(old(fp.value), BlockBytes(block)))
    {
      WrittenInPieces(fp.value, LowByte(|block| + 1), HighByte(|block| + 1), block, Checksum(block));
      fp := Some(Written(fp.value, [LowByte(|block| + 1)]));
      fp := Some(Written(fp.value, [HighByte(|block| + 1)]));
      fp := Some(Written(fp.value, block));
      var checksum := CalcChecksum(block);
      fp := Some(Written(fp.value, [checksum]));
    }

    /** `tape_save_p`: `start` and `size` locate the block in memory. */
    method SaveP(mem: array<Byte>, start: nat, size: nat)
      requires Valid() && start + size <= mem.Length
      modifies this
      ensures Valid() && Observers() == old(Observers())
      ensures var r := SaveStep(old(State()), old(mem[start..start + size]));
              State() == r.deck && notices == old(notices) + Delivered(r.notes, Observers())
    {
      if fp.None? {
        if saveHeader {
          Notify(Message, NoTape);
          saveHeader := false;
        }
        return;
      }
      var header := saveHeader;
      if saveHeader {
        Truncate();
      }
      saveHeader := !saveHeader;
      SaveBlock(mem[start..start + size]);
      Notify(Message, if header then Saving else SaveComplete);
    }
  }
}
