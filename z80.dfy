/**
 * The skeleton of the Z80 main loop (z80.c): the parity table, the register
 * file, the per-iteration fetch, the T-state budget and the interrupt and
 * reset sampling.  The opcode bodies are not modelled: an instruction is an
 * abstract effect on the registers, a list of byte stores and a cycle count.
 */
module Z80 {
  import opened AceMemory
  import opened AceHost

  // ---------------------------------------------------------------------
  // The parity table

  /** `partable`, as its sixteen printed rows of sixteen entries. */
  const PartableRows: seq<seq<bv8>> := [
    [4, 0, 0, 4, 0, 4, 4, 0, 0, 4, 4, 0, 4, 0, 0, 4],
    [0, 4, 4, 0, 4, 0, 0, 4, 4, 0, 0, 4, 0, 4, 4, 0],
    [0, 4, 4, 0, 4, 0, 0, 4, 4, 0, 0, 4, 0, 4, 4, 0],
    [4, 0, 0, 4, 0, 4, 4, 0, 0, 4, 4, 0, 4, 0, 0, 4],
    [0, 4, 4, 0, 4, 0, 0, 4, 4, 0, 0, 4, 0, 4, 4, 0],
    [4, 0, 0, 4, 0, 4, 4, 0, 0, 4, 4, 0, 4, 0, 0, 4],
    [4, 0, 0, 4, 0, 4, 4, 0, 0, 4, 4, 0, 4, 0, 0, 4],
    [0, 4, 4, 0, 4, 0, 0, 4, 4, 0, 0, 4, 0, 4, 4, 0],
    [0, 4, 4, 0, 4, 0, 0, 4, 4, 0, 0, 4, 0, 4, 4, 0],
    [4, 0, 0, 4, 0, 4, 4, 0, 0, 4, 4, 0, 4, 0, 0, 4],
    [4, 0, 0, 4, 0, 4, 4, 0, 0, 4, 4, 0, 4, 0, 0, 4],
    [0, 4, 4, 0, 4, 0, 0, 4, 4, 0, 0, 4, 0, 4, 4, 0],
    [4, 0, 0, 4, 0, 4, 4, 0, 0, 4, 4, 0, 4, 0, 0, 4],
    [0, 4, 4, 0, 4, 0, 0, 4, 4, 0, 0, 4, 0, 4, 4, 0],
    [0, 4, 4, 0, 4, 0, 0, 4, 4, 0, 0, 4, 0, 4, 4, 0],
    [4, 0, 0, 4, 0, 4, 4, 0, 0, 4, 4, 0, 4, 0, 0, 4]
  ]

  /** `parity(a)`: entry a of the flat 256-entry table. */
  function Parity(a: bv8): bv8
  {
    TableEntry(a as int)
  }

  function TableEntry(v: nat): bv8
    requires v < 256
  {
    PartableRows[v / 16][v % 16]
  }

  /** The number of set bits of v. */
  function BitCount(v: nat): nat
  {
    if v == 0 then 0 else v % 2 + BitCount(v / 2)
  }

  /** The Z80's P/V flag after a logical operation: 4 for an even number of set bits, 0 for odd. */
  function ParityFlag(v: nat): bv8
  {
    if BitCount(v) % 2 == 0 then 4 else 0
  }

  /** The two row patterns of the table. */
  const EvenRow: seq<bv8> := [4, 0, 0, 4, 0, 4, 4, 0, 0, 4, 4, 0, 4, 0, 0, 4]
  const OddRow: seq<bv8> := [0, 4, 4, 0, 4, 0, 0, 4, 4, 0, 0, 4, 0, 4, 4, 0]

  lemma RowKinds(r: nat)
    requires r < 16
    ensures PartableRows[r] == if EvenRow[r] == 4 then EvenRow else OddRow
  {
    assert r == 0 || r == 1 || r == 2 || r == 3 || r == 4 || r == 5 || r == 6 || r == 7 ||
      r == 8 || r == 9 || r == 10 || r == 11 || r == 12 || r == 13 || r == 14 || r == 15;
  }

  lemma RowCells(c: nat)
    requires c < 16
    ensures EvenRow[c] == ParityFlag(c) && OddRow[c] == 4 - EvenRow[c]
  {
    EvenRowCells(c);
    OddRowCells(c);
  }

  lemma EvenRowCells(c: nat)
    requires c < 16
    ensures EvenRow[c] == ParityFlag(c)
  {
    assert c == 0 || c == 1 || c == 2 || c == 3 || c == 4 || c == 5 || c == 6 || c == 7 ||
      c == 8 || c == 9 || c == 10 || c == 11 || c == 12 || c == 13 || c == 14 || c == 15;
  }

  lemma OddRowCells(c: nat)
    requires c < 16
    ensures OddRow[c] == 4 - EvenRow[c]
  {
    assert c == 0 || c == 1 || c == 2 || c == 3 || c == 4 || c == 5 || c == 6 || c == 7 ||
      c == 8 || c == 9 || c == 10 || c == 11 || c == 12 || c == 13 || c == 14 || c == 15;
  }

  /** Appending one bit to a number adds that bit to its count. */
  lemma CountStep(v: nat, b: nat, w: nat)
    requires b < 2 && w == 2 * v + b
    ensures BitCount(w) == b + BitCount(v)
  {
    assert w / 2 == v && w % 2 == b;
  }

  /** Four low bits appended to r add their number to the count. */
  lemma NibbleBits(r: nat, b3: nat, b2: nat, b1: nat, b0: nat, v: nat)
    requires b3 < 2 && b2 < 2 && b1 < 2 && b0 < 2
    requires v == 16 * r + 8 * b3 + 4 * b2 + 2 * b1 + b0
    ensures BitCount(v) == BitCount(r) + b3 + b2 + b1 + b0
  {
    var w1 := 2 * r + b3;
    var w2 := 2 * w1 + b2;
    var w3 := 2 * w2 + b1;
    CountStep(r, b3, w1);
    CountStep(w1, b2, w2);
    CountStep(w2, b1, w3);
    CountStep(w3, b0, v);
  }

  /** The four binary digits of a nibble. */
  lemma NibbleDigits(c: nat) returns (b3: nat, b2: nat, b1: nat, b0: nat)
    requires c < 16
    ensures b3 < 2 && b2 < 2 && b1 < 2 && b0 < 2 && c == 8 * b3 + 4 * b2 + 2 * b1 + b0
  {
    b0, b1, b2, b3 := c % 2, c / 2 % 2, c / 4 % 2, c / 8;
  }

  /** The count of a byte is the count of its high nibble plus that of its low nibble. */
  lemma NibbleCount(r: nat, c: nat)
    requires c < 16
    ensures BitCount(16 * r + c) == BitCount(r) + BitCount(c)
  {
    var b3, b2, b1, b0 := NibbleDigits(c);
    NibbleBits(r, b3, b2, b1, b0, 16 * r + c);
    NibbleBits(0, b3, b2, b1, b0, c);
  }

  /** The flag of a byte from the flags of its two nibbles. */
  lemma FlagOfNibbles(r: nat, c: nat)
    requires c < 16
    ensures ParityFlag(16 * r + c) == if ParityFlag(r) == 4 then ParityFlag(c) else 4 - ParityFlag(c)
  {
    NibbleCount(r, c);
    SumParity(BitCount(r), BitCount(c));
  }

  /** A sum is even exactly when its two terms are both even or both odd. */
  lemma SumParity(x: nat, y: nat)
    ensures (x + y) % 2 == 0 <==> x % 2 == y % 2
  {
  }

  /** Every entry of the table is the parity flag of its index. */
  lemma TableCorrect(v: nat)
    requires v < 256
    ensures TableEntry(v) == ParityFlag(v)
  {
    var r := v / 16;
    var c := v % 16;
    assert v == 16 * r + c;
    TableCell(r, c);
  }

  /** The cell in row r, column c of the table is the flag of 16 * r + c. */
  lemma TableCell(r: nat, c: nat)
    requires r < 16 && c < 16
    ensures PartableRows[r][c] == ParityFlag(16 * r + c)
  {
    RowKinds(r);
    RowCells(r);
    RowCells(c);
    FlagOfNibbles(r, c);
    if EvenRow[r] == 4 {
      assert PartableRows[r][c] == ParityFlag(c);
    } else {
      assert ParityFlag(r) == 0;
      assert PartableRows[r][c] == 4 - ParityFlag(c);
    }
  }

  /** `partable[a]` is 4 exactly when a has an even number of set bits, and 0 otherwise. */
  lemma ParityCorrect(a: bv8)
    ensures Parity(a) == ParityFlag(a as int)
    ensures Parity(a) == 4 <==> BitCount(a as int) % 2 == 0
    ensures Parity(a) == 0 <==> BitCount(a as int) % 2 == 1
  {
    TableCorrect(a as int);
  }

  // ---------------------------------------------------------------------
  // Registers

  /**
   * The local variables of `mainloop`: the main and alternate 8-bit
   * registers, `i`, `r`, the interrupt flip-flops and mode, the 16-bit
   * registers, the 32-bit refresh counter and the index prefix hand-off.
   */
  datatype Regs = Regs(
    a: bv8, f: bv8, b: bv8, c: bv8, d: bv8, e: bv8, h: bv8, l: bv8,
    a1: bv8, f1: bv8, b1: bv8, c1: bv8, d1: bv8, e1: bv8, h1: bv8, l1: bv8,
    i: bv8, r: bv8, iff1: bv8, iff2: bv8, im: bv8,
    pc: bv16, ix: bv16, iy: bv16, sp: bv16,
    radjust: bv32, ixoriy: bv8, newIxoriy: bv8)
  {
    /** The `bc` view: b is the high byte, c the low byte. */
    function BC(): (w: bv16)
      ensures High(w) == b && Low(w) == c
    {
      Pair(b, c)
    }

    /** The `de` view. */
    function DE(): (w: bv16)
      ensures High(w) == d && Low(w) == e
    {
      Pair(d, e)
    }

    /** The `hl` view. */
    function HL(): (w: bv16)
      ensures High(w) == h && Low(w) == l
    {
      Pair(h, l)
    }
  }

  /** `pc++` and `sp++` on the 16-bit registers: modulo 2^16. */
  function Inc16(v: bv16): bv16
  {
    v + 1
  }

  /** `sp -= 2`: modulo 2^16. */
  function Minus2(v: bv16): bv16
  {
    v - 2
  }

  /** `radjust++` on the 32-bit refresh counter: modulo 2^32. */
  function Inc32(v: bv32): bv32
  {
    v + 1
  }

  /** The register file at the start of `mainloop` and after a reset: every register zero. */
  const PowerOn: Regs := Regs(0, 0, 0, 0, 0, 0, 0, 0, 0, 0, 0, 0, 0, 0, 0, 0, 0, 0, 0, 0, 0, 0, 0, 0, 0, 0, 0, 0)

  /** The pair views of the power-on registers are zero, and a pair view determines its two registers. */
  lemma PairViews(c: Regs, c': Regs)
    ensures PowerOn.BC() == 0 && PowerOn.DE() == 0 && PowerOn.HL() == 0
    ensures c.BC() == c'.BC() <==> c.b == c'.b && c.c == c'.c
    ensures c.HL() == c'.HL() <==> c.h == c'.h && c.l == c'.l
  {
    PairSplit(0);
    PairInjective(c.b, c.c, c'.b, c'.c);
    PairInjective(c.h, c.l, c'.h, c'.l);
  }

  // ---------------------------------------------------------------------
  // One iteration of the loop

  /** A store an instruction performs: a byte through `store`, or a word through `store2`. */
  datatype Write = ByteWrite(addr: bv16, value: bv8) | WordWrite(addr: bv16, word: bv16)

  /** A write that keeps the images equal: a byte, or a word whose high byte stays in the same image. */
  predicate KeepsImages(w: Write)
  {
    w.ByteWrite? || !StraddlesImage(w.addr as int)
  }

  /** What an opcode body does: new registers, its stores in order, its T-states and `intsample`. */
  datatype Effect = Effect(cpu: Regs, writes: seq<Write>, cycles: nat, intsample: bool)

  /** An opcode body, seeing the registers after the fetch, the host state and the opcode. */
  type Instruction = (Regs, HostState, bv8) -> Effect

  /** What the environment does during one iteration: a timer tick or not, and the queued key events. */
  datatype Env = Env(signal: bool, events: seq<KeyEvent>)

  /** The memory after one `store` or `store2` call. */
  function Written(m: seq<bv8>, w: Write): (m': seq<bv8>)
    requires |m| == MemSize
    ensures |m'| == MemSize
  {
    match w
    case ByteWrite(a, v) => Stored(m, MemAttr, a as int, v)
    case WordWrite(a, v) => Stored2b(m, MemAttr, a as int, High(v), Low(v))
  }

  /** The memory after a list of `store` and `store2` calls. */
  function Applied(m: seq<bv8>, writes: seq<Write>): (m': seq<bv8>)
    requires |m| == MemSize
    ensures |m'| == MemSize
  {
    if |writes| == 0 then m
    else
      var w := writes[|writes| - 1];
      Written(Applied(m, writes[..|writes| - 1]), writes[|writes| - 1])
  }

  /** Stores go through the bank attributes, so they never change the ROM. */
  lemma {:induction false} AppliedKeepsRom(m: seq<bv8>, writes: seq<Write>)
    requires |m| == MemSize
    ensures Applied(m, writes)[..0x2000] == m[..0x2000]
    decreases |writes|
  {
    if |writes| > 0 {
      var w := writes[|writes| - 1];
      var m0 := Applied(m, writes[..|writes| - 1]);
      AppliedKeepsRom(m, writes[..|writes| - 1]);
      match w
      case ByteWrite(a, v) => StoreKeepsRom(m0, a as int, v);
      case WordWrite(a, v) => Stored2bKeepsRom(m0, a as int, High(v), Low(v));
    }
  }

  /** Stores keep the aliases of the mirrored RAM equal, unless a word's high byte crosses an image's end. */
  lemma {:induction false} AppliedKeepsMirrored(m: seq<bv8>, writes: seq<Write>)
    requires |m| == MemSize && Mirrored(m)
    requires forall i :: 0 <= i < |writes| ==> KeepsImages(writes[i])
    ensures Mirrored(Applied(m, writes))
    decreases |writes|
  {
    if |writes| > 0 {
      var w := writes[|writes| - 1];
      var m0 := Applied(m, writes[..|writes| - 1]);
      AppliedKeepsMirrored(m, writes[..|writes| - 1]);
      assert KeepsImages(writes[|writes| - 1]);
      match w
      case ByteWrite(a, v) => StoreKeepsMirrored(m0, MemAttr, a as int, v);
      case WordWrite(a, v) => Stored2bKeepsMirrored(m0, MemAttr, a as int, High(v), Low(v));
    }
  }

  /** Lines 63-68: take over the prefix, clear it, step `pc` and `radjust`. */
  function Fetched(c: Regs): Regs
  {
    c.(ixoriy := c.newIxoriy, newIxoriy := 0, pc := Inc16(c.pc), radjust := Inc32(c.radjust))
  }

  /** Apart from `pc`, `radjust` and the prefix pair, the fetch leaves every register alone. */
  lemma FetchTouchesOnlyCounters(c: Regs)
    ensures Fetched(c).(pc := c.pc, radjust := c.radjust, ixoriy := c.ixoriy, newIxoriy := c.newIxoriy) == c
    ensures c.pc == 0xffff ==> Fetched(c).pc == 0
  {
  }

  /** A prefix hand-off lasts one instruction: unless the next instruction sets it again, the one after sees none. */
  lemma PrefixIsOneShot(c: Regs, next: Regs)
    requires next.newIxoriy == Fetched(c).newIxoriy
    ensures Fetched(c).ixoriy == c.newIxoriy
    ensures Fetched(next).ixoriy == 0
  {
  }

  /** The result of an iteration: the new machine, or the end of the process. */
  datatype Machine = Machine(cpu: Regs, host: HostState)
  datatype StepResult = StepResult(machine: Machine, quit: bool)

  /** Lines 73-74: over budget, `fix_tstates` zeroes the count and `pause()` returns once the timer signal was handled. */
  function Budgeted(h: HostState): (h': HostState)
    requires h.Valid()
    ensures h'.Valid()
  {
    if h.tstates > h.tsmax then h.(tstates := 0, interrupted := AfterSignal(h.interrupted)) else h
  }

  /** The push of `pc` when the interrupt is taken: `sp -= 2`, then `store2(sp, pc)`. */
  function Pushed(c: Regs, h: HostState): (m: Machine)
    requires h.Valid()
    ensures m.host.Valid()
  {
    var sp := Minus2(c.sp);
    Machine(c.(sp := sp, pc := 0x38), h.(mem := Stored2b(h.mem, MemAttr, sp as int, High(c.pc), Low(c.pc))))
  }

  /** Lines 75-91: the interrupt and reset sampling after an instruction. */
  function Sampled(c: Regs, h: HostState, intsample: bool, events: seq<KeyEvent>): (r: StepResult)
    requires h.Valid()
    ensures r.machine.host.Valid()
  {
    if h.interrupted != 0 && intsample then
      var taken := if c.iff1 != 0 then Serviced(h, events) else Outcome(h, false);
      if taken.quit then StepResult(Machine(c, taken.state), true)
      else
        var m := if c.iff1 != 0 then Pushed(c, taken.state) else Machine(c, taken.state);
        var m' := if m.host.interrupted == ResetPending then Machine(PowerOn, m.host.(tstates := 0)) else m;
        StepResult(Machine(m'.cpu, m'.host.(interrupted := NoInterrupt)), false)
    else StepResult(Machine(c, h), false)
  }

  /** Lines 63-72: fetch the opcode at `pc`, then run its body on the registers after the fetch. */
  function Execute(s: Machine, exec: Instruction): (eff: Effect)
    requires s.host.Valid()
  {
    exec(Fetched(s.cpu), s.host, Fetch(s.host.mem, s.cpu.pc as int))
  }

  /**
   * Lines 71-74 on the host side: the instruction's stores and T-states,
   * the budget check, and a timer tick the environment delivers before the
   * sampling.  Whatever happens, the count ends within the budget.
   */
  function AfterInstruction(h: HostState, eff: Effect, signal: bool): (h': HostState)
    requires h.Valid()
    ensures h'.Valid() && h'.mem == Applied(h.mem, eff.writes)
    ensures h'.tstates <= h'.tsmax && h'.tsmax == h.tsmax && h'.scrnFreq == h.scrnFreq && h'.count == h.count
  {
    var h1 := Budgeted(h.(mem := Applied(h.mem, eff.writes), tstates := h.tstates + eff.cycles));
    if signal then h1.(interrupted := AfterSignal(h1.interrupted)) else h1
  }

  /** One pass of the `while(1)` body. */
  function Step(s: Machine, exec: Instruction, env: Env): (r: StepResult)
    requires s.host.Valid()
    ensures r.machine.host.Valid()
  {
    var eff := Execute(s, exec);
    Sampled(eff.cpu, AfterInstruction(s.host, eff, env.signal), eff.intsample, env.events)
  }

  /** The iterations for a script of environment actions, stopping when the process ends. */
  function Run(s: Machine, exec: Instruction, script: seq<Env>): (r: StepResult)
    requires s.host.Valid()
    ensures r.machine.host.Valid()
    decreases |script|
  {
    if |script| == 0 then StepResult(s, false)
    else
      var prev := Run(s, exec, script[..|script| - 1]);
      if prev.quit then prev else Step(prev.machine, exec, script[|script| - 1])
  }

  // ---------------------------------------------------------------------
  // Properties of the sampling protocol

  /** The pushed return address reads back at the new `sp` when both bytes land in RAM. */
  lemma PushedReadsBack(c: Regs, h: HostState)
    requires h.Valid() && 0x2000 <= Minus2(c.sp) as int < 0xffff
    ensures Fetch2(Pushed(c, h).host.mem, Minus2(c.sp) as int) == c.pc
  {
    var sp: nat := Minus2(c.sp) as int;
    RomIsReadOnly(sp);
    Stored2bReadsBack(h.mem, MemAttr, sp, High(c.pc), Low(c.pc));
    PairSplit(c.pc);
  }

  /** The push keeps the video-RAM aliases equal unless the new `sp` is the last byte of an image. */
  lemma PushedKeepsMirrored(c: Regs, h: HostState)
    requires h.Valid() && Mirrored(h.mem) && !StraddlesImage(Minus2(c.sp) as int)
    ensures Mirrored(Pushed(c, h).host.mem)
  {
    Stored2bKeepsMirrored(h.mem, MemAttr, Minus2(c.sp) as int, High(c.pc), Low(c.pc));
  }

  /** A taken interrupt that is not a reset vectors to 0x38 with the return address pushed below the old `sp`. */
  lemma InterruptVectors(c: Regs, h: HostState, events: seq<KeyEvent>)
    requires h.Valid() && h.interrupted != 0 && c.iff1 != 0
    requires !Serviced(h, events).quit && Serviced(h, events).state.interrupted != ResetPending
    ensures var r := Sampled(c, h, true, events);
      !r.quit && r.machine.cpu.pc == 0x38 && r.machine.cpu.sp == Minus2(c.sp) &&
      r.machine.host.interrupted == NoInterrupt
    ensures 0x2000 <= Minus2(c.sp) as int < 0xffff ==>
      Fetch2(Sampled(c, h, true, events).machine.host.mem, Minus2(c.sp) as int) == c.pc
  {
    var o := Serviced(h, events);
    assert Sampled(c, h, true, events).machine.host.mem == Pushed(c, o.state).host.mem;
    if 0x2000 <= Minus2(c.sp) as int < 0xffff {
      PushedReadsBack(c, o.state);
    }
  }

  /** A pending reset returns every register and the T-state count to zero, whatever `iff1` was. */
  lemma ResetClearsEverything(c: Regs, h: HostState, events: seq<KeyEvent>)
    requires h.Valid() && h.interrupted == ResetPending
    ensures var r := Sampled(c, h, true, events);
      !r.quit ==> r.machine.cpu == PowerOn && r.machine.host.tstates == 0 && r.machine.host.interrupted == NoInterrupt
  {
    ServiceClearsTick(h, events);
  }

  /** With `iff1` clear an interrupt is dropped: nothing but the flag changes, and the flag is cleared. */
  lemma DisabledInterruptDropped(c: Regs, h: HostState, events: seq<KeyEvent>)
    requires h.Valid() && h.interrupted == TickPending && c.iff1 == 0
    ensures Sampled(c, h, true, events) == StepResult(Machine(c, h.(interrupted := NoInterrupt)), false)
  {
  }

  /** Every sampling leaves the flag clear; without `intsample` nothing is sampled and the flag waits. */
  lemma SamplingClearsFlag(c: Regs, h: HostState, intsample: bool, events: seq<KeyEvent>)
    requires h.Valid()
    ensures var r := Sampled(c, h, intsample, events);
      !r.quit && h.interrupted != 0 && intsample ==> r.machine.host.interrupted == NoInterrupt
    ensures !intsample ==> Sampled(c, h, intsample, events) == StepResult(Machine(c, h), false)
  {
  }

  /** The sampling never raises `tstates` and never changes `tsmax`. */
  lemma SampledKeepsBudget(c: Regs, h: HostState, intsample: bool, events: seq<KeyEvent>)
    requires h.Valid() && h.tstates <= h.tsmax
    ensures var r := Sampled(c, h, intsample, events);
      !r.quit ==> r.machine.host.tstates <= h.tsmax && r.machine.host.tsmax == h.tsmax
  {
    if h.interrupted != 0 && intsample && c.iff1 != 0 {
      EventsKeepCounters(h.(count := CountAfter(h.count, h.scrnFreq)), events);
    }
  }

  /** The sampling keeps the video-RAM aliases equal unless it pushes `pc` across an image's end. */
  lemma SampledKeepsMirrored(c: Regs, h: HostState, intsample: bool, events: seq<KeyEvent>)
    requires h.Valid() && Mirrored(h.mem)
    requires h.interrupted != 0 && intsample && c.iff1 != 0 ==> !StraddlesImage(Minus2(c.sp) as int)
    ensures Mirrored(Sampled(c, h, intsample, events).machine.host.mem)
  {
    if h.interrupted != 0 && intsample && c.iff1 != 0 {
      EventsKeepMirrored(h.(count := CountAfter(h.count, h.scrnFreq)), events);
      var o := Serviced(h, events);
      if !o.quit {
        PushedKeepsMirrored(c, o.state);
      }
    }
  }

  /** The budget: an iteration that starts within `tsmax` ends within it. */
  lemma StepKeepsBudget(s: Machine, exec: Instruction, env: Env)
    requires s.host.Valid()
    ensures var r := Step(s, exec, env);
      !r.quit ==> r.machine.host.tstates <= r.machine.host.tsmax && r.machine.host.tsmax == s.host.tsmax
  {
    var eff := Execute(s, exec);
    SampledKeepsBudget(eff.cpu, AfterInstruction(s.host, eff, env.signal), eff.intsample, env.events);
  }

  /**
   * An iteration whose stores keep their high bytes inside one image: every
   * word store, and the push of `pc` when the sampling takes an interrupt,
   * avoids the last byte of an image.
   */
  predicate StaysInImages(s: Machine, exec: Instruction, env: Env)
    requires s.host.Valid()
  {
    var eff := Execute(s, exec);
    var h := AfterInstruction(s.host, eff, env.signal);
    (forall i :: 0 <= i < |eff.writes| ==> KeepsImages(eff.writes[i])) &&
    (h.interrupted != 0 && eff.intsample && eff.cpu.iff1 != 0 ==> !StraddlesImage(Minus2(eff.cpu.sp) as int))
  }

  /** A 4-T-state opcode body that only moves `pc` on, as `nop` does. */
  const Nop: Instruction := (c, h, op) => Effect(c, [], 4, true)

  /**
   * An iteration that stores no word and takes no interrupt stays inside the
   * images whatever `sp` is, even 0x2401, whose push would straddle 0x23FF.
   */
  lemma NopStaysInImages(s: Machine, env: Env)
    requires s.host.Valid() && s.host.interrupted == 0 && !env.signal
    requires s.host.tstates + 4 <= s.host.tsmax
    ensures StaysInImages(s, Nop, env) && StraddlesImage(Minus2(0x2401) as int)
  {
    var eff := Execute(s, Nop);
    assert eff.writes == [] && eff.cycles == 4;
    assert AfterInstruction(s.host, eff, env.signal).interrupted == 0;
  }

  /** Every such iteration keeps the video-RAM aliases equal, given the default bank table. */
  lemma StepKeepsMirrored(s: Machine, exec: Instruction, env: Env)
    requires s.host.Valid() && Mirrored(s.host.mem) && StaysInImages(s, exec, env)
    ensures Mirrored(Step(s, exec, env).machine.host.mem)
  {
    var eff := Execute(s, exec);
    AppliedKeepsMirrored(s.host.mem, eff.writes);
    SampledKeepsMirrored(eff.cpu, AfterInstruction(s.host, eff, env.signal), eff.intsample, env.events);
  }

  /** Key events change the memory only through the F12 fill, which leaves the aliases equal. */
  lemma {:induction false} EventsKeepMirrored(h: HostState, events: seq<KeyEvent>)
    requires h.Valid() && Mirrored(h.mem)
    ensures Mirrored(EventsEffect(h, events).state.mem)
    decreases |events|
  {
    if |events| > 0 {
      RamFilledCorrect(h.mem);
      var o := EventEffect(h, events[0]);
      if !o.quit {
        EventsKeepMirrored(o.state, events[1..]);
      }
    }
  }

  /** The whole run keeps the T-state count within budget. */
  lemma {:induction false} RunKeepsBudget(s: Machine, exec: Instruction, script: seq<Env>)
    requires s.host.Valid() && s.host.tstates <= s.host.tsmax
    ensures var r := Run(s, exec, script);
      !r.quit ==> r.machine.host.tstates <= r.machine.host.tsmax && r.machine.host.tsmax == s.host.tsmax
    decreases |script|
  {
    if |script| > 0 {
      var prev := Run(s, exec, script[..|script| - 1]);
      RunKeepsBudget(s, exec, script[..|script| - 1]);
      if !prev.quit {
        StepKeepsBudget(prev.machine, exec, script[|script| - 1]);
      }
    }
  }

  /** The whole run keeps the aliases equal when every iteration it reaches keeps its word stores and push inside the images. */
  lemma {:induction false} RunKeepsMirrored(s: Machine, exec: Instruction, script: seq<Env>)
    requires s.host.Valid() && Mirrored(s.host.mem)
    requires forall k :: 0 <= k < |script| ==>
      var p := Run(s, exec, script[..k]); !p.quit ==> StaysInImages(p.machine, exec, script[k])
    ensures Mirrored(Run(s, exec, script).machine.host.mem)
    decreases |script|
  {
    if |script| > 0 {
      var init := script[..|script| - 1];
      var prev := Run(s, exec, init);
      forall k | 0 <= k < |init|
        ensures var p := Run(s, exec, init[..k]); !p.quit ==> StaysInImages(p.machine, exec, init[k])
      {
        assert init[..k] == script[..k];
      }
      RunKeepsMirrored(s, exec, init);
      if !prev.quit {
        assert script[..|script| - 1] == init;
        StepKeepsMirrored(prev.machine, exec, script[|script| - 1]);
      }
    }
  }

  /** An opcode body that stores the word 0xABCD at 0x23FF through `store2` and takes 16 T-states. */
  const StraddlingStore: Instruction := (c, h, op) => Effect(c, [WordWrite(0x23ff, 0xabcd)], 16, false)

  /** As written, one iteration of that instruction leaves the two images of the video RAM different. */
  lemma RunBreaksMirror(s: Machine)
    requires s.host.Valid() && s.host.mem == seq(MemSize, _ => 0 as bv8)
    ensures Mirrored(s.host.mem)
    ensures !Mirrored(Run(s, StraddlingStore, [Env(false, [])]).machine.host.mem)
  {
    var script := [Env(false, [])];
    assert script[..0] == [];
    var eff := Execute(s, StraddlingStore);
    assert eff.writes == [WordWrite(0x23ff, 0xabcd)];
    assert eff.writes[..0] == [];
    assert High(0xabcd) == 0xab && Low(0xabcd) == 0xcd;
    assert Applied(s.host.mem, eff.writes) == Stored2b(s.host.mem, MemAttr, 0x23ff, 0xab, 0xcd);
    var h := AfterInstruction(s.host, eff, false);
    assert Run(s, StraddlingStore, script) == Step(s, StraddlingStore, script[0]);
    assert Step(s, StraddlingStore, script[0]) == Sampled(eff.cpu, h, false, []);
    assert Run(s, StraddlingStore, script).machine.host.mem == h.mem;
    Stored2bBreaksMirror();
  }

  /** Once the process has ended, later environment actions change nothing. */
  lemma {:induction false} QuitIsFinal(s: Machine, exec: Instruction, script: seq<Env>, k: nat)
    requires s.host.Valid() && k <= |script| && Run(s, exec, script[..k]).quit
    ensures Run(s, exec, script) == Run(s, exec, script[..k])
    decreases |script|
  {
    if |script| > k {
      assert script[..|script| - 1][..k] == script[..k];
      QuitIsFinal(s, exec, script[..|script| - 1], k);
    } else {
      assert script[..k] == script;
    }
  }

  // ---------------------------------------------------------------------
  // The loop itself

  /** One `store` or `store2` call. */
  method PerformOne(m: Memory, w: Write)
    requires m.Valid() && m.attr == MemAttr
    modifies m.mem
    ensures m.mem[..] == Written(old(m.mem[..]), w)
  {
    ghost var want := Written(m.mem[..], w);
    if w.ByteWrite? {
      assert want == Stored(m.mem[..], m.attr, w.addr as int, w.value);
      m.Store(w.addr as int, w.value);
    } else {
      assert want == Stored2b(m.mem[..], m.attr, w.addr as int, High(w.word), Low(w.word));
      m.Store2(w.addr as int, w.word);
    }
  }

  /** The stores of one instruction, one `store` or `store2` call each. */
  method Perform(m: Memory, writes: seq<Write>)
    requires m.Valid() && m.attr == MemAttr
    modifies m.mem
    ensures m.mem[..] == Applied(old(m.mem[..]), writes)
  {
    var k := 0;
    while k < |writes|
      invariant 0 <= k <= |writes|
      invariant m.mem[..] == Applied(old(m.mem[..]), writes[..k])
    {
      assert writes[..k + 1][..k] == writes[..k];
      PerformOne(m, writes[k]);
      k := k + 1;
    }
    assert writes[..k] == writes;
  }

  /** Lines 79-80: `push2(pc)` and the jump to 0x38. */
  method PushPc(host: Host, cpu0: Regs) returns (cpu: Regs)
    requires host.Valid() && host.memory.attr == MemAttr
    modifies host.memory.mem
    ensures host.Valid()
    ensures Machine(cpu, host.State()) == Pushed(cpu0, old(host.State()))
  {
    var sp := Minus2(cpu0.sp);
    var addr: nat := sp as int;
    host.memory.Store2(addr, cpu0.pc);
    cpu := cpu0.(sp := sp, pc := 0x38);
  }

  /** Lines 75-91. */
  method Sample(host: Host, cpu0: Regs, intsample: bool, events: seq<KeyEvent>) returns (cpu: Regs, quit: bool)
    requires host.Valid() && host.memory.attr == MemAttr
    modifies host, host.keyports, host.memory.mem
    ensures host.Valid()
    ensures StepResult(Machine(cpu, host.State()), quit) == Sampled(cpu0, old(host.State()), intsample, events)
  {
    cpu := cpu0;
    quit := false;
    if host.interrupted != 0 && intsample {
      if cpu.iff1 != 0 {
        var refreshed;
        refreshed, quit := host.DoInterrupt(events);
        if quit {
          return;
        }
        cpu := PushPc(host, cpu);
      }
      if host.interrupted == ResetPending {
        cpu := PowerOn;
        host.tstates := 0;
      }
      host.interrupted := NoInterrupt;
    }
  }

  /** Lines 63-74: the fetch, the opcode body, its stores and T-states, and the budget check. */
  method RunInstruction(host: Host, exec: Instruction, cpu0: Regs, signal: bool) returns (eff: Effect)
    requires host.Valid() && host.memory.attr == MemAttr
    modifies host, host.memory.mem
    ensures host.Valid()
    ensures eff == Execute(Machine(cpu0, old(host.State())), exec)
    ensures host.State() == AfterInstruction(old(host.State()), eff, signal)
  {
    var cpu := cpu0;
    cpu := cpu.(ixoriy := cpu.newIxoriy);
    cpu := cpu.(newIxoriy := 0);
    var pc: nat := cpu.pc as int;
    var op := Fetch(host.memory.mem[..], pc);
    cpu := cpu.(pc := Inc16(cpu.pc));
    cpu := cpu.(radjust := Inc32(cpu.radjust));
    eff := exec(cpu, host.State(), op);
    Perform(host.memory, eff.writes);
    host.tstates := host.tstates + eff.cycles;
    if host.tstates > host.tsmax {
      host.FixTstates();
      host.SigHandler();
    }
    if signal {
      host.SigHandler();
    }
  }

  /** One pass of the `while(1)` body, lines 63-91. */
  method Iterate(host: Host, exec: Instruction, cpu0: Regs, env: Env) returns (cpu: Regs, quit: bool)
    requires host.Valid() && host.memory.attr == MemAttr
    modifies host, host.keyports, host.memory.mem
    ensures host.Valid()
    ensures StepResult(Machine(cpu, host.State()), quit) == Step(Machine(cpu0, old(host.State())), exec, env)
  {
    var eff := RunInstruction(host, exec, cpu0, env.signal);
    cpu, quit := Sample(host, eff.cpu, eff.intsample, env.events);
  }

  /**
   * `mainloop`: zero the registers and the T-state count, then iterate once
   * per environment action until the actions run out or the process ends.
   */
  method MainLoop(host: Host, exec: Instruction, script: seq<Env>) returns (cpu: Regs, quit: bool)
    requires host.Valid() && host.memory.attr == MemAttr
    modifies host, host.keyports, host.memory.mem
    ensures host.Valid()
    ensures StepResult(Machine(cpu, host.State()), quit) == Run(Machine(PowerOn, old(host.State()).(tstates := 0)), exec, script)
  {
    cpu := PowerOn;
    host.tstates := 0;
    ghost var start := Machine(cpu, host.State());
    quit := false;
    var k := 0;
    while k < |script| && !quit
      invariant 0 <= k <= |script|
      invariant host.Valid() && host.memory.attr == MemAttr
      invariant StepResult(Machine(cpu, host.State()), quit) == Run(start, exec, script[..k])
      decreases |script| - k
    {
      assert script[..k + 1][..k] == script[..k];
      cpu, quit := Iterate(host, exec, cpu, script[k]);
      k := k + 1;
    }
    if quit {
      QuitIsFinal(start, exec, script, k);
    } else {
      assert script[..k] == script;
    }
  }
}
