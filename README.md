# A model of the xAce Jupiter Ace emulator core

xAce emulates the Jupiter Ace, a Z80 home computer whose operating system is
Forth in ROM, on an X11 display. This project models the parts of the
emulator that are not X11 code. Each part is a Dafny module, and the
properties the C code relies on are proved about it.

- **AceMemory** (`memory.dfy`, from `z80.h`): the flat 64 KiB memory reached
  through the eight-entry bank table.
  - `fetch` and `fetch2` read through that table.
  - `store` and `store2b` skip the read-only ROM bank.
  - Stores copy every write into the Ace's partially decoded video and
    character RAM. 0x2000-0x2FFF is seen twice and 0x3000-0x3FFF four times.
  - The class `Memory` holds the 65536-byte array. Its methods are proved
    against functions on the array's contents.
- **Z80** (`z80.dfy`, from `z80.c`):
  - the parity table;
  - the register file and the per-iteration fetch, with the one-shot index
    prefix;
  - the T-state budget;
  - the interrupt and reset sampling of `mainloop`.
  An opcode body is an abstract effect: new registers, a list of byte
  stores (`store`) and word stores (`store2`), a cycle count and
  `intsample`. Word stores and the interrupt push go through `store2b` as
  written.
- **AceKeySwitch and AceHost** (`acehost.dfy`, from the older `xmain.c`):
  - the `process_keypress` and `process_keyrelease` switches, as lists of
    row masks;
  - the port decoder `in`;
  - the signal flag and `do_interrupt`;
  - the ROM patches;
  - the `scrn_freq` clamp in `main`.
- **KeyMatrix and KeySym** (`keys.dfy`): the eight active-low key rows and the
  X11 KeySym values the emulator uses.
- **Keyboard** (`keyboard.dfy`, from `src/keyboard.c`): the port bytes and the
  `keypress_response` table, with its stride-five lookup.
- **Spooler** (`spooler.dfy`, from `src/spooler.c`): the three-state machine
  that types a text file on the keyboard. Its callbacks are recorded as a
  trace of calls.
- **Tape** (`tape.dfy`, from `src/tape.c`):
  - the `.TAP` block format: a 16-bit little-endian size, the data, and an
    XOR checksum;
  - block load, skip and save on a stdio stream, modelled as bytes, a
    position and an end-of-file flag;
  - the built-in "empty tape" tables;
  - the header/data alternation of `tape_load_p` and `tape_save_p`;
  - the observer list.
- **Emulator** (`emulator.dfy`, from `src/xmain.c`):
  - the timer flag and its service routine;
  - the two speed settings;
  - the port decoder;
  - the emulator's own keys (Ctrl-Q, F12);
  - the command-line scan;
  - the wiring through which the spooler types on the keyboard.
- **Optional** (`option.dfy`): an option type.

## Model

| member | source | states |
|---|---|---|
| AceMemory.BankAddress | z80.h:37 | the bank table sends every address to position `x mod 0x10000` of the flat array (the `memptr` setup of xmain.c:71-79) |
| AceMemory.BankIdentity | z80.h:37 | below 0x10000 the bank table is the identity, and the mirrored RAM lies in bank 1 |
| AceMemory.Fetch | z80.h:37 | `fetch(x)` is the byte at flat position `x mod 0x10000` |
| AceMemory.Fetch2 | z80.h:38 | `fetch2` is little-endian: low byte at x, high byte at x+1 |
| AceMemory.Fetch2WrapsAtTop | z80.h:38 | at 0xFFFF the high byte comes from address 0 |
| AceMemory.StoreReadOnly | z80.h:43-44 | a store into a bank whose attribute is 0 changes no byte |
| AceMemory.RomIsReadOnly | xmain.c:83 | with the default attributes, exactly the addresses below 0x2000 are read-only |
| AceMemory.StoreReadsBack | z80.h:40-57 | after a store into writable memory, `fetch(x) == y`; every address that is not x or one of its images keeps its byte |
| AceMemory.StoreAliases | z80.h:46-55 | the pair images at ±0x400 and the four quad images at 0x3000/0x3400/0x3800/0x3C00 + (x & 0x3ff) all receive the byte |
| AceMemory.StoreTargetsInRange | z80.h:46-55 | every image of an address lies in memory, and every image other than x lies in 0x2000-0x3FFF |
| AceMemory.StoredUpdates | z80.h:44-55 | a store is x's write followed by exactly the image writes of x's range, in the macro's order |
| AceMemory.StoreKeepsRom | z80.h:43-44 | with the default attributes, no store changes the ROM |
| AceMemory.StoreKeepsMirrored | z80.h:40-57 | a store keeps the aliased regions equal |
| AceMemory.Stored2bUpdates | z80.h:59-83 | `store2b` as written: lo at x and its images, hi one byte above each of them |
| AceMemory.Stored2bBytes | z80.h:59-83 | when x's bank is writable, `store2b` puts lo at x and hi at x+1 |
| AceMemory.Stored2bIgnoresSecondBank | z80.h:59-63 | as written, a word stored at 0x1FFF (the last ROM byte) changes nothing, although a byte store at 0x2000 does |
| AceMemory.Stored2bBreaksMirror | z80.h:63-68 | as written, a word stored at 0x23FF into all-zero memory, which is mirrored, leaves memory that is not mirrored |
| AceMemory.Stored2bKeepsRom | z80.h:59-63 | with the default attributes, `store2b` never changes the ROM |
| AceMemory.Stored2bKeepsMirrored | z80.h:59-83 | `store2b` at an address that is not the last byte of an image keeps the aliased regions equal |
| AceMemory.Stored2bAtTop | z80.h:59-63 | at 0xFFFF, `store2b` with the high byte dropped is the byte store of the low byte |
| AceMemory.Stored2bReadsBack | z80.h:59-85 | below 0xFFFF, `fetch2(x)` returns the stored word when x's bank is writable |
| AceMemory.StoredWordReadsBack | z80.h:59-85 | the corrected word store reads back with `fetch2` when both banks are writable |
| AceMemory.StoredWordReadsBackInRam | z80.h:59-85 | with the default attributes, a word stored anywhere in RAM below 0xFFFF reads back |
| AceMemory.StoredWordKeepsMirrored | z80.h:59-83 | the corrected word store keeps the aliased regions equal |
| AceMemory.RamFilledCorrect | xmain.c:130 | the 0xFF fill of RAM leaves the ROM alone, sets every RAM byte and keeps the aliases equal |
| AceMemory.PairSplit | z80.h:101-103 | a 16-bit pair is rebuilt from its high and low bytes |
| AceMemory.PairInjective | z80.h:101-103 | two pairs are equal exactly when both their bytes are |
| AceMemory.Memory.Store | z80.h:40-57 | the `store` macro on the array, proved against the store function |
| AceMemory.Memory.Store2b | z80.h:59-83 | the `store2b` macro on the array, proved against its function |
| AceMemory.Memory.StoreQuadImages2b | z80.h:71-79 | the eight writes of `store2b` into the four character-RAM images, low byte then high byte |
| AceMemory.Memory.Store2 | z80.h:85 | `store2(x, v)` is `store2b(x, v >> 8, v & 255)`; at 0xFFFF only the low byte is stored |
| AceMemory.Memory.StoreWord | z80.h:88-98 | a word stored as two byte stores, low byte first |
| AceMemory.Memory.FillRam | xmain.c:130 | the memset of 57344 bytes from 0x2000 with 0xFF |
| Z80.TableCell | z80.c:25-42 | every printed entry of `partable` is 4 for an even number of set bits, 0 for odd |
| Z80.ParityCorrect | z80.c:23-42 | `parity(a) == 4` exactly when a has an even bit count, and 0 exactly when it is odd |
| Z80.TableCorrect | z80.c:25-42 | entry v of the flat table is the parity flag of v, for every v below 256 |
| Z80.PairViews | z80.h:101-103 | `bc`/`de`/`hl` are zero at power-on, and a pair view determines its two registers |
| Z80.FetchTouchesOnlyCounters | z80.c:63-68 | the fetch changes only `pc`, `radjust` and the prefix pair; `pc` wraps from 0xFFFF to 0 |
| Z80.PrefixIsOneShot | z80.c:63-64 | the prefix set by one instruction is seen by the next and by no later one |
| Z80.AfterInstruction | z80.c:71-74 | after the stores and T-states of an instruction, the count ends within `tsmax` and the memory holds exactly the stores |
| Z80.AppliedKeepsRom | z80.h:43-44 | an instruction's stores never change the ROM |
| Z80.AppliedKeepsMirrored | z80.h:40-83 | an instruction's byte stores, and its word stores whose address is not the last byte of an image, keep the aliased regions equal |
| Z80.PushedReadsBack | z80.c:79-80 | the return address pushed with `store2` reads back at the new `sp` when that is RAM below 0xFFFF |
| Z80.PushedKeepsMirrored | z80.c:79-80 | the `store2` push keeps the aliased regions equal when the new `sp` is not the last byte of an image |
| Z80.InterruptVectors | z80.c:75-81 | a taken interrupt that is not a reset jumps to 0x38 with `pc` pushed at `sp - 2`, and clears the flag |
| Z80.ResetClearsEverything | z80.c:82-89 | a pending reset zeroes every register and the T-state count, whatever `iff1` was |
| Z80.DisabledInterruptDropped | z80.c:75-90 | with `iff1` clear, a tick is dropped: only the flag changes, to 0 |
| Z80.SamplingClearsFlag | z80.c:75-91 | every sampling leaves the flag 0; without `intsample` nothing is sampled |
| Z80.SampledKeepsBudget | z80.c:75-91 | sampling never raises `tstates` and never changes `tsmax` |
| Z80.SampledKeepsMirrored | z80.c:75-91 | sampling, including F12's RAM fill in the key events, keeps the aliased regions equal unless it takes an interrupt and pushes `pc` at the last byte of an image |
| Z80.EventsKeepMirrored | xmain.c:1457-1493 | key events keep the aliased regions equal |
| Z80.StepKeepsBudget | z80.c:61-92 | an iteration that starts within `tsmax` ends within it |
| Z80.StepKeepsMirrored | z80.c:61-92 | an iteration whose word stores, and whose push when it takes an interrupt, avoid the last byte of every image keeps the aliased regions equal |
| Z80.NopStaysInImages | z80.c:71-81 | an iteration without word stores that takes no interrupt meets that condition at any `sp`, 0x2401 included |
| Z80.RunKeepsBudget | z80.c:61-92 | the whole run keeps the T-states within budget and `tsmax` unchanged |
| Z80.RunKeepsMirrored | z80.c:61-92 | a run keeps the aliases equal when every iteration it reaches meets that condition; states the run never reaches are not constrained |
| Z80.RunBreaksMirror | z80.h:59-85 | one iteration of an opcode body that does `store2(0x23FF, 0xABCD)` turns mirrored memory into memory that is not mirrored |
| Z80.QuitIsFinal | z80.c:75-81 | once the process has ended, later environment actions change nothing |
| Z80.PerformOne | z80.h:85-98 | one `store` or `store2` call on the memory object, proved against Written |
| Z80.Perform | z80.h:85-98 | the stores of an instruction, one `store` or `store2` call each, applied in order |
| Z80.PushPc | z80.c:79-80 | `push2(pc)` and the jump to 0x38, proved against Pushed |
| Z80.Sample | z80.c:75-91 | the sampling code on the host object, proved against Sampled |
| Z80.RunInstruction | z80.c:63-74 | fetch, prefix hand-off, opcode effect and budget check, proved against AfterInstruction |
| Z80.Iterate | z80.c:63-91 | one pass of the loop body, proved against Step |
| Z80.MainLoop | z80.c:57-92 | zero the registers and T-states, then iterate until the script ends or the process quits, proved against Run |
| AceKeySwitch.CapitalFallsThrough | xmain.c:920-924 | a capital letter's press clears bit 0 of row 0 and then does the small letter's press; its release mirrors this |
| AceKeySwitch.ReleaseClears | xmain.c:1105-1451 | releasing Shift, Alt, Meta, Escape or Tab clears the whole keyboard, and so does any key the release switch does not list (F12, newline, Sys_Req) |
| AceKeySwitch.ReleaseMirrorsPress | xmain.c:710-1454 | for every listed key, the release ORs in the complement of each mask the press ANDs in, row by row |
| AceKeySwitch.ReleaseUndoesPressPunctuation | xmain.c:710-1454 | for the KeySyms below 0x40 (space, digits, punctuation), the release ORs in the complement of each mask the press ANDs in |
| AceKeySwitch.ReleaseUndoesPressCapitals | xmain.c:710-1454 | the same for the KeySyms 0x40-0x5F: `@`, the capital letters and the symbols after them |
| AceKeySwitch.ReleaseUndoesPressLowerCase | xmain.c:710-1454 | the same for the KeySyms 0x60-0x7F: the small letters and the symbols around them |
| AceKeySwitch.ReleaseUndoesPressFunctionKeys | xmain.c:710-1454 | the same for the KeySyms from 0x80: Return and the editing, function and modifier keys |
| AceKeySwitch.PressThenReleaseRestores | xmain.c:710-1454 | from a clear keyboard, pressing then releasing any key leaves every row 0xFF |
| AceKeySwitch.PressClearsReleaseSets | xmain.c:710-1454 | a press only clears bits and a release only sets them |
| AceKeySwitch.CapitalAExample | xmain.c:920-924 | pressing `A` clears bit 0 of rows 0 and 1 |
| AceHost.FlagProtocol | xmain.c:97-101 | signals and services keep the flag in {0, 1, 2}, and never create or undo a pending reset |
| AceHost.SignalAndService | xmain.c:97-101 | a signal leaves a tick or reset pending; a service turns 1 into 0 and leaves 2 (xmain.c:417-420) |
| AceHost.ResetKeyEffect | xmain.c:743-748 | F12 sets the flag to 2, fills RAM with 0xFF, clears the keyboard and keeps the ROM |
| AceHost.EscapeQuits | xmain.c:728-730 | Escape ends the emulator without changing any state |
| AceHost.EventsKeepCounters | xmain.c:1457-1493 | key events never touch the T-states, `tsmax`, `scrn_freq` or the counter; without F12 they keep memory and flag |
| AceHost.CountStaysBelow | xmain.c:408-413 | the refresh counter stays in 0..scrn_freq-1 |
| AceHost.FirstRefresh | xmain.c:408-413 | the first scrn_freq-1 services only count, and service scrn_freq refreshes |
| AceHost.RefreshEveryNth | xmain.c:408-413 | the counter repeats with period scrn_freq, so every scrn_freq-th service refreshes |
| AceHost.ServiceClearsTick | xmain.c:406-421 | a service never leaves a tick pending; it keeps a pending reset; without F12 the flag ends at 0 |
| AceHost.EventsFlag | xmain.c:1457-1493 | key events either keep the flag or set it to 2 (a reset) |
| AceHost.PatchedCorrect | xmain.c:193-203 | the patches write ED FC C9 at 0x18A7 and ED FD C9 at 0x1820 and no other byte |
| AceHost.ScreenFrequency | xmain.c:135-137 | a single argument replaces `scrn_freq`, and the result is clamped to 1..50 |
| AceHost.Host.In | xmain.c:206-223 | port 0xFE with a row-select high byte reads that row; any other port or high byte reads 255 |
| AceHost.Host.Out | xmain.c:226-230 | `out` returns 0 |
| AceHost.Host.ClearKeyboard | xmain.c:692-702 | all eight rows become 0xFF |
| AceHost.Host.ProcessKeypress | xmain.c:710-1094 | the press switch on the rows, proved against KeypressEffect |
| AceHost.Host.ProcessKeyrelease | xmain.c:1097-1454 | the release switch on the rows, proved against Released |
| AceHost.Host.HandleEvent | xmain.c:1485-1488 | one key event on the rows and the flag, proved against EventEffect |
| AceHost.Host.CheckEvents | xmain.c:1457-1493 | the key events in order, proved against EventsEffect |
| AceHost.Host.SigHandler | xmain.c:97-101 | the flag after a signal, and nothing else changes |
| AceHost.Host.DoInterrupt | xmain.c:406-421 | the service, proved against Serviced; a refresh happens exactly when it is due |
| AceHost.Host.FixTstates | xmain.c:399-403 | `tstates` becomes 0 and nothing else changes |
| AceHost.Host.Patches | xmain.c:193-203 | the patches on the memory array |
| AceHost.Host.Startup | xmain.c:129-137 | patches, RAM fill and the `scrn_freq` clamp of `main` |
| KeyMatrix.RowSelectInjective | xmain.c:206-223 | different rows are selected by different high bytes |
| KeyMatrix.RowSelectValues | src/xmain.c:331-342 | the row-select bytes are FE, FD, FB, F7, EF, DF, BF, 7F, and these are the only ones |
| Keyboard.LookupIsFirstMatch | src/keyboard.c:171-188 | the lookup finds an entry exactly when one has the KeySym, and then it finds the first one |
| Keyboard.LookupAppend | src/keyboard.c:171-188 | looking up in a concatenated table tries the first part, then the second |
| Keyboard.LookupAt | src/keyboard.c:171-188 | the lookup returns entry i when it is the first with the KeySym |
| Keyboard.LookupMiss | src/keyboard.c:171-188 | the lookup fails when no entry has the KeySym |
| Keyboard.GetKeyResponse | src/keyboard.c:171-188 | the stride-five scan reports "found" exactly when the lookup succeeds, and then the entry's ports and masks |
| Keyboard.PressRow | src/keyboard.c:199-203 | after a press, a row is ANDed with the entry's masks for the ports equal to it and is otherwise unchanged |
| Keyboard.ReleaseRow | src/keyboard.c:216-220 | after a release, a row is ORed with the complements of the masks for the ports equal to it |
| Keyboard.PressEntryOnlyClears | src/keyboard.c:199-203 | pressing an entry only clears bits, and only in its two ports |
| Keyboard.ReleaseEntryOnlySets | src/keyboard.c:216-220 | releasing an entry only sets bits, and only in its two ports |
| Keyboard.PressOnlyClears | src/keyboard.c:190-205 | a press only clears bits; only the entry's ports change; an unknown key changes nothing |
| Keyboard.ReleaseOnlySets | src/keyboard.c:207-222 | a release only sets bits; only the entry's ports change; an unknown key changes nothing |
| Keyboard.ReleaseEntryUndoesPress | src/keyboard.c:200-219 | on a clear keyboard, releasing an entry undoes pressing it |
| Keyboard.PressThenReleaseRestores | src/keyboard.c:190-222 | from a clear keyboard, pressing then releasing any key leaves every port 0xFF |
| Keyboard.ExampleResponses | src/keyboard.c:42-155 | the table entries of 7, u, e, f, n, Tab, `*` and `A`, and no entry for Sys_Req |
| Keyboard.SeveralKeysExample | tests/keyboard_test.c:124-150 | pressing 7, u, e, f, n from clear gives {ff,f7,fb,ff,f7,f7,ff,fb} |
| Keyboard.SingleKeyExamples | tests/keyboard_test.c:109-166 | Tab, `*` and `A` on a clear keyboard give the test's port bytes |
| Keyboard.UnknownKeyExample | tests/keyboard_test.c:168-182 | Sys_Req is not in the table, so pressing it changes no port |
| Keyboard.Keyboard.Clear | src/keyboard.c:163-169 | all eight ports become 0xFF |
| Keyboard.Keyboard.ProcessKeypressKeyports | src/keyboard.c:190-205 | reports whether the key is in the table; the ports become Pressed |
| Keyboard.Keyboard.ProcessKeyreleaseKeyports | src/keyboard.c:207-222 | reports whether the key is in the table; the ports become Released |
| Keyboard.Keyboard.Keyrelease | src/keyboard.c:237-247 | a known key is released as above; an unknown key clears the whole keyboard |
| Spooler.NextChar | src/spooler.c:77-78 | `fgetc` returns EOF exactly at the end of the file, and a byte otherwise |
| Spooler.AfterInit | src/spooler.c:36-45 | after `spooler_init` the spooler is inactive |
| Spooler.OpenStartsReplay | src/spooler.c:47-54 | a successful open goes to READ_CHAR at the first character, reports OPENED and clears the keyboard |
| Spooler.OpenFailureKeepsSpool | src/spooler.c:55-57 | a failed open reports OPEN_ERROR and changes nothing else (corrected form) |
| Spooler.OpenKeepsValid | src/spooler.c:47-58 | either way, opening keeps the invariant |
| Spooler.OpenAgreesWhenHarmless | src/spooler.c:47-58 | when `fopen` succeeds, or the spooler is idle without a file, the corrected open equals the code as written |
| Spooler.CloseOnlyWhenActive | src/spooler.c:60-70 | closing an active spooler clears the keyboard, reports CLOSED and goes inactive; otherwise nothing happens; closing is idempotent |
| Spooler.ReadsWhenInactive | src/spooler.c:85-98 | reads of an inactive spooler make no callback and change nothing |
| Spooler.ClearReadResumes | src/spooler.c:93-96 | a read in CLEAR_CHAR clears the keyboard and returns to READ_CHAR |
| Spooler.ReplayedCalls | src/spooler.c:72-96 | the replay presses character i with key state 0 at call 2i and clears the keyboard at call 2i+1 |
| Spooler.TwoReads | src/spooler.c:85-96 | two reads from READ_CHAR press the next character and then clear |
| Spooler.ReplayFrom | src/spooler.c:72-98 | from READ_CHAR at position p, the rest of the file is pressed in order; one more read closes the spooler |
| Spooler.ReplayWholeFile | tests/spooler_test.c:114-167 | for n characters, reads 1..2n alternate press and clear, read 2n+1 closes with CLOSED, and later reads do nothing |
| Spooler.AfterRead | src/spooler.c:85-98 | a read keeps the invariant: an active spooler has an open file with its position inside it |
| Spooler.Reads | src/spooler.c:85-98 | any number of reads keep that invariant |
| Spooler.OpenFailureWhileActiveLosesFile | src/spooler.c:50-57 | as written, a failed open while a spool is running leaves the spooler active without a file |
| Spooler.Spooler.Init | src/spooler.c:36-45 | `spooler_init` on the statics, proved against AfterInit |
| Spooler.Spooler.IsActive | src/spooler.c:100-104 | true exactly when the state is not INACTIVE |
| Spooler.Spooler.Open | src/spooler.c:47-58 | the corrected `spooler_open` on the statics and the call trace, proved against AfterOpen |
| Spooler.Spooler.Close | src/spooler.c:60-70 | `spooler_close`, proved against AfterClose |
| Spooler.Spooler.ReadNextChar | src/spooler.c:72-83 | `spooler_read_char`, proved against AfterReadChar |
| Spooler.Spooler.Read | src/spooler.c:85-98 | `spooler_read`, proved against AfterRead; it keeps the invariant |
| Tape.WordBytes | src/tape.c:46-47 | `low_byte` and `high_byte` of a 16-bit size rebuild the size |
| Tape.CalcChecksum | src/tape.c:352-364 | the XOR loop computes Checksum, the XOR fold, which is 0 for no data |
| Tape.ChecksumAppend | src/tape.c:352-364 | the checksum of a concatenation is the XOR of the two checksums |
| Tape.ChecksumCancels | src/tape.c:352-364 | data followed by its checksum has checksum 0 |
| Tape.BlockLayout | src/tape.c:334-342 | a saved block is n+3 bytes: size n+1 little-endian, the data, then its checksum |
| Tape.WrittenLayout | src/tape.c:337-340 | writing puts the bytes at the position, keeps what is before them and advances the position |
| Tape.WrittenTwice | src/tape.c:337-340 | two writes in a row are one write of both byte strings |
| Tape.WrittenInPieces | src/tape.c:337-340 | the four writes of `tape_save_block` are one write of the whole block |
| Tape.WrittenBlock | src/tape.c:334-342 | after saving, the file holds the block bytes at the old position |
| Tape.TruncatedThenWritten | src/tape.c:207-215 | truncating and then writing two blocks leaves the old prefix followed by the blocks |
| Tape.LoadsBlockAt | src/tape.c:300-316 | loading a well-formed block copies exactly its data bytes to `dest` and moves past the checksum |
| Tape.BlockFields | src/tape.c:300-316 | a block in a file holds its size field, then its data, at the offsets the loader reads |
| Tape.SkipsBlockAt | src/tape.c:318-332 | skipping a block moves the position past it, by 2 + size |
| Tape.SaveThenLoad | src/tape.c:300-342 | a block written by `tape_save_block` loads back as exactly the saved bytes |
| Tape.SaveThenSkip | src/tape.c:318-342 | a block written by `tape_save_block` is skipped whole |
| Tape.CopiedLayout | src/tape.c:296 | a copy into memory changes exactly the bytes at `dest..dest+n` |
| Tape.CopyInto | src/tape.c:296 | the copy loop, proved against Copied |
| Tape.BuiltInLaidOut | src/tape.c:49-88 | both empty tapes are a 26-byte header block at 0 and a data block at 28 that ends inside the table |
| Tape.TableLayout | src/tape.c:49-88 | the empty tapes' block sizes, positions and the name "other" at bytes 3..12 |
| Tape.DictName | src/tape.c:67-88 | bytes 3..12 of `empty_dict` are the name "other" |
| Tape.DictLayout | src/tape.c:67-88 | `empty_dict` is 74 bytes, with its header size, data size and checksum where the loader expects them |
| Tape.BytesLayout | src/tape.c:49-65 | `empty_bytes` is 799 bytes, with its two block sizes where the loader expects them |
| Tape.EmptyBlockLoaded | src/tape.c:289-298 | the corrected empty-tape load moves the cursor past the block |
| Tape.EmptyBlockLoadedAsWritten | src/tape.c:289-298 | as written, the empty-tape load moves the cursor past the block |
| Tape.EmptyDataOverrunsBlock | src/tape.c:289-298 | as written, loading `empty_dict`'s data block copies its 43rd byte, the checksum 0xFF, into memory, unlike the corrected load |
| Tape.EmptyBlockLoadsData | src/tape.c:289-298 | the corrected empty-tape load copies exactly the block's size-1 data bytes, as a file load does |
| Tape.Extracted | src/tape.c:279-287 | the extracted name has 11 bytes and ends with a NUL |
| Tape.ExtractedName | src/tape.c:279-287 | the name `strcmp` sees is the stored name up to its first blank or NUL, at most ten characters |
| Tape.CStringPrefix | src/tape.c:176 | the C string is the prefix before the first NUL |
| Tape.CStringStops | src/tape.c:176 | the C string ends at the first NUL |
| Tape.EmptyTapeIsOther | src/tape.c:49-88 | loading the empty tape's header block as written yields the file name "other" |
| Tape.ExtractFilename | src/tape.c:279-287 | the extraction loop, proved against Extracted |
| Tape.BlockLoaded | src/tape.c:300-316 | a load keeps the mode and the tape kind; on the empty tape the cursor goes from 0 to 28 and from 28 to the end |
| Tape.BlockSkipped | src/tape.c:318-332 | a skip keeps the mode; on the empty tape the cursor moves to the next block boundary |
| Tape.LoadStepKeepsValid | src/tape.c:155-190 | every `tape_load_p` keeps the deck valid, so the empty tape is never read outside its table (src/tape.c:248-298) |
| Tape.LoadStepAlternates | src/tape.c:155-190 | a data load returns to header mode; in header mode, observers hear "found" exactly when the deck switches to data mode; the end of tape is reported first |
| Tape.SearchingStep | src/tape.c:162-168 | before the end of the tape, a load in header mode is a header search |
| Tape.HeaderSearchFinds | src/tape.c:168-182 | a header block with the requested name is loaded to `dest`, and the deck moves past it into data mode |
| Tape.HeaderMatchedFinds | src/tape.c:174-182 | a matching name gives data mode, the header in memory and a single "found" message |
| Tape.FileBlockStep | src/tape.c:300-316 | loading from a file that holds a block moves past it |
| Tape.ExtractedCopied | src/tape.c:174-175 | the name extracted from memory after a header load is the one in the header |
| Tape.DataLoadLoads | src/tape.c:183-187 | a data load copies the block's data and returns to header mode (tests/tape_test.c:86-160) |
| Tape.SaveWritesFile | src/tape.c:192-217 | a header save then a data save truncate at the old position and leave the file ending with the two blocks (tests/tape_test.c:189-237) |
| Tape.SaveWithoutTape | src/tape.c:199-205 | with no tape, only the first save reports and stops expecting a header; later saves are silent |
| Tape.AttachOpens | src/tape.c:125-143 | attach detaches first, then opens an existing image at its start or creates an empty one; only a failed attach leaves no tape, and it reports an error |
| Tape.DeliveredAppend | src/tape.c:242-245 | notifying twice delivers the two notes in order to the same observers |
| Tape.NoticesAppended | src/tape.c:219-246 | two rounds of notices make one delivery of both note lists |
| Tape.Delivered | src/tape.c:219-246 | each note reaches every registered observer, in order |
| Tape.TapeDeck.AddObserver | src/tape.c:99-104 | an observer is added while fewer than the maximum are registered, and ignored otherwise |
| Tape.TapeDeck.ClearObservers | src/tape.c:106-110 | no observer remains |
| Tape.TapeDeck.Notify | src/tape.c:219-246 | the note carries whether a tape is attached and the file or empty-tape position |
| Tape.TapeDeck.Patches | src/tape.c:112-123 | ED FC C9 at 0x18A7 and ED FD C9 at 0x1820, and no other byte |
| Tape.TapeDeck.Detach | src/tape.c:145-153 | `tape_detach`, proved against DetachStep |
| Tape.TapeDeck.Attach | src/tape.c:125-143 | `tape_attach`, proved against AttachStep; the result says whether a tape is attached |
| Tape.TapeDeck.Rewind | src/tape.c:266-273 | `tape_rewind_to_start` |
| Tape.TapeDeck.AttachEmptyTape | src/tape.c:248-258 | load type 0 chooses the dictionary, any other the bytes, with the cursor at 0 |
| Tape.TapeDeck.LoadEmptyTapeBlock | src/tape.c:289-298 | the empty-tape load on the deck as written, `block_size` bytes copied, proved against EmptyBlockLoadedAsWritten |
| Tape.TapeDeck.LoadBlock | src/tape.c:300-316 | `tape_load_block`, proved against BlockLoaded |
| Tape.TapeDeck.SkipBlock | src/tape.c:318-332 | `tape_skip_block`, proved against BlockSkipped |
| Tape.TapeDeck.LoadP | src/tape.c:155-190 | `tape_load_p`, proved against LoadStep, with every note delivered to the observers |
| Tape.TapeDeck.LoadInMode | src/tape.c:168-187 | the header or data branch of `tape_load_p`, proved against LoadMode |
| Tape.TapeDeck.RewindAtEnd | src/tape.c:162-166 | at the end of the tape: rewind, notify EOT, and report the rewind |
| Tape.TapeDeck.SearchHeader | src/tape.c:168-182 | the header search, proved against HeaderSearch |
| Tape.TapeDeck.MatchHeader | src/tape.c:174-182 | the name comparison after a header load, proved against HeaderMatched |
| Tape.TapeDeck.CompareNames | src/tape.c:176-182 | a different name skips the data block; the same name switches to data mode; each reports its note |
| Tape.TapeDeck.LoadData | src/tape.c:183-187 | the data branch, proved against DataLoad |
| Tape.TapeDeck.SaveBlock | src/tape.c:334-342 | the file gains the block's bytes at the position |
| Tape.TapeDeck.Truncate | src/tape.c:344-350 | the file ends at the position |
| Tape.TapeDeck.SaveP | src/tape.c:192-217 | `tape_save_p`, proved against SaveStep |
| Emulator.SigintOnlyFromIdle | src/xmain.c:89-93 | a tick changes the flag only from 0, to 1; ticks arriving while it is 1 or 2 are lost |
| Emulator.TimerPeriod | src/xmain.c:105-116 | the programmed period is below one second and a whole number of milliseconds |
| Emulator.TimerPeriods | src/xmain.c:105-116 | 50 ticks a second give 20000 µs and 1000 give 1000 µs; the period is whole milliseconds |
| Emulator.NormalSpeedSet | src/xmain.c:118-124 | normal speed: `tsmax` 62500, `scrn_freq` 4, 50 ticks a second, nothing else changed |
| Emulator.FastSpeedSet | src/xmain.c:126-132 | full speed: `tsmax` ULONG_MAX, `scrn_freq` 4, 1000 ticks a second, nothing else changed |
| Emulator.F12Resets | src/xmain.c:268-273 | F12 sets `reset_ace`, fills RAM with 0xFF, keeps the ROM and clears the keyboard |
| Emulator.CtrlQQuits | src/xmain.c:248-254 | q quits exactly when Control is held, and otherwise it is an ordinary key |
| Emulator.CharactersAreOrdinaryKeys | src/xmain.c:247-274 | no byte pressed with key state 0 is one of the emulator's own keys |
| Emulator.KeyPressed | src/keyboard.c:225-234 | a press never changes the counter, the flag, the T-states or the spooler |
| Emulator.KeyReleased | src/keyboard.c:237-247 | a release never changes the spooler |
| Emulator.CallDone | src/xmain.c:165-182 | one spooler callback never changes the counter, the flag, the T-states or the spooler |
| Emulator.CallsDone | src/xmain.c:165-182 | the same for a list of callbacks |
| Emulator.ReadMakesReplayCalls | src/spooler.c:85-98 | every callback a spooler read makes is a CLOSED notice, a keyboard clear or a press with key state 0 |
| Emulator.ReplayCallsHarmless | src/spooler.c:72-96 | the spooler's callbacks never quit or reset the emulator, and never touch the memory or counters |
| Emulator.SpoolerReadHarmless | src/xmain.c:373 | a spooler read changes only the ports, the speed settings and the spooler |
| Emulator.EventsIgnoredWhileSpooling | src/xmain.c:577-590 | while the spooler is active, key events change nothing |
| Emulator.EventDone | src/xmain.c:577-590 | one key event never changes the counter, the flag, the T-states or the spooler |
| Emulator.EventsDone | src/xmain.c:577-590 | the same for a queue of key events |
| Emulator.ServiceProtocol | src/xmain.c:362-381 | only a pending tick is serviced; the counter and the refresh follow the 1-in-`scrn_freq` rule; a refreshing tick does one `spooler_read` and any other tick leaves the spooler as it was; the flag ends at 0 |
| Emulator.ServiceIgnoresKeysWhileSpooling | src/xmain.c:362-381 | while the spooler stays active, a service does the same whatever keys were pressed |
| Emulator.CliIgnoresPlainArguments | src/xmain.c:184-205 | arguments that are not switches cause no action |
| Emulator.CliActionsFromArguments | src/xmain.c:184-205 | each spool file follows a switch; only `-S` goes fast; only a final switch lacks a file name |
| Emulator.CliExample | src/xmain.c:190-203 | a file name that looks like a switch is still opened, and a final switch reports a missing name |
| Emulator.CliAllDoneAppend | src/xmain.c:190-204 | doing the actions of two parts of the command line is doing the first, then the second |
| Emulator.Host.In | src/xmain.c:328-344 | port 0xFE with a row-select high byte reads that keyboard port; everything else reads 255 |
| Emulator.Host.Out | src/xmain.c:347-351 | `out` returns 0 |
| Emulator.Host.SigintHandler | src/xmain.c:89-93 | the flag after a tick, and nothing else changes |
| Emulator.Host.NormalSpeed | src/xmain.c:118-124 | `normal_speed` on the globals, proved against NormalSpeedSet |
| Emulator.Host.FastSpeed | src/xmain.c:126-132 | `fast_speed` on the globals, proved against FastSpeedSet |
| Emulator.Host.FixTstates | src/xmain.c:354-359 | `tstates` becomes 0 and nothing else changes |
| Emulator.Host.EmuKeyHandler | src/xmain.c:241-275 | F12 requests the reset; Ctrl-Q reports the quit; other keys change nothing |
| Emulator.Host.KeyPress | src/keyboard.c:225-234 | the table's masks go into the ports, then `emu_key_handler` sees the key |
| Emulator.Host.KeyRelease | src/keyboard.c:237-247 | `keyboard_keyrelease` on the host's keyboard |
| Emulator.Host.Calls | src/xmain.c:165-182 | the spooler's callbacks, in order, through `spooler_observer`, `keyboard_clear` and `keyboard_keypress` |
| Emulator.Host.Call | src/xmain.c:165-182 | one callback on the host, proved against CallDone |
| Emulator.Host.SpoolerRead | src/spooler.c:85-98 | `spooler_read`, then its callbacks |
| Emulator.Host.SpoolerOpen | src/spooler.c:47-58 | the corrected `spooler_open`, then its callbacks |
| Emulator.Host.CheckEvents | src/xmain.c:577-590 | the key events in order, ignored while spooling, up to a quit |
| Emulator.Host.Event | src/xmain.c:577-590 | one key event on the host, proved against EventDone |
| Emulator.Host.DoInterrupt | src/xmain.c:362-381 | `do_interrupt`, proved against Serviced |
| Emulator.Host.HandleCliArgs | src/xmain.c:184-205 | the argument loop does exactly the actions of CliActions, in order, with the corrected `spooler_open` |
| Emulator.Host.CliSwitch | src/xmain.c:192-202 | one switch: full speed for `-S`, then a spool from the next argument if there is one, opened with the corrected `spooler_open` |

## Left out

- The X11 code: the display, window and image setup, `refresh`, the pixel routines and `closedown`. `check_events` is modelled only for its key events; its other cases touch the window alone.
- The `refresh_screen` flag and the saved video RAM. A refresh is reported, not drawn.
- Signal delivery, `sigaction`, `setitimer` and `raise`. A timer tick is an environment input between loop iterations. `set_itimer` is modelled as the period it programs.
- `pause()` in the older `fix_tstates` is modelled by Z80.Budgeted as returning once the next tick has arrived. In src/xmain.c the wait is not modelled: Emulator.Host.FixTstates only zeroes the count.
- `sigquit_handler` and `dontpanic` end the process. They are modelled as the `quit` result; their `tape_detach` and `closedown` calls are not modelled.
- `loadrom`, and the older `save_p`/`load_p` of `xmain.c`: file I/O that `src/tape.c` replaces.
- `main` and `setup_sighandlers` of `src/xmain.c`, beyond the static initialisers.
- The opcode bodies and `push2`, which live in `z80ops.c`; z80ops.c is not part of this model.
  - An instruction is an abstract effect.
  - `push2` is taken to be `sp -= 2` followed by `store2(sp, pc)`, the word store as written.
- AceMemory.Memory.Store2: at 0xFFFF the C macro writes the high byte one past `mem`; the model drops that byte.
- The src/ CPU loop that reads `reset_ace` is not part of this model. The Emulator's `do_interrupt` is modelled on its own, apart from `z80.c`.
- Z80.MainLoop: `mainloop` runs `while(1)`; the model runs one iteration per step of a finite environment script, and stops early on a quit.
- Z80.Sample: when `iff1` is set, `do_interrupt` runs and `pc` is pushed before the reset check (z80.c:77-89). A reset that follows a taken interrupt therefore still writes the return address at `sp - 2`. The model keeps that order.
- `XLookupString`: the KeySym is an input. The non-Ace key handler of `keyboard_keypress` is fixed to `emu_key_handler`.
- Emulator.Host.EmuKeyHandler: F3 and F11 prompt on standard input for a file name and then attach a tape or open a spool file. The model leaves the state unchanged for them, because it has no standard input. It also leaves out the stderr message for a missing command-line file name.
- The `SPOOLING_HOOK` F11 case of the older `process_keypress`, which is compiled out by default.
- `printf`/`fprintf` in the observers, and the message texts built by `sprintf`.
  - A tape note records its message type, the reason, whether a tape is attached, and the position.
  - The `tape_filename` string and the file names inside messages are not modelled.
  - Observers are identified by number. Their output is not modelled; a delivered notice records the observers that received it.
- `spooler_observer` is modelled only for the speed change on CLOSED; its printing is not.
- `fopen`, `fread`, `fgetc`, `fseek`, `ftell`, `ftruncate`, `fputc`, `fwrite` and `fflush` are modelled on a byte sequence with a position and an end-of-file flag.
  - Writes always succeed, and buffering is not modelled.
  - A failing `ftruncate`, and its "Couldn't truncate file." error, is not modelled.
  - What `fopen` can open is given as a parameter: the `files` map, or the `existing`, `creatable` and `found` arguments.
- Tape bytes are integers 0..255, and `tape_load_p`'s memory is a sequence of them, separate from AceMemory's `bv8` memory. The ROM traps that call `tape_load_p`/`tape_save_p` are opcode bodies and are not shown.
- Tape.TapeDeck.LoadP: requires `dest + 11 <= 65536`, so that the loaded name can be read back. The C code does not check this.
- Tape.CopyInto: bytes that would land past the end of memory are dropped, whereas C would write past the array.
- Tape.ExtractFilename: requires the two buffers to be distinct arrays; in C they are different objects too.
- The empty tapes are carried as a value in the deck. It is set from the built-in tables by the constructor, and Tape.BuiltInLaidOut proves that the value is those tables.
- Spooler.Spooler.Open: models the corrected `spooler_open`, in which a failed `fopen` keeps a running spool's file. As written the spool stays active with a NULL file, and the next read calls `fgetc(NULL)`, whose behaviour C leaves undefined; Spooler.AfterOpenAsWritten states that state.
- Emulator.SpoolerOpened: built on the corrected `spooler_open`, for the same reason.
- Emulator.CliDone: a `-s` argument opens its file with the corrected `spooler_open`; `xace -s a.txt -s missing` keeps spooling a.txt, where the C code would go on with a NULL file.
- Emulator.Host.SpoolerOpen: proved against the corrected `spooler_open`.
- Emulator.Host.HandleCliArgs: proved against CliDone, so it uses the corrected `spooler_open`.
- Emulator.Host.CliSwitch: proved against CliDone, so it uses the corrected `spooler_open`.
- Spooler.Spooler.Open: the callbacks are appended to the trace after the spooler's own statics are updated. In C, `spooler_close` calls `clear_keyboard` before it clears the state. No callback of the emulator reads the spooler's state.
- `ULONG_MAX` is taken as the 64-bit value.
- `src/keyboard.h`, `src/spooler.h`, `src/tape.h` and `tape.h` only declare what the C files define.

## Findings

| source | as written | input that shows it | evidently intended | confidence | as-written member | corrected member |
|---|---|---|---|---|---|---|
| z80.h:59-83 | `store2b` chooses the images of both bytes from x's range alone, and checks only x's bank | x = 0x23FF: the high byte lands at 0x2400 but not at its twin 0x2000, so a mirrored memory stops being mirrored. x = 0x1FFF: nothing is written, although 0x2000 is RAM | two byte stores, each with its own bank check and its own images | not executed; high for the aliasing | AceMemory.Stored2bBreaksMirror, Z80.RunBreaksMirror | AceMemory.StoredWordKeepsMirrored |
| src/spooler.c:47-58 | the result of `fopen` is stored in `spooler_file` before the code looks at it | a failed open while a spool is active leaves the state active with a NULL file, and the next read calls `fgetc(NULL)` | keep the running spool when the new file cannot be opened | not executed; high | Spooler.OpenFailureWhileActiveLosesFile | Spooler.OpenKeepsValid |
| src/tape.c:289-298 | the empty-tape load copies `block_size` bytes, one more than a file load (src/tape.c:310) | loading the data block of `empty_dict` at `dest` writes its checksum 0xFF into `dest + 42` | copy `block_size - 1` data bytes, as the file path does | not executed; medium | Tape.EmptyDataOverrunsBlock | Tape.EmptyBlockLoadsData |
