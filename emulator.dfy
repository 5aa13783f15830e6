/**
 * The emulator's host side in src/xmain.c: the timer-signal flag and its
 * service routine, the two speed settings, the keyboard port decoder, the
 * emulator's own keys, the command-line scan, and the wiring that lets the
 * spooler type on the keyboard. The X11 window is left out; a screen
 * refresh is reported, not drawn.
 */
module Emulator {
  import opened Optional
  import opened KeyMatrix
  import opened AceMemory
  import Keyboard
  import Spooler
  import KeySym
  import AceHost

  /** The values of `interrupted`: no interrupt, a tick pending, a tick being processed. */
  const NoInterrupt := 0
  const Interrupted := 1
  const Processing := 2

  /** `tsmax` at normal speed, and `ULONG_MAX` of a 64-bit `unsigned long` for full speed. */
  const NormalTsmax: nat := 62500
  const UlongMax: nat := 0xFFFF_FFFF_FFFF_FFFF

  /** X11's `ControlMask`: bit 2 of a key event's modifier state. */
  const ControlMask := 4

  /** The KeySym of the lower-case letter q. */
  const SmallQ := 0x71

  // ---------------------------------------------------------------------
  // The timer signal

  /** `sigint_handler`: a tick is noted only when nothing is pending or being processed. */
  function AfterSigint(interrupted: int): int
  {
    if interrupted == NoInterrupt then Interrupted else interrupted
  }

  /** A tick changes the flag only from 0 to 1; ticks arriving while it is 1 or 2 are lost. */
  lemma SigintOnlyFromIdle(interrupted: int)
    ensures AfterSigint(interrupted) != interrupted <==> interrupted == NoInterrupt
    ensures AfterSigint(interrupted) != NoInterrupt
    ensures AfterSigint(AfterSigint(interrupted)) == AfterSigint(interrupted)
  {
  }

  /** `set_itimer(n)`: the timer period in microseconds, from the whole milliseconds in 1000 / n. */
  function TimerPeriod(intsPerSec: int): (usec: int)
    requires intsPerSec >= 1
    ensures 0 <= usec < 1000000 && usec % 1000 == 0
  {
    ((1000 / intsPerSec) % 1000) * 1000
  }

  /**
   * Normal speed ticks every 20 ms and full speed every 1 ms; a rate of one
   * per second, or more than 1000 per second, gives a period of 0, which
   * stops the timer instead.
   */
  lemma TimerPeriods(n: int)
    requires n >= 1
    ensures TimerPeriod(50) == 20000 && TimerPeriod(1000) == 1000
    ensures 1 < n <= 1000 && 1000 % n == 0 ==> TimerPeriod(n) * n == 1000000
    ensures (n == 1 || n > 1000) ==> TimerPeriod(n) == 0
  {
    if 1 < n <= 1000 && 1000 % n == 0 {
      var q := 1000 / n;
      assert q * n == 1000;
      assert q <= 500 by {
        assert q * 2 <= q * n;
      }
      assert TimerPeriod(n) == q * 1000;
    }
  }

  // ---------------------------------------------------------------------
  // The host's globals as a value

  /**
   * The globals of src/xmain.c the model tracks, with the keyboard ports of
   * src/keyboard.c and the spooler of src/spooler.c: `period` is the timer
   * period `set_itimer` last set (0 before the first call).
   */
  datatype HostState = HostState(
    ports: seq<bv8>, mem: seq<bv8>, spool: Spooler.Spool,
    interrupted: int, resetAce: int, tstates: nat, tsmax: nat,
    scrnFreq: int, count: int, period: int)
  {
    ghost predicate Valid()
    {
      |ports| == 8 && |mem| == MemSize && Spooler.Valid(spool)
    }
  }

  /** A state together with whether Ctrl-Q ended the process (`raise(SIGQUIT)` does not return). */
  datatype Outcome = Outcome(host: HostState, quit: bool)

  /** `normal_speed`: 50 ticks a second, refresh every 4th, 62500 T-states per tick. */
  function NormalSpeedSet(h: HostState): (r: HostState)
    ensures r.period == 20000 && r.scrnFreq == 4 && r.tsmax == NormalTsmax
    ensures r.(period := h.period, scrnFreq := h.scrnFreq, tsmax := h.tsmax) == h
  {
    TimerPeriods(50);
    h.(period := TimerPeriod(50), scrnFreq := 4, tsmax := NormalTsmax)
  }

  /** `fast_speed`: 1000 ticks a second, refresh every 4th, no T-state budget. */
  function FastSpeedSet(h: HostState): (r: HostState)
    ensures r.period == 1000 && r.scrnFreq == 4 && r.tsmax == UlongMax
    ensures r.(period := h.period, scrnFreq := h.scrnFreq, tsmax := h.tsmax) == h
  {
    TimerPeriods(1000);
    h.(period := TimerPeriod(1000), scrnFreq := 4, tsmax := UlongMax)
  }

  // ---------------------------------------------------------------------
  // Keys

  /** What `emu_key_handler` does for a key (F3 and F11 prompt on standard input for a file name). */
  datatype EmuAction = NoAction | Quit | AttachTape | OpenSpool | Reset

  /** `emu_key_handler`'s switch: Ctrl-Q quits, F3 attaches a tape, F11 opens a spool file, F12 resets. */
  function EmuKeyAction(ks: int, keyState: int): EmuAction
  {
    if ks == SmallQ then (if (keyState / ControlMask) % 2 == 1 then Quit else NoAction)
    else if ks == KeySym.F3 then AttachTape
    else if ks == KeySym.F11 then OpenSpool
    else if ks == KeySym.F12 then Reset
    else NoAction
  }

  /** F12: ask the CPU loop for a reset, fill the RAM with 0xFF and release every key. */
  function ResetRequested(h: HostState): (r: HostState)
    requires h.Valid()
    ensures r.Valid()
  {
    h.(resetAce := 1, mem := RamFilled(h.mem), ports := AllUp)
  }

  /** `keyboard_keypress`: the table's masks go into the ports, then `emu_key_handler` sees the key. */
  function KeyPressed(h: HostState, ks: int, keyState: int): (o: Outcome)
    requires h.Valid()
    ensures o.host.count == h.count && o.host.interrupted == h.interrupted && o.host.tstates == h.tstates
    ensures o.host.Valid() && o.host.spool == h.spool
  {
    var h1 := h.(ports := Keyboard.Pressed(h.ports, ks));
    match EmuKeyAction(ks, keyState)
    case Quit => Outcome(h1, true)
    case Reset => Outcome(ResetRequested(h1), false)
    case _ => Outcome(h1, false)
  }

  /** `keyboard_keyrelease`. */
  function KeyReleased(h: HostState, ks: int): (r: HostState)
    requires h.Valid()
    ensures r.Valid() && r.spool == h.spool
  {
    h.(ports := Keyboard.KeyReleased(h.ports, ks))
  }

  /** F12 requests a reset, fills RAM with 0xFF, leaves the ROM alone and releases every key. */
  lemma F12Resets(h: HostState, keyState: int)
    requires h.Valid()
    ensures var o := KeyPressed(h, KeySym.F12, keyState);
            !o.quit && o.host.resetAce == 1 && o.host.ports == AllUp &&
            o.host.mem[..0x2000] == h.mem[..0x2000] &&
            (forall i :: 0x2000 <= i < MemSize ==> o.host.mem[i] == 0xff) &&
            o.host.interrupted == h.interrupted && o.host.tstates == h.tstates
  {
    RamFilledCorrect(h.mem);
  }

  /** q quits exactly when Control is held; otherwise it is an ordinary key. */
  lemma CtrlQQuits(h: HostState, keyState: nat)
    requires h.Valid()
    ensures KeyPressed(h, SmallQ, keyState).quit <==> (keyState / 4) % 2 == 1
    ensures KeyPressed(h, SmallQ, 0) == Outcome(h.(ports := Keyboard.Pressed(h.ports, SmallQ)), false)
  {
  }

  /** No character of a file, pressed with key state 0, is one of the emulator's own keys. */
  lemma CharactersAreOrdinaryKeys(c: int)
    requires 0 <= c < 256
    ensures EmuKeyAction(c, 0) == NoAction
  {
  }

  // ---------------------------------------------------------------------
  // The spooler's callbacks

  /**
   * One callback of the spooler as `main` wires it: the observer
   * (`spooler_observer`, which goes back to normal speed when the file is
   * closed), `keyboard_clear`, and `keyboard_keypress`.
   */
  function CallDone(h: HostState, c: Spooler.Call): (o: Outcome)
    requires h.Valid()
    ensures o.host.count == h.count && o.host.interrupted == h.interrupted && o.host.tstates == h.tstates
    ensures o.host.Valid() && o.host.spool == h.spool
  {
    match c
    case Observe(m) => Outcome(if m == Spooler.Closed then NormalSpeedSet(h) else h, false)
    case ClearKeyboard => Outcome(h.(ports := AllUp), false)
    case Keypress(ks, keyState) => KeyPressed(h, ks, keyState)
  }

  /** The callbacks in order, up to one that ends the process. */
  function CallsDone(h: HostState, calls: seq<Spooler.Call>): (o: Outcome)
    requires h.Valid()
    ensures o.host.count == h.count && o.host.interrupted == h.interrupted && o.host.tstates == h.tstates
    ensures o.host.Valid() && o.host.spool == h.spool
    decreases |calls|
  {
    if |calls| == 0 then Outcome(h, false)
    else
      var o := CallDone(h, calls[0]);
      if o.quit then o else CallsDone(o.host, calls[1..])
  }

  /** `spooler_read` with its callbacks. */
  function SpoolerReadDone(h: HostState): (o: Outcome)
    requires h.Valid()
    ensures o.host.Valid()
  {
    var r := Spooler.AfterRead(h.spool);
    CallsDone(h.(spool := r.spool), r.calls)
  }

  /** `spooler_open` with its callbacks; `found` is what `fopen` finds. */
  function SpoolerOpened(h: HostState, found: Option<seq<Spooler.Byte>>): (o: Outcome)
    requires h.Valid()
    ensures o.host.Valid()
  {
    var r := Spooler.AfterOpen(h.spool, found);
    Spooler.OpenKeepsValid(h.spool, found);
    CallsDone(h.(spool := r.spool), r.calls)
  }

  /** The callbacks a replaying spooler makes. */
  predicate ReplayCall(c: Spooler.Call)
  {
    match c
    case Observe(m) => m == Spooler.Closed
    case ClearKeyboard => true
    case Keypress(ks, keyState) => 0 <= ks < 256 && keyState == 0
  }

  /**
   * Replayed characters never quit or reset the emulator: they only change
   * the ports, and the speed settings once the file is closed.
   */
  lemma {:induction false} ReplayCallsHarmless(h: HostState, calls: seq<Spooler.Call>)
    requires h.Valid() && forall i :: 0 <= i < |calls| ==> ReplayCall(calls[i])
    ensures var o := CallsDone(h, calls);
            !o.quit && o.host.mem == h.mem && o.host.resetAce == h.resetAce &&
            o.host.interrupted == h.interrupted && o.host.tstates == h.tstates && o.host.count == h.count
    decreases |calls|
  {
    if |calls| > 0 {
      var c := calls[0];
      if c.Keypress? {
        CharactersAreOrdinaryKeys(c.keysym);
      }
      var o := CallDone(h, c);
      assert forall i :: 0 <= i < |calls[1..]| ==> ReplayCall(calls[1..][i]) by {
        forall i | 0 <= i < |calls[1..]| ensures ReplayCall(calls[1..][i]) {
          assert calls[1..][i] == calls[i + 1];
        }
      }
      ReplayCallsHarmless(o.host, calls[1..]);
    }
  }

  /** Each `spooler_read` makes only replay callbacks. */
  lemma ReadMakesReplayCalls(s: Spooler.Spool)
    requires Spooler.Valid(s)
    ensures forall i :: 0 <= i < |Spooler.AfterRead(s).calls| ==> ReplayCall(Spooler.AfterRead(s).calls[i])
  {
  }

  /** A spooler read never quits or resets the emulator, and leaves the counters alone. */
  lemma SpoolerReadHarmless(h: HostState)
    requires h.Valid()
    ensures var o := SpoolerReadDone(h);
            !o.quit && o.host.mem == h.mem && o.host.resetAce == h.resetAce &&
            o.host.interrupted == h.interrupted && o.host.tstates == h.tstates && o.host.count == h.count &&
            o.host.spool == Spooler.AfterRead(h.spool).spool
  {
    var r := Spooler.AfterRead(h.spool);
    ReadMakesReplayCalls(h.spool);
    ReplayCallsHarmless(h.(spool := r.spool), r.calls);
  }

  // ---------------------------------------------------------------------
  // Events and the interrupt

  /** A key event as `check_events` takes it from the X queue. */
  datatype KeyEvent = KeyPress(keysym: int, keyState: int) | KeyRelease(keysym: int)

  /** One key event: ignored while the spooler is typing. */
  function EventDone(h: HostState, e: KeyEvent): (o: Outcome)
    requires h.Valid()
    ensures o.host.count == h.count && o.host.interrupted == h.interrupted && o.host.tstates == h.tstates
    ensures o.host.Valid() && o.host.spool == h.spool
  {
    if Spooler.Active(h.spool) then Outcome(h, false)
    else
      match e
      case KeyPress(ks, keyState) => KeyPressed(h, ks, keyState)
      case KeyRelease(ks) => Outcome(KeyReleased(h, ks), false)
  }

  /** The key events of one `check_events` call, in order, up to one that ends the process. */
  function EventsDone(h: HostState, events: seq<KeyEvent>): (o: Outcome)
    requires h.Valid()
    ensures o.host.count == h.count && o.host.interrupted == h.interrupted && o.host.tstates == h.tstates
    ensures o.host.Valid() && o.host.spool == h.spool
    decreases |events|
  {
    if |events| == 0 then Outcome(h, false)
    else
      var o := EventDone(h, events[0]);
      if o.quit then o else EventsDone(o.host, events[1..])
  }

  /** While the spooler is typing, the keys of the real keyboard change nothing. */
  lemma {:induction false} EventsIgnoredWhileSpooling(h: HostState, events: seq<KeyEvent>)
    requires h.Valid() && Spooler.Active(h.spool)
    ensures EventsDone(h, events) == Outcome(h, false)
    decreases |events|
  {
    if |events| > 0 {
      EventsIgnoredWhileSpooling(h, events[1..]);
    }
  }

  /** What one `do_interrupt` does, and whether it refreshed the screen. */
  datatype Service = Service(host: HostState, quit: bool, refreshed: bool)

  /**
   * `do_interrupt`: only a pending tick is serviced. It is marked as being
   * processed, counted, every `scrn_freq`-th one feeds the spooler and
   * refreshes the screen, the key events are handled, and the flag is
   * cleared.
   */
  function Serviced(h: HostState, events: seq<KeyEvent>): (s: Service)
    requires h.Valid()
    ensures s.host.Valid()
  {
    if h.interrupted != Interrupted then Service(h, false, false)
    else
      var counted := h.(interrupted := Processing, count := h.count + 1);
      var refresh := counted.count >= counted.scrnFreq;
      var o1 := if refresh then SpoolerReadDone(counted.(count := 0)) else Outcome(counted, false);
      if o1.quit then Service(o1.host, true, refresh)
      else
        var o2 := EventsDone(o1.host, events);
        if o2.quit then Service(o2.host, true, refresh)
        else Service(o2.host.(interrupted := NoInterrupt), false, refresh)
  }

  /**
   * Only a pending tick is serviced, and a serviced tick ends with the flag
   * back at 0; the counter and the refresh follow the 1-in-`scrn_freq`
   * rule of the older host, and the spooler advances by one read exactly
   * on the refreshing ticks.
   */
  lemma ServiceProtocol(h: HostState, events: seq<KeyEvent>)
    requires h.Valid()
    ensures var s := Serviced(h, events);
            (h.interrupted != Interrupted ==> s == Service(h, false, false)) &&
            (h.interrupted == Interrupted ==>
               s.refreshed == AceHost.RefreshDue(h.count, h.scrnFreq) &&
               s.host.count == AceHost.CountAfter(h.count, h.scrnFreq) &&
               s.host.spool == (if s.refreshed then Spooler.AfterRead(h.spool).spool else h.spool) &&
               (!s.quit ==> s.host.interrupted == NoInterrupt))
  {
    if h.interrupted == Interrupted {
      var counted := h.(interrupted := Processing, count := h.count + 1);
      if counted.count >= counted.scrnFreq {
        SpoolerReadHarmless(counted.(count := 0));
      }
    }
  }

  /**
   * While the spooler stays active through the read, a serviced tick does
   * the same whatever keys the user pressed.
   */
  lemma ServiceIgnoresKeysWhileSpooling(h: HostState, e1: seq<KeyEvent>, e2: seq<KeyEvent>)
    requires h.Valid() && h.interrupted == Interrupted && Spooler.Active(h.spool)
    requires Spooler.Active(Spooler.AfterRead(h.spool).spool)
    ensures Serviced(h, e1) == Serviced(h, e2)
  {
    var counted := h.(interrupted := Processing, count := h.count + 1);
    if counted.count >= counted.scrnFreq {
      var o1 := SpoolerReadDone(counted.(count := 0));
      SpoolerReadHarmless(counted.(count := 0));
      EventsIgnoredWhileSpooling(o1.host, e1);
      EventsIgnoredWhileSpooling(o1.host, e2);
    } else {
      EventsIgnoredWhileSpooling(counted, e1);
      EventsIgnoredWhileSpooling(counted, e2);
    }
  }

  // ---------------------------------------------------------------------
  // The command line

  /** `strcasecmp("-s", arg) == 0`. */
  predicate IsSpoolSwitch(arg: string)
  {
    |arg| == 2 && arg[0] == '-' && (arg[1] == 's' || arg[1] == 'S')
  }

  /** What `handle_cli_args` does for one switch. */
  datatype CliAction = GoFast | SpoolFrom(filename: string) | MissingFilename(cliSwitch: string)

  /**
   * `handle_cli_args`: every `-s` or `-S` opens the argument after it as a
   * spool file, which is then not looked at as a switch; only `-S` also
   * goes to full speed; a switch with nothing after it is an error.
   */
  function CliActions(args: seq<string>): (actions: seq<CliAction>)
    decreases |args|
  {
    if |args| == 0 then []
    else if IsSpoolSwitch(args[0]) then
      (if args[0] == "-S" then [GoFast] else []) +
      (if |args| >= 2 then [SpoolFrom(args[1])] + CliActions(args[2..]) else [MissingFilename(args[0])])
    else CliActions(args[1..])
  }

  /** Arguments that are not switches are skipped. */
  lemma {:induction false} CliIgnoresPlainArguments(args: seq<string>)
    requires forall i :: 0 <= i < |args| ==> !IsSpoolSwitch(args[i])
    ensures CliActions(args) == []
    decreases |args|
  {
    if |args| > 0 {
      CliIgnoresPlainArguments(args[1..]);
    }
  }

  /**
   * Every file opened is an argument that follows a switch, full speed is
   * asked only by `-S`, and only the last argument can lack its file name.
   */
  lemma {:induction false} CliActionsFromArguments(args: seq<string>)
    ensures forall a :: a in CliActions(args) && a.SpoolFrom? ==>
              exists i :: 1 <= i < |args| && IsSpoolSwitch(args[i - 1]) && args[i] == a.filename
    ensures GoFast in CliActions(args) ==> "-S" in args
    ensures forall a :: a in CliActions(args) && a.MissingFilename? ==>
              |args| > 0 && a.cliSwitch == args[|args| - 1] && IsSpoolSwitch(a.cliSwitch)
    decreases |args|
  {
    if |args| > 0 {
      if IsSpoolSwitch(args[0]) && |args| >= 2 {
        var rest := args[2..];
        CliActionsFromArguments(rest);
        forall a | a in CliActions(rest) && a.SpoolFrom?
          ensures exists i :: 1 <= i < |args| && IsSpoolSwitch(args[i - 1]) && args[i] == a.filename
        {
          var j :| 1 <= j < |rest| && IsSpoolSwitch(rest[j - 1]) && rest[j] == a.filename;
          assert args[j + 2] == rest[j] && args[j + 1] == rest[j - 1];
        }
        assert args[1] == args[1];
        if GoFast in CliActions(rest) {
          var k :| 0 <= k < |rest| && rest[k] == "-S";
          assert args[k + 2] == "-S";
        }
        forall a | a in CliActions(rest) && a.MissingFilename?
          ensures a.cliSwitch == args[|args| - 1]
        {
          assert rest[|rest| - 1] == args[|args| - 1];
        }
      } else if !IsSpoolSwitch(args[0]) {
        var rest := args[1..];
        CliActionsFromArguments(rest);
        forall a | a in CliActions(rest) && a.SpoolFrom?
          ensures exists i :: 1 <= i < |args| && IsSpoolSwitch(args[i - 1]) && args[i] == a.filename
        {
          var j :| 1 <= j < |rest| && IsSpoolSwitch(rest[j - 1]) && rest[j] == a.filename;
          assert args[j + 1] == rest[j] && args[j] == rest[j - 1];
        }
        if GoFast in CliActions(rest) {
          var k :| 0 <= k < |rest| && rest[k] == "-S";
          assert args[k + 1] == "-S";
        }
        forall a | a in CliActions(rest) && a.MissingFilename?
          ensures a.cliSwitch == args[|args| - 1]
        {
          assert rest[|rest| - 1] == args[|args| - 1];
        }
      }
    }
  }

  /** A file name that looks like a switch is still opened as a file. */
  lemma CliExample()
    ensures CliActions(["-S", "-s", "x"]) == [GoFast, SpoolFrom("-s")]
    ensures CliActions(["prog", "-s"]) == [MissingFilename("-s")]
  {
    assert ["-S", "-s", "x"][2..] == ["x"];
    assert ["x"][1..] == [];
    assert ["prog", "-s"][1..] == ["-s"];
  }

  /** The host after one action of the command line; `files` is what `fopen` can open. */
  function CliDone(h: HostState, a: CliAction, files: map<string, seq<Spooler.Byte>>): (r: HostState)
    requires h.Valid()
    ensures r.Valid()
  {
    match a
    case GoFast => FastSpeedSet(h)
    case SpoolFrom(name) => SpoolerOpened(h, if name in files then Some(files[name]) else None).host
    case MissingFilename(_) => h
  }

  /** The smaller of n and bound. */
  function Clamped(n: nat, bound: nat): (r: nat)
    ensures r <= bound && r <= n && (r == n || r == bound)
  {
    if n <= bound then n else bound
  }

  function CliAllDone(h: HostState, actions: seq<CliAction>, files: map<string, seq<Spooler.Byte>>): (r: HostState)
    requires h.Valid()
    ensures r.Valid()
    decreases |actions|
  {
    if |actions| == 0 then h else CliAllDone(CliDone(h, actions[0], files), actions[1..], files)
  }

  lemma {:induction false} CliAllDoneAppend(h: HostState, a: seq<CliAction>, b: seq<CliAction>,
                                            files: map<string, seq<Spooler.Byte>>)
    requires h.Valid()
    ensures CliAllDone(h, a + b, files) == CliAllDone(CliAllDone(h, a, files), b, files)
    decreases |a|
  {
    if |a| == 0 {
      assert a + b == b;
    } else {
      assert (a + b)[0] == a[0] && (a + b)[1..] == a[1..] + b;
      CliAllDoneAppend(CliDone(h, a[0], files), a[1..], b, files);
    }
  }

  // ---------------------------------------------------------------------
  // The globals of src/xmain.c

  /** The host's globals, with the keyboard, the memory and the spooler it drives. */
  class Host {
    const keyboard: Keyboard.Keyboard
    const memory: Memory
    const spooler: Spooler.Spooler
    var interrupted: int
    var resetAce: int
    var tstates: nat
    var tsmax: nat
    var scrnFreq: int
    var count: int
    var period: int

    ghost predicate Valid()
      reads this, keyboard, memory, spooler
    {
      keyboard.Valid() && memory.Valid() && keyboard.ports != memory.mem && Spooler.Valid(spooler.Current())
    }

    function State(): (h: HostState)
      requires Valid()
      reads this, keyboard, keyboard.ports, memory, memory.mem, spooler
      ensures h.Valid()
    {
      HostState(keyboard.ports[..], memory.mem[..], spooler.Current(),
                interrupted, resetAce, tstates, tsmax, scrnFreq, count, period)
    }

    /** The static initialisers: all keys up, an empty memory, no spool, `tsmax = 62500`, `scrn_freq = 2`. */
    constructor ()
      ensures Valid() && fresh(keyboard) && fresh(keyboard.ports) && fresh(memory) && fresh(memory.mem)
      ensures fresh(spooler) && spooler.calls == []
      ensures State() == HostState(AllUp, seq(MemSize, _ => 0 as bv8), Spooler.Spool(Spooler.Inactive, None),
                                   NoInterrupt, 0, 0, NormalTsmax, 2, 0, 0)
    {
      keyboard := new Keyboard.Keyboard();
      memory := new Memory();
      spooler := new Spooler.Spooler();
      interrupted := NoInterrupt;
      resetAce := 0;
      tstates := 0;
      tsmax := NormalTsmax;
      scrnFreq := 2;
      count := 0;
      period := 0;
    }

    /** `in(h, l)`: port 0xFE reads the keyboard row whose select bit is low in h; everything else reads 255. */
    function In(h: int, l: int): (v: int)
      requires Valid()
      reads this, keyboard, keyboard.ports, memory, spooler
      ensures forall r: Row :: l == 0xfe && h == RowSelect(r) as int ==> v == keyboard.Keyport(r) as int
      ensures l != 0xfe || !SelectsRow(h) ==> v == 255
    {
      RowSelectValues(h);
      if l == 0xfe then
        match h
        case 0xfe => keyboard.Keyport(0) as int
        case 0xfd => keyboard.Keyport(1) as int
        case 0xfb => keyboard.Keyport(2) as int
        case 0xf7 => keyboard.Keyport(3) as int
        case 0xef => keyboard.Keyport(4) as int
        case 0xdf => keyboard.Keyport(5) as int
        case 0xbf => keyboard.Keyport(6) as int
        case 0x7f => keyboard.Keyport(7) as int
        case _ => 255
      else 255
    }

    /** `out` of src/xmain.c (lines 347-351), kept apart from the older one: the rewritten host ignores port writes too and returns 0. */
    function Out(h: int, l: int, a: int): (r: int)
      ensures r == 0
    {
      0
    }

    /** `sigint_handler`. */
    method SigintHandler()
      modifies this
      ensures interrupted == AfterSigint(old(interrupted))
      ensures resetAce == old(resetAce) && tstates == old(tstates) && tsmax == old(tsmax)
      ensures scrnFreq == old(scrnFreq) && count == old(count) && period == old(period)
    {
      if interrupted == NoInterrupt {
        interrupted := Interrupted;
      }
    }

    /** `normal_speed`. */
    method NormalSpeed()
      requires Valid()
      modifies this
      ensures Valid() && State() == NormalSpeedSet(old(State()))
    {
      period := TimerPeriod(50);
      scrnFreq := 4;
      tsmax := NormalTsmax;
    }

    /** `fast_speed`. */
    method FastSpeed()
      requires Valid()
      modifies this
      ensures Valid() && State() == FastSpeedSet(old(State()))
    {
      period := TimerPeriod(1000);
      scrnFreq := 4;
      tsmax := UlongMax;
    }

    /** `fix_tstates`: the budget of the tick is used up; the wait in `pause()` is not modelled here, the tick it waits for being SigintHandler (AfterSigint). */
    method FixTstates()
      requires Valid()
      modifies this
      ensures Valid() && State() == old(State()).(tstates := 0)
    {
      tstates := 0;
    }

    /** `emu_key_handler`; `quit` reports that Ctrl-Q ended the process. */
    method EmuKeyHandler(ks: int, keyState: int) returns (quit: bool)
      requires Valid()
      modifies this, keyboard.ports, memory.mem
      ensures Valid()
      ensures EmuKeyAction(ks, keyState) == Reset ==> State() == ResetRequested(old(State()))
      ensures EmuKeyAction(ks, keyState) != Reset ==> State() == old(State())
      ensures quit <==> EmuKeyAction(ks, keyState) == Quit
    {
      quit := false;
      match EmuKeyAction(ks, keyState)
      case Quit =>
        quit := true;
      case Reset =>
        resetAce := 1;
        memory.FillRam();
        keyboard.Clear();
      case _ =>
    }

    /** `keyboard_keypress` with `emu_key_handler` as the handler of the emulator's own keys. */
    method KeyPress(ks: int, keyState: int) returns (quit: bool)
      requires Valid()
      modifies this, keyboard.ports, memory.mem
      ensures Valid() && Outcome(State(), quit) == KeyPressed(old(State()), ks, keyState)
    {
      var _ := keyboard.ProcessKeypressKeyports(ks);
      quit := EmuKeyHandler(ks, keyState);
    }

    /** `keyboard_keyrelease`. */
    method KeyRelease(ks: int)
      requires Valid()
      modifies keyboard.ports
      ensures Valid() && State() == KeyReleased(old(State()), ks)
    {
      keyboard.Keyrelease(ks);
    }

    /** One callback of the spooler. */
    method Call(c: Spooler.Call) returns (quit: bool)
      requires Valid()
      modifies this, keyboard.ports, memory.mem
      ensures Valid() && Outcome(State(), quit) == CallDone(old(State()), c)
    {
      quit := false;
      match c
      case Observe(m) =>
        if m == Spooler.Closed {
          NormalSpeed();
        }
      case ClearKeyboard =>
        keyboard.Clear();
      case Keypress(ks, keyState) =>
        quit := KeyPress(ks, keyState);
    }

    /** The callbacks in order, up to one that ends the process. */
    method Calls(calls: seq<Spooler.Call>) returns (quit: bool)
      requires Valid()
      modifies this, keyboard.ports, memory.mem
      ensures Valid() && Outcome(State(), quit) == CallsDone(old(State()), calls)
    {
      var i := 0;
      quit := false;
      while i < |calls| && !quit
        invariant 0 <= i <= |calls| && Valid()
        invariant quit ==> Outcome(State(), true) == CallsDone(old(State()), calls)
        invariant !quit ==> CallsDone(State(), calls[i..]) == CallsDone(old(State()), calls)
        decreases |calls| - i
      {
        assert calls[i..][1..] == calls[i + 1..];
        quit := Call(calls[i]);
        i := i + 1;
      }
    }

    /** `spooler_read`, then the callbacks it made. */
    method SpoolerRead() returns (quit: bool)
      requires Valid()
      modifies this, keyboard.ports, memory.mem, spooler
      ensures Valid() && Outcome(State(), quit) == SpoolerReadDone(old(State()))
    {
      var n := |spooler.calls|;
      spooler.Read();
      quit := Calls(spooler.calls[n..]);
    }

    /** `spooler_open`, then the callbacks it made; `found` is what `fopen` finds. */
    method SpoolerOpen(found: Option<seq<Spooler.Byte>>)
      requires Valid()
      modifies this, keyboard.ports, memory.mem, spooler
      ensures Valid() && State() == SpoolerOpened(old(State()), found).host
    {
      var n := |spooler.calls|;
      Spooler.OpenKeepsValid(spooler.Current(), found);
      spooler.Open(found);
      var _ := Calls(spooler.calls[n..]);
    }

    /** The `KeyPress` and `KeyRelease` cases of `check_events`. */
    method Event(e: KeyEvent) returns (quit: bool)
      requires Valid()
      modifies this, keyboard.ports, memory.mem
      ensures Valid() && Outcome(State(), quit) == EventDone(old(State()), e)
    {
      quit := false;
      if !spooler.IsActive() {
        match e
        case KeyPress(ks, keyState) =>
          quit := KeyPress(ks, keyState);
        case KeyRelease(ks) =>
          KeyRelease(ks);
      }
    }

    /** `check_events` over the pending key events. */
    method CheckEvents(events: seq<KeyEvent>) returns (quit: bool)
      requires Valid()
      modifies this, keyboard.ports, memory.mem
      ensures Valid() && Outcome(State(), quit) == EventsDone(old(State()), events)
    {
      var i := 0;
      quit := false;
      while i < |events| && !quit
        invariant 0 <= i <= |events| && Valid()
        invariant quit ==> Outcome(State(), true) == EventsDone(old(State()), events)
        invariant !quit ==> EventsDone(State(), events[i..]) == EventsDone(old(State()), events)
        decreases |events| - i
      {
        assert events[i..][1..] == events[i + 1..];
        quit := Event(events[i]);
        i := i + 1;
      }
    }

    /** `do_interrupt`; `refreshed` reports whether `refresh()` was called. */
    method DoInterrupt(events: seq<KeyEvent>) returns (quit: bool, refreshed: bool)
      requires Valid()
      modifies this, keyboard.ports, memory.mem, spooler
      ensures Valid() && Service(State(), quit, refreshed) == Serviced(old(State()), events)
    {
      quit := false;
      refreshed := false;
      if interrupted == Interrupted {
        interrupted := Processing;
        count := count + 1;
        if count >= scrnFreq {
          count := 0;
          quit := SpoolerRead();
          refreshed := true;
        }
        if !quit {
          quit := CheckEvents(events);
          if !quit {
            interrupted := NoInterrupt;
          }
        }
      }
    }

    /** `handle_cli_args`; `files` maps the names `fopen` can open to their contents. */
    method HandleCliArgs(args: seq<string>, files: map<string, seq<Spooler.Byte>>)
      requires Valid()
      modifies this, keyboard.ports, memory.mem, spooler
      ensures Valid() && State() == CliAllDone(old(State()), CliActions(args), files)
    {
      var argPos := 0;
      while argPos < |args|
        invariant 0 <= argPos <= |args| + 1 && Valid()
        invariant CliAllDone(State(), CliActions(args[Clamped(argPos, |args|)..]), files) ==
                  CliAllDone(old(State()), CliActions(args), files)
        decreases |args| - argPos
      {
        if IsSpoolSwitch(args[argPos]) {
          argPos := CliSwitch(args, argPos, files);
        } else {
          assert args[argPos..][1..] == args[argPos + 1..];
          argPos := argPos + 1;
        }
      }
    }

    /** The switch at `argPos`: full speed for "-S", then spool from the next argument, if any. */
    method CliSwitch(args: seq<string>, argPos: nat, files: map<string, seq<Spooler.Byte>>) returns (next: nat)
      requires Valid() && argPos < |args| && IsSpoolSwitch(args[argPos])
      modifies this, keyboard.ports, memory.mem, spooler
      ensures Valid() && next == argPos + 2
      ensures CliAllDone(State(), CliActions(args[Clamped(next, |args|)..]), files) ==
              CliAllDone(old(State()), CliActions(args[argPos..]), files)
    {
      ghost var rest := args[argPos..];
      ghost var fast: seq<CliAction> := if args[argPos] == "-S" then [GoFast] else [];
      ghost var tail := if |rest| >= 2 then [SpoolFrom(rest[1])] + CliActions(rest[2..]) else [MissingFilename(rest[0])];
      assert CliActions(rest) == fast + tail;
      CliAllDoneAppend(State(), fast, tail, files);
      if args[argPos] == "-S" {
        FastSpeed();
      }
      next := argPos + 1;
      if next < |args| {
        assert rest[2..] == args[next + 1..];
        var name := args[next];
        CliAllDoneAppend(State(), [SpoolFrom(name)], CliActions(rest[2..]), files);
        SpoolerOpen(if name in files then Some(files[name]) else None);
      }
      next := next + 1;
    }
  }
}
