/**
 * The spooler of src/spooler.c: it replays a text file as keyboard input,
 * one character per two reads, a key press followed by a keyboard clear.
 * The three callbacks it is given (the observer, `clear_keyboard` and
 * `keypress`) are recorded as a trace of calls; the caller decides what
 * they do.
 */
module Spooler {
  import opened Optional

  /** `spooler_state`. */
  datatype State = Inactive | ReadChar | ClearChar

  /** The messages the spooler sends its observer (`SPOOLER_NO_MESSAGE` is never sent). */
  datatype Message = Opened | Closed | OpenError

  /** One callback made by the spooler. */
  datatype Call = Observe(message: Message) | ClearKeyboard | Keypress(keysym: int, keyState: int)

  /** A value `fgetc` returns for a character of the file. */
  type Byte = b: int | 0 <= b < 256

  /** What `fgetc` returns at the end of the file. */
  const EOF := -1

  /** An open text file: its characters and the position of the next `fgetc`. */
  datatype SpoolFile = SpoolFile(chars: seq<Byte>, pos: nat)

  /** `spooler_state` and `spooler_file`; `None` is the NULL file pointer. */
  datatype Spool = Spool(state: State, file: Option<SpoolFile>)

  /** The state after an operation and the callbacks it made, in order. */
  datatype Outcome = Outcome(spool: Spool, calls: seq<Call>)

  /** `spooler_active()`. */
  predicate Active(s: Spool)
  {
    s.state != Inactive
  }

  /** Whenever the spooler is active it has an open file whose position is inside it. */
  predicate Valid(s: Spool)
  {
    Active(s) ==> s.file.Some? && s.file.value.pos <= |s.file.value.chars|
  }

  /** `fgetc`: the next character, or EOF once every character has been read. */
  function NextChar(f: SpoolFile): (c: int)
    requires f.pos <= |f.chars|
    ensures c == EOF <==> f.pos == |f.chars|
    ensures c != EOF ==> 0 <= c < 256
  {
    if f.pos < |f.chars| then f.chars[f.pos] else EOF
  }

  /** `spooler_init`: the state becomes inactive; the file pointer is left as it was. */
  function AfterInit(s: Spool): (r: Spool)
    ensures !Active(r) && Valid(r)
  {
    s.(state := Inactive)
  }

  /**
   * `spooler_open` with the stale file pointer kept when `fopen` fails;
   * `found` is what `fopen` yields (None for NULL).
   */
  function AfterOpen(s: Spool, found: Option<seq<Byte>>): (r: Outcome)
  {
    match found
    case Some(chars) => Outcome(Spool(ReadChar, Some(SpoolFile(chars, 0))), [Observe(Opened), ClearKeyboard])
    case None => Outcome(s, [Observe(OpenError)])
  }

  /**
   * `spooler_open` as written: the result of `fopen` is stored before it
   * is compared with NULL, so a failed open forgets the file even if a spool is active.
   */
  function AfterOpenAsWritten(s: Spool, found: Option<seq<Byte>>): (r: Outcome)
  {
    match found
    case Some(chars) => Outcome(Spool(ReadChar, Some(SpoolFile(chars, 0))), [Observe(Opened), ClearKeyboard])
    case None => Outcome(s.(file := None), [Observe(OpenError)])
  }

  /** `spooler_close`. */
  function AfterClose(s: Spool): (r: Outcome)
  {
    if Active(s) then Outcome(Spool(Inactive, None), [ClearKeyboard, Observe(Closed)])
    else Outcome(s, [])
  }

  /** `spooler_read_char`: press the next character with key state 0, or close at the end of the file. */
  function AfterReadChar(s: Spool): (r: Outcome)
    requires Valid(s) && Active(s)
  {
    var f := s.file.value;
    var c := NextChar(f);
    if c == EOF then AfterClose(s)
    else Outcome(s.(file := Some(f.(pos := f.pos + 1))), [Keypress(c, 0)])
  }

  /** `spooler_read`. */
  function AfterRead(s: Spool): (r: Outcome)
    requires Valid(s)
    ensures Valid(r.spool)
  {
    match s.state
    case ReadChar => AfterReadChar(s.(state := ClearChar))
    case ClearChar => Outcome(s.(state := ReadChar), [ClearKeyboard])
    case Inactive => Outcome(s, [])
  }

  /** k successive calls of `spooler_read`, with the callbacks of all of them. */
  function Reads(s: Spool, k: nat): (r: Outcome)
    requires Valid(s)
    ensures Valid(r.spool)
    decreases k
  {
    if k == 0 then Outcome(s, [])
    else
      var first := AfterRead(s);
      var rest := Reads(first.spool, k - 1);
      Outcome(rest.spool, first.calls + rest.calls)
  }

  /** The callbacks that replay the characters: each is pressed with key state 0, then the keyboard is cleared. */
  function Replayed(chars: seq<Byte>): seq<Call>
  {
    if |chars| == 0 then []
    else [Keypress(chars[0], 0), ClearKeyboard] + Replayed(chars[1..])
  }

  // ---------------------------------------------------------------------
  // Properties

  /** A successful open starts a replay from the first character and clears the keyboard, from any state. */
  lemma OpenStartsReplay(s: Spool, chars: seq<Byte>)
    ensures var r := AfterOpen(s, Some(chars));
      Active(r.spool) && Valid(r.spool) && r.spool.state == ReadChar &&
      r.spool.file == Some(SpoolFile(chars, 0)) && r.calls == [Observe(Opened), ClearKeyboard]
  {
  }

  /** A failed open reports the error and changes nothing, so it keeps the invariant. */
  lemma OpenFailureKeepsSpool(s: Spool)
    ensures AfterOpen(s, None) == Outcome(s, [Observe(OpenError)])
    ensures Valid(s) ==> Valid(AfterOpen(s, None).spool)
    ensures Active(AfterOpen(s, None).spool) <==> Active(s)
  {
  }

  /** Opening keeps the invariant whether `fopen` succeeds or not. */
  lemma OpenKeepsValid(s: Spool, found: Option<seq<Byte>>)
    requires Valid(s)
    ensures Valid(AfterOpen(s, found).spool)
    ensures found.Some? ==> AfterOpen(s, found).spool.state == ReadChar
    ensures found.None? ==> AfterOpen(s, found).spool.state == s.state
  {
  }

  /**
   * As written, a failed open while a spool is active leaves the state
   * active with a NULL file, so the next read would call `fgetc(NULL)`.
   */
  lemma OpenFailureWhileActiveLosesFile(s: Spool)
    requires Valid(s) && Active(s)
    ensures Active(AfterOpenAsWritten(s, None).spool)
    ensures AfterOpenAsWritten(s, None).spool.file == None
    ensures !Valid(AfterOpenAsWritten(s, None).spool)
  {
  }

  /** When `fopen` succeeds, or the spooler is idle, the corrected open and the open as written agree. */
  lemma OpenAgreesWhenHarmless(s: Spool, found: Option<seq<Byte>>)
    requires found.Some? || (!Active(s) && s.file == None)
    ensures AfterOpenAsWritten(s, found) == AfterOpen(s, found)
  {
  }

  /** Closing an active spooler clears the keyboard, reports CLOSED and drops the file; closing an idle one does nothing. */
  lemma CloseOnlyWhenActive(s: Spool)
    ensures Active(s) ==> AfterClose(s) == Outcome(Spool(Inactive, None), [ClearKeyboard, Observe(Closed)])
    ensures !Active(s) ==> AfterClose(s) == Outcome(s, [])
    ensures !Active(AfterClose(s).spool) && Valid(AfterClose(s).spool)
    ensures AfterClose(AfterClose(s).spool) == Outcome(AfterClose(s).spool, [])
  {
  }

  /** After `spooler_close`, reads make no callback and leave the spooler as it is. */
  lemma {:induction false} ReadsWhenInactive(s: Spool, k: nat)
    requires !Active(s)
    ensures Reads(s, k) == Outcome(s, [])
    decreases k
  {
    if k > 0 {
      ReadsWhenInactive(s, k - 1);
    }
  }

  /** A read in CLEAR_CHAR clears the keyboard and returns to READ_CHAR without touching the file. */
  lemma ClearReadResumes(s: Spool)
    requires Valid(s) && s.state == ClearChar
    ensures AfterRead(s) == Outcome(Spool(ReadChar, s.file), [ClearKeyboard])
  {
  }

  /** Call 2i of the replay presses character i with key state 0, call 2i + 1 clears the keyboard. */
  lemma {:induction false} ReplayedCalls(chars: seq<Byte>)
    ensures |Replayed(chars)| == 2 * |chars|
    ensures forall i :: 0 <= i < |chars| ==>
      Replayed(chars)[2 * i] == Keypress(chars[i], 0) && Replayed(chars)[2 * i + 1] == ClearKeyboard
    decreases |chars|
  {
    if |chars| > 0 {
      ReplayedCalls(chars[1..]);
      var r := Replayed(chars);
      assert r == [Keypress(chars[0], 0), ClearKeyboard] + Replayed(chars[1..]);
      forall i | 1 <= i < |chars|
        ensures r[2 * i] == Keypress(chars[i], 0) && r[2 * i + 1] == ClearKeyboard
      {
        assert r[2 * i] == Replayed(chars[1..])[2 * (i - 1)];
        assert r[2 * i + 1] == Replayed(chars[1..])[2 * (i - 1) + 1];
      }
    }
  }

  /** Two reads from READ_CHAR before the end of the file: press the next character, then clear. */
  lemma TwoReads(chars: seq<Byte>, p: nat, k: nat)
    requires p < |chars|
    ensures var rest := Reads(Spool(ReadChar, Some(SpoolFile(chars, p + 1))), k);
      Reads(Spool(ReadChar, Some(SpoolFile(chars, p))), k + 2) ==
        Outcome(rest.spool, [Keypress(chars[p], 0), ClearKeyboard] + rest.calls)
  {
    var s := Spool(ReadChar, Some(SpoolFile(chars, p)));
    var s1 := Spool(ClearChar, Some(SpoolFile(chars, p + 1)));
    var s2 := Spool(ReadChar, Some(SpoolFile(chars, p + 1)));
    var rest := Reads(s2, k);
    assert AfterRead(s) == Outcome(s1, [Keypress(chars[p], 0)]);
    assert AfterRead(s1) == Outcome(s2, [ClearKeyboard]);
    assert Reads(s1, k + 1) == Outcome(rest.spool, [ClearKeyboard] + rest.calls);
    assert [Keypress(chars[p], 0)] + ([ClearKeyboard] + rest.calls) ==
      [Keypress(chars[p], 0), ClearKeyboard] + rest.calls;
  }

  /**
   * From READ_CHAR at position p, the remaining characters are pressed in
   * order, each followed by a clear, and the read after the last clear
   * closes the spooler.
   */
  lemma {:induction false} ReplayFrom(chars: seq<Byte>, p: nat)
    requires p <= |chars|
    ensures Reads(Spool(ReadChar, Some(SpoolFile(chars, p))), 2 * (|chars| - p) + 1) ==
      Outcome(Spool(Inactive, None), Replayed(chars[p..]) + [ClearKeyboard, Observe(Closed)])
    decreases |chars| - p
  {
    var s := Spool(ReadChar, Some(SpoolFile(chars, p)));
    var tail := [ClearKeyboard, Observe(Closed)];
    if p == |chars| {
      assert chars[p..] == [];
      assert AfterRead(s) == Outcome(Spool(Inactive, None), tail);
    } else {
      var k := 2 * (|chars| - (p + 1)) + 1;
      TwoReads(chars, p, k);
      ReplayFrom(chars, p + 1);
      assert chars[p..][1..] == chars[p + 1..];
      assert Replayed(chars[p..]) == [Keypress(chars[p], 0), ClearKeyboard] + Replayed(chars[p + 1..]);
    }
  }

  /**
   * For a file of n characters found successfully, reads 1..2n press the
   * characters in order, alternating with clears, and read 2n + 1 closes
   * the spooler and reports CLOSED; later reads do nothing.
   */
  lemma ReplayWholeFile(chars: seq<Byte>, later: nat)
    ensures var found := AfterOpen(Spool(Inactive, None), Some(chars)).spool;
      Reads(found, 2 * |chars| + 1) ==
        Outcome(Spool(Inactive, None), Replayed(chars) + [ClearKeyboard, Observe(Closed)])
    ensures Reads(Spool(Inactive, None), later) == Outcome(Spool(Inactive, None), [])
  {
    ReplayFrom(chars, 0);
    assert chars[0..] == chars;
    ReadsWhenInactive(Spool(Inactive, None), later);
  }

  // ---------------------------------------------------------------------
  // The statics of src/spooler.c

  /** The spooler's statics, with the callbacks made so far kept in `calls`. */
  class Spooler {
    var state: State
    var file: Option<SpoolFile>
    var calls: seq<Call>

    function Current(): Spool
      reads this
    {
      Spool(state, file)
    }

    /** The static initialisers: inactive, no file. */
    constructor ()
      ensures state == Inactive && file == None && calls == []
    {
      state := Inactive;
      file := None;
      calls := [];
    }

    /** `spooler_init`. */
    method Init()
      modifies this
      ensures Current() == AfterInit(old(Current())) && calls == old(calls)
    {
      state := Inactive;
    }

    /** `spooler_active()`. */
    function IsActive(): (b: bool)
      reads this
      ensures b <==> Active(Current())
    {
      state != Inactive
    }

    /** `spooler_open`; `found` is the file `fopen` finds, if any. */
    method Open(found: Option<seq<Byte>>)
      modifies this
      ensures Current() == AfterOpen(old(Current()), found).spool
      ensures calls == old(calls) + AfterOpen(old(Current()), found).calls
    {
      if found.Some? {
        file := Some(SpoolFile(found.value, 0));
        state := ReadChar;
        calls := calls + [Observe(Opened)];
        calls := calls + [ClearKeyboard];
      } else {
        calls := calls + [Observe(OpenError)];
      }
    }

    /** `spooler_close`. */
    method Close()
      modifies this
      ensures Current() == AfterClose(old(Current())).spool
      ensures calls == old(calls) + AfterClose(old(Current())).calls
    {
      if IsActive() {
        calls := calls + [ClearKeyboard];
        file := None;
        state := Inactive;
        calls := calls + [Observe(Closed)];
      }
    }

    /** `spooler_read_char`. */
    method ReadNextChar()
      requires Valid(Current()) && Active(Current())
      modifies this
      ensures Current() == AfterReadChar(old(Current())).spool
      ensures calls == old(calls) + AfterReadChar(old(Current())).calls
    {
      var f := file.value;
      var ks := NextChar(f);
      if ks == EOF {
        Close();
      } else {
        file := Some(f.(pos := f.pos + 1));
        calls := calls + [Keypress(ks, 0)];
      }
    }

    /** `spooler_read`. */
    method Read()
      requires Valid(Current())
      modifies this
      ensures Valid(Current())
      ensures Current() == AfterRead(old(Current())).spool
      ensures calls == old(calls) + AfterRead(old(Current())).calls
    {
      match state
      case ReadChar =>
        state := ClearChar;
        ReadNextChar();
      case ClearChar =>
        state := ReadChar;
        calls := calls + [ClearKeyboard];
      case Inactive =>
    }
  }
}
