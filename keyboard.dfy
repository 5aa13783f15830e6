/**
 * The keyboard of the newer front end (src/keyboard.c): eight active-low port
 * bytes, `keyboard_ports`, and the table `keypress_response` saying which
 * rows of the Ace's key matrix each host KeySym holds down.
 */
module Keyboard {
  import opened KeyMatrix
  import opened Optional

  /** The second port index of an entry: -1 when the key holds down only one row. */
  type SecondPort = k: int | -1 <= k < 8

  /**
   * One entry of `keypress_response`, whose five integers are the KeySym, the
   * first port and its mask, the second port and its mask. The source keeps
   * the table flat and steps through it five integers at a time; here each
   * group of five is one value, so the stride and the well-formedness of
   * every port index are carried by the types. Every mask of the table fits
   * in a byte and is kept as one.
   */
  datatype Response = Response(keysym: int, port1: Row, mask1: bv8, port2: SecondPort, mask2: bv8)

  /** F1, F4, F9, the four arrows, BackSpace and Delete (src/keyboard.c:45-53) */
  const EditingKeys: seq<Response> := [
    Response(0xffbe, 3, 0xfe, 0, 0xfe),  // XK_F1
    Response(0xffc1, 3, 0xf7, 0, 0xfe),  // XK_F4
    Response(0xffc6, 4, 0xfd, 0, 0xfe),  // XK_F9
    Response(0xff51, 3, 0xef, 0, 0xfe),  // XK_Left
    Response(0xff54, 4, 0xf7, 0, 0xfe),  // XK_Down
    Response(0xff52, 4, 0xef, 0, 0xfe),  // XK_Up
    Response(0xff53, 4, 0xfb, 0, 0xfe),  // XK_Right
    Response(0xff08, 0, 0xfe, 4, 0xfe),  // XK_BackSpace
    Response(0xffff, 0, 0xfe, 4, 0xfe)   // XK_Delete
  ]

  /** The digits 1 to 0 (src/keyboard.c:54-63) */
  const Digits: seq<Response> := [
    Response(0x0031, 3, 0xfe, -1, 0),  // XK_1
    Response(0x0032, 3, 0xfd, -1, 0),  // XK_2
    Response(0x0033, 3, 0xfb, -1, 0),  // XK_3
    Response(0x0034, 3, 0xf7, -1, 0),  // XK_4
    Response(0x0035, 3, 0xef, -1, 0),  // XK_5
    Response(0x0036, 4, 0xef, -1, 0),  // XK_6
    Response(0x0037, 4, 0xf7, -1, 0),  // XK_7
    Response(0x0038, 4, 0xfb, -1, 0),  // XK_8
    Response(0x0039, 4, 0xfd, -1, 0),  // XK_9
    Response(0x0030, 4, 0xfe, -1, 0)   // XK_0
  ]

  /** The symbols over the digits, and Escape as Break (src/keyboard.c:64-74) */
  const ShiftedDigits: seq<Response> := [
    Response(0x0021, 3, 0xfe, 0, 0xfd),  // XK_exclam
    Response(0x0040, 3, 0xfd, 0, 0xfd),  // XK_at
    Response(0x0023, 3, 0xfb, 0, 0xfd),  // XK_numbersign
    Response(0x0024, 3, 0xf7, 0, 0xfd),  // XK_dollar
    Response(0x0025, 3, 0xef, 0, 0xfd),  // XK_percent
    Response(0xff1b, 7, 0xfe, 0, 0xfe),  // XK_Escape
    Response(0x0026, 4, 0xef, 0, 0xfd),  // XK_ampersand
    Response(0x0027, 4, 0xf7, 0, 0xfd),  // XK_apostrophe
    Response(0x0028, 4, 0xfb, 0, 0xfd),  // XK_parenleft
    Response(0x0029, 4, 0xfd, 0, 0xfd),  // XK_parenright
    Response(0x005f, 4, 0xfe, 0, 0xfd)   // XK_underscore
  ]

  /** Capital and small A to G (src/keyboard.c:75-88) */
  const LettersAToG: seq<Response> := [
    Response(0x0041, 0, 0xfe, 1, 0xfe),  // XK_A
    Response(0x0061, 1, 0xfe, -1, 0),  // XK_a
    Response(0x0042, 0, 0xfe, 7, 0xf7),  // XK_B
    Response(0x0062, 7, 0xf7, -1, 0),  // XK_b
    Response(0x0043, 0, 0xee, -1, 0),  // XK_C
    Response(0x0063, 0, 0xef, -1, 0),  // XK_c
    Response(0x0044, 0, 0xfe, 1, 0xfb),  // XK_D
    Response(0x0064, 1, 0xfb, -1, 0),  // XK_d
    Response(0x0045, 0, 0xfe, 2, 0xfb),  // XK_E
    Response(0x0065, 2, 0xfb, -1, 0),  // XK_e
    Response(0x0046, 0, 0xfe, 1, 0xf7),  // XK_F
    Response(0x0066, 1, 0xf7, -1, 0),  // XK_f
    Response(0x0047, 0, 0xfe, 1, 0xef),  // XK_G
    Response(0x0067, 1, 0xef, -1, 0)   // XK_g
  ]

  /** Capital and small H to N (src/keyboard.c:89-102) */
  const LettersHToN: seq<Response> := [
    Response(0x0048, 0, 0xfe, 6, 0xef),  // XK_H
    Response(0x0068, 6, 0xef, -1, 0),  // XK_h
    Response(0x0049, 0, 0xfe, 5, 0xfb),  // XK_I
    Response(0x0069, 5, 0xfb, -1, 0),  // XK_i
    Response(0x004a, 0, 0xfe, 6, 0xf7),  // XK_J
    Response(0x006a, 6, 0xf7, -1, 0),  // XK_j
    Response(0x004b, 0, 0xfe, 6, 0xfb),  // XK_K
    Response(0x006b, 6, 0xfb, -1, 0),  // XK_k
    Response(0x004c, 0, 0xfe, 6, 0xfd),  // XK_L
    Response(0x006c, 6, 0xfd, -1, 0),  // XK_l
    Response(0x004d, 0, 0xfe, 7, 0xfd),  // XK_M
    Response(0x006d, 7, 0xfd, -1, 0),  // XK_m
    Response(0x004e, 0, 0xfe, 7, 0xfb),  // XK_N
    Response(0x006e, 7, 0xfb, -1, 0)   // XK_n
  ]

  /** Capital and small O to U (src/keyboard.c:103-116) */
  const LettersOToU: seq<Response> := [
    Response(0x004f, 0, 0xfe, 5, 0xfd),  // XK_O
    Response(0x006f, 5, 0xfd, -1, 0),  // XK_o
    Response(0x0050, 0, 0xfe, 5, 0xfe),  // XK_P
    Response(0x0070, 5, 0xfe, -1, 0),  // XK_p
    Response(0x0051, 0, 0xfe, 2, 0xfe),  // XK_Q
    Response(0x0071, 2, 0xfe, -1, 0),  // XK_q
    Response(0x0052, 0, 0xfe, 2, 0xf7),  // XK_R
    Response(0x0072, 2, 0xf7, -1, 0),  // XK_r
    Response(0x0053, 0, 0xfe, 1, 0xfd),  // XK_S
    Response(0x0073, 1, 0xfd, -1, 0),  // XK_s
    Response(0x0054, 0, 0xfe, 2, 0xef),  // XK_T
    Response(0x0074, 2, 0xef, -1, 0),  // XK_t
    Response(0x0055, 0, 0xfe, 5, 0xf7),  // XK_U
    Response(0x0075, 5, 0xf7, -1, 0)   // XK_u
  ]

  /** Capital and small V to Z (src/keyboard.c:117-126) */
  const LettersVToZ: seq<Response> := [
    Response(0x0056, 0, 0xfe, 7, 0xef),  // XK_V
    Response(0x0076, 7, 0xef, -1, 0),  // XK_v
    Response(0x0057, 0, 0xfe, 2, 0xfd),  // XK_W
    Response(0x0077, 2, 0xfd, -1, 0),  // XK_w
    Response(0x0058, 0, 0xf6, -1, 0),  // XK_X
    Response(0x0078, 0, 0xf7, -1, 0),  // XK_x
    Response(0x0059, 0, 0xfe, 5, 0xef),  // XK_Y
    Response(0x0079, 5, 0xef, -1, 0),  // XK_y
    Response(0x005a, 0, 0xfa, -1, 0),  // XK_Z
    Response(0x007a, 0, 0xfb, -1, 0)   // XK_z
  ]

  /** The symbol-shifted punctuation (src/keyboard.c:127-142) */
  const Symbols: seq<Response> := [
    Response(0x003c, 2, 0xf7, 0, 0xfd),  // XK_less
    Response(0x003e, 2, 0xef, 0, 0xfd),  // XK_greater
    Response(0x005b, 5, 0xef, 0, 0xfd),  // XK_bracketleft
    Response(0x005d, 5, 0xf7, 0, 0xfd),  // XK_bracketright
    Response(0x003b, 5, 0xfd, 0, 0xfd),  // XK_semicolon
    Response(0x0022, 5, 0xfe, 0, 0xfd),  // XK_quotedbl
    Response(0x007e, 1, 0xfe, 0, 0xfd),  // XK_asciitilde
    Response(0x007c, 1, 0xfd, 0, 0xfd),  // XK_bar
    Response(0x005c, 1, 0xfb, 0, 0xfd),  // XK_backslash
    Response(0x007b, 1, 0xf7, 0, 0xfd),  // XK_braceleft
    Response(0x007d, 1, 0xef, 0, 0xfd),  // XK_braceright
    Response(0x005e, 6, 0xef, 0, 0xfd),  // XK_asciicircum
    Response(0x002d, 6, 0xf7, 0, 0xfd),  // XK_minus
    Response(0x002b, 6, 0xfb, 0, 0xfd),  // XK_plus
    Response(0x003d, 6, 0xfd, 0, 0xfd)   // XK_equal
  ]

  /** Newline, Return, the remaining punctuation, space and the two tabs (src/keyboard.c:143-154) */
  const LineKeys: seq<Response> := [
    Response(0x000a, 6, 0xfe, -1, 0),  // '\n'
    Response(0xff0d, 6, 0xfe, -1, 0),  // XK_Return
    Response(0x003a, 0, 0xf9, -1, 0),  // XK_colon
    Response(0x00a3, 0, 0xf5, -1, 0),  // XK_sterling
    Response(0x003f, 0, 0xed, -1, 0),  // XK_question
    Response(0x002f, 7, 0xef, 0, 0xfd),  // XK_slash
    Response(0x002a, 7, 0xf7, 0, 0xfd),  // XK_asterisk
    Response(0x002c, 7, 0xfb, 0, 0xfd),  // XK_comma
    Response(0x002e, 7, 0xfd, 0, 0xfd),  // XK_period
    Response(0x0020, 7, 0xfe, -1, 0),  // XK_space
    Response(0xff09, 7, 0xfe, -1, 0),  // XK_Tab
    Response(0x0009, 7, 0xfe, -1, 0)   // '\t'
  ]

  /** The whole table, in the order of the source (src/keyboard.c:44-155). */
  const ResponseTable: seq<Response> :=
    EditingKeys + (Digits + (ShiftedDigits + (LettersAToG + (LettersHToN + (LettersOToU + (LettersVToZ + (Symbols + LineKeys)))))))

  /** The first entry of t for the KeySym ks, if there is one. */
  function Lookup(t: seq<Response>, ks: int): Option<Response>
  {
    if |t| == 0 then None
    else if t[0].keysym == ks then Some(t[0])
    else Lookup(t[1..], ks)
  }

  /** The table's entry for ks: what `keyboard_get_key_response` finds. */
  function KeyResponse(ks: int): Option<Response>
  {
    Lookup(ResponseTable, ks)
  }

  /** Lookup finds an entry exactly when one has the KeySym, and then the first one. */
  lemma {:induction false} LookupIsFirstMatch(t: seq<Response>, ks: int)
    ensures Lookup(t, ks).None? <==> forall i :: 0 <= i < |t| ==> t[i].keysym != ks
    ensures Lookup(t, ks).Some? ==>
      exists i :: 0 <= i < |t| && t[i] == Lookup(t, ks).value && t[i].keysym == ks &&
        forall j :: 0 <= j < i ==> t[j].keysym != ks
    decreases |t|
  {
    if |t| > 0 && t[0].keysym != ks {
      LookupIsFirstMatch(t[1..], ks);
      assert forall i :: 1 <= i < |t| ==> t[i] == t[1..][i - 1];
      if Lookup(t, ks).Some? {
        var i :| 0 <= i < |t[1..]| && t[1..][i] == Lookup(t, ks).value && t[1..][i].keysym == ks &&
          forall j :: 0 <= j < i ==> t[1..][j].keysym != ks;
        assert t[i + 1] == Lookup(t, ks).value;
        assert forall j :: 0 <= j < i + 1 ==> t[j].keysym != ks by {
          forall j | 0 <= j < i + 1 ensures t[j].keysym != ks {
            if j > 0 {
              assert t[j] == t[1..][j - 1];
            }
          }
        }
      }
    } else if |t| > 0 {
      assert t[0] == Lookup(t, ks).value;
    }
  }

  /** Looking up in a concatenation looks in the first part, then in the second. */
  lemma {:induction false} LookupAppend(a: seq<Response>, b: seq<Response>, ks: int)
    ensures Lookup(a + b, ks) == if Lookup(a, ks).Some? then Lookup(a, ks) else Lookup(b, ks)
    decreases |a|
  {
    if |a| > 0 {
      assert (a + b)[0] == a[0];
      assert (a + b)[1..] == a[1..] + b;
      LookupAppend(a[1..], b, ks);
    } else {
      assert a + b == b;
    }
  }

  /** Lookup answers with the entry at i when it is the first with the KeySym. */
  lemma LookupAt(t: seq<Response>, ks: int, i: nat)
    requires i < |t| && t[i].keysym == ks && forall j :: 0 <= j < i ==> t[j].keysym != ks
    ensures Lookup(t, ks) == Some(t[i])
  {
    LookupIsFirstMatch(t, ks);
    if Lookup(t, ks).Some? {
      var k :| 0 <= k < |t| && t[k] == Lookup(t, ks).value && t[k].keysym == ks &&
        forall j :: 0 <= j < k ==> t[j].keysym != ks;
      assert k == i;
    }
  }

  /** Lookup misses a KeySym no entry of t has. */
  lemma LookupMiss(t: seq<Response>, ks: int)
    requires forall j :: 0 <= j < |t| ==> t[j].keysym != ks
    ensures Lookup(t, ks) == None
  {
    LookupIsFirstMatch(t, ks);
  }

  /** EditingKeys has no entry for a KeySym outside its own. */
  lemma EditingKeysMiss(ks: int)
    requires ks !in {0xffbe, 0xffc1, 0xffc6, 0xff51, 0xff54, 0xff52, 0xff53, 0xff08, 0xffff}
    ensures Lookup(EditingKeys, ks) == None
  {
    forall j | 0 <= j < |EditingKeys| ensures EditingKeys[j].keysym != ks {
      assert j in {0, 1, 2, 3, 4, 5, 6, 7, 8};
    }
    LookupMiss(EditingKeys, ks);
  }

  /** Digits has no entry for a KeySym outside its own. */
  lemma DigitsMiss(ks: int)
    requires ks !in {0x31, 0x32, 0x33, 0x34, 0x35, 0x36, 0x37, 0x38, 0x39, 0x30}
    ensures Lookup(Digits, ks) == None
  {
    forall j | 0 <= j < |Digits| ensures Digits[j].keysym != ks {
      assert j in {0, 1, 2, 3, 4, 5, 6, 7, 8, 9};
    }
    LookupMiss(Digits, ks);
  }

  /** ShiftedDigits has no entry for a KeySym outside its own. */
  lemma ShiftedDigitsMiss(ks: int)
    requires ks !in {0x21, 0x40, 0x23, 0x24, 0x25, 0xff1b, 0x26, 0x27, 0x28, 0x29, 0x5f}
    ensures Lookup(ShiftedDigits, ks) == None
  {
    forall j | 0 <= j < |ShiftedDigits| ensures ShiftedDigits[j].keysym != ks {
      assert j in {0, 1, 2, 3, 4, 5, 6, 7, 8, 9, 10};
    }
    LookupMiss(ShiftedDigits, ks);
  }

  /** LettersAToG has no entry for a KeySym outside its own. */
  lemma LettersAToGMiss(ks: int)
    requires ks !in {0x41, 0x61, 0x42, 0x62, 0x43, 0x63, 0x44, 0x64, 0x45, 0x65, 0x46, 0x66, 0x47, 0x67}
    ensures Lookup(LettersAToG, ks) == None
  {
    forall j | 0 <= j < |LettersAToG| ensures LettersAToG[j].keysym != ks {
      assert j in {0, 1, 2, 3, 4, 5, 6, 7, 8, 9, 10, 11, 12, 13};
    }
    LookupMiss(LettersAToG, ks);
  }

  /** LettersHToN has no entry for a KeySym outside its own. */
  lemma LettersHToNMiss(ks: int)
    requires ks !in {0x48, 0x68, 0x49, 0x69, 0x4a, 0x6a, 0x4b, 0x6b, 0x4c, 0x6c, 0x4d, 0x6d, 0x4e, 0x6e}
    ensures Lookup(LettersHToN, ks) == None
  {
    forall j | 0 <= j < |LettersHToN| ensures LettersHToN[j].keysym != ks {
      assert j in {0, 1, 2, 3, 4, 5, 6, 7, 8, 9, 10, 11, 12, 13};
    }
    LookupMiss(LettersHToN, ks);
  }

  /** LettersOToU has no entry for a KeySym outside its own. */
  lemma LettersOToUMiss(ks: int)
    requires ks !in {0x4f, 0x6f, 0x50, 0x70, 0x51, 0x71, 0x52, 0x72, 0x53, 0x73, 0x54, 0x74, 0x55, 0x75}
    ensures Lookup(LettersOToU, ks) == None
  {
    forall j | 0 <= j < |LettersOToU| ensures LettersOToU[j].keysym != ks {
      assert j in {0, 1, 2, 3, 4, 5, 6, 7, 8, 9, 10, 11, 12, 13};
    }
    LookupMiss(LettersOToU, ks);
  }

  /** LettersVToZ has no entry for a KeySym outside its own. */
  lemma LettersVToZMiss(ks: int)
    requires ks !in {0x56, 0x76, 0x57, 0x77, 0x58, 0x78, 0x59, 0x79, 0x5a, 0x7a}
    ensures Lookup(LettersVToZ, ks) == None
  {
    forall j | 0 <= j < |LettersVToZ| ensures LettersVToZ[j].keysym != ks {
      assert j in {0, 1, 2, 3, 4, 5, 6, 7, 8, 9};
    }
    LookupMiss(LettersVToZ, ks);
  }

  /** Symbols has no entry for a KeySym outside its own. */
  lemma SymbolsMiss(ks: int)
    requires ks !in {0x3c, 0x3e, 0x5b, 0x5d, 0x3b, 0x22, 0x7e, 0x7c, 0x5c, 0x7b, 0x7d, 0x5e, 0x2d, 0x2b, 0x3d}
    ensures Lookup(Symbols, ks) == None
  {
    forall j | 0 <= j < |Symbols| ensures Symbols[j].keysym != ks {
      assert j in {0, 1, 2, 3, 4, 5, 6, 7, 8, 9, 10, 11, 12, 13, 14};
    }
    LookupMiss(Symbols, ks);
  }

  /** LineKeys has no entry for a KeySym outside its own. */
  lemma LineKeysMiss(ks: int)
    requires ks !in {0xa, 0xff0d, 0x3a, 0xa3, 0x3f, 0x2f, 0x2a, 0x2c, 0x2e, 0x20, 0xff09, 0x9}
    ensures Lookup(LineKeys, ks) == None
  {
    forall j | 0 <= j < |LineKeys| ensures LineKeys[j].keysym != ks {
      assert j in {0, 1, 2, 3, 4, 5, 6, 7, 8, 9, 10, 11};
    }
    LookupMiss(LineKeys, ks);
  }

  /** The ports after the masks of the entry e are ANDed into its ports. */
  function Press(p: seq<bv8>, e: Response): (q: seq<bv8>)
    requires |p| == 8
    ensures |q| == 8
  {
    var p1 := p[e.port1 := BitAnd(p[e.port1], e.mask1)];
    if e.port2 == -1 then p1 else p1[e.port2 := BitAnd(p1[e.port2], e.mask2)]
  }

  /**
   * The ports after `~mask` is ORed into each port of the entry e; the low
   * byte of `~mask`, the part a port keeps, is the complement of the mask.
   */
  function Release(p: seq<bv8>, e: Response): (q: seq<bv8>)
    requires |p| == 8
    ensures |q| == 8
  {
    var p1 := p[e.port1 := BitOr(p[e.port1], BitNot(e.mask1))];
    if e.port2 == -1 then p1 else p1[e.port2 := BitOr(p1[e.port2], BitNot(e.mask2))]
  }

  /** The ports after `keyboard_process_keypress_keyports(ks)`. */
  function Pressed(p: seq<bv8>, ks: int): (q: seq<bv8>)
    requires |p| == 8
    ensures |q| == 8
  {
    match KeyResponse(ks)
    case None => p
    case Some(e) => Press(p, e)
  }

  /** The ports after `keyboard_process_keyrelease_keyports(ks)`. */
  function Released(p: seq<bv8>, ks: int): (q: seq<bv8>)
    requires |p| == 8
    ensures |q| == 8
  {
    match KeyResponse(ks)
    case None => p
    case Some(e) => Release(p, e)
  }

  /** The ports after `keyboard_keyrelease`: a key the table does not know clears the whole keyboard. */
  function KeyReleased(p: seq<bv8>, ks: int): (q: seq<bv8>)
    requires |p| == 8
    ensures |q| == 8
  {
    if KeyResponse(ks).Some? then Released(p, ks) else AllUp
  }

  /** ANDing masks into a byte only clears bits of it. */
  lemma AndKeepsBelow(x: bv8, m: bv8, n: bv8)
    ensures BitAnd(x, x) == x
    ensures BitAnd(BitAnd(x, m), x) == BitAnd(x, m)
    ensures BitAnd(BitAnd(BitAnd(x, m), n), x) == BitAnd(BitAnd(x, m), n)
  {
  }

  /** ORing into a byte only sets bits of it. */
  lemma OrKeepsAbove(x: bv8, m: bv8, n: bv8)
    ensures BitAnd(x, x) == x
    ensures BitAnd(BitOr(x, m), x) == x
    ensures BitAnd(BitOr(BitOr(x, m), n), x) == x
  {
  }

  /** ORing back the complements of the masks ANDed into a clear row restores it. */
  lemma OrUndoesAnd(m: bv8, n: bv8)
    ensures BitOr(BitAnd(0xff, m), BitNot(m)) == 0xff
    ensures BitOr(BitOr(BitAnd(BitAnd(0xff, m), n), BitNot(m)), BitNot(n)) == 0xff
  {
  }

  /** Row r after a press of the entry e: the masks of the ports that are r, ANDed in order. */
  lemma PressRow(p: seq<bv8>, e: Response, r: Row)
    requires |p| == 8
    ensures Press(p, e)[r] == (
      if r == e.port1 && r == e.port2 then BitAnd(BitAnd(p[r], e.mask1), e.mask2)
      else if r == e.port1 then BitAnd(p[r], e.mask1)
      else if r == e.port2 then BitAnd(p[r], e.mask2)
      else p[r])
  {
  }

  /** Row r after a release of the entry e: the complements of the masks of the ports that are r, ORed in order. */
  lemma ReleaseRow(p: seq<bv8>, e: Response, r: Row)
    requires |p| == 8
    ensures Release(p, e)[r] == (
      if r == e.port1 && r == e.port2 then BitOr(BitOr(p[r], BitNot(e.mask1)), BitNot(e.mask2))
      else if r == e.port1 then BitOr(p[r], BitNot(e.mask1))
      else if r == e.port2 then BitOr(p[r], BitNot(e.mask2))
      else p[r])
  {
  }

  /** Pressing the keys of one entry clears bits of its ports only, and leaves the other ports alone. */
  lemma PressEntryOnlyClears(p: seq<bv8>, e: Response)
    requires |p| == 8
    ensures forall r: Row :: BitAnd(Press(p, e)[r], p[r]) == Press(p, e)[r]
    ensures forall r: Row :: r != e.port1 && r != e.port2 ==> Press(p, e)[r] == p[r]
  {
    forall r: Row
      ensures BitAnd(Press(p, e)[r], p[r]) == Press(p, e)[r]
      ensures r != e.port1 && r != e.port2 ==> Press(p, e)[r] == p[r]
    {
      PressRow(p, e, r);
      AndKeepsBelow(p[r], e.mask1, e.mask2);
      AndKeepsBelow(p[r], e.mask2, 0);
    }
  }

  /** Releasing the keys of one entry sets bits of its ports only, and leaves the other ports alone. */
  lemma ReleaseEntryOnlySets(p: seq<bv8>, e: Response)
    requires |p| == 8
    ensures forall r: Row :: BitAnd(Release(p, e)[r], p[r]) == p[r]
    ensures forall r: Row :: r != e.port1 && r != e.port2 ==> Release(p, e)[r] == p[r]
  {
    forall r: Row
      ensures BitAnd(Release(p, e)[r], p[r]) == p[r]
      ensures r != e.port1 && r != e.port2 ==> Release(p, e)[r] == p[r]
    {
      ReleaseRow(p, e, r);
      OrKeepsAbove(p[r], BitNot(e.mask1), BitNot(e.mask2));
      OrKeepsAbove(p[r], BitNot(e.mask2), 0);
    }
  }

  /** Eight rows that all read 0xFF are the clear keyboard. */
  lemma AllRowsUp(q: seq<bv8>)
    requires |q| == 8 && forall r: Row :: q[r] == 0xff
    ensures q == AllUp
  {
    assert forall i :: 0 <= i < 8 ==> q[i] == AllUp[i];
  }

  /** Releasing the keys of an entry pressed on a clear keyboard clears it again. */
  lemma ReleaseEntryUndoesPress(e: Response)
    ensures Release(Press(AllUp, e), e) == AllUp
  {
    var q := Release(Press(AllUp, e), e);
    forall r: Row ensures q[r] == 0xff {
      PressRow(AllUp, e, r);
      ReleaseRow(Press(AllUp, e), e, r);
      OrUndoesAnd(e.mask1, e.mask2);
      OrUndoesAnd(e.mask1, 0xff);
      OrUndoesAnd(e.mask2, 0xff);
    }
    AllRowsUp(q);
  }

  /**
   * A key press only clears bits: the entry's ports lose bits, the other
   * ports are unchanged, and a key the table does not know changes nothing.
   */
  lemma PressOnlyClears(p: seq<bv8>, ks: int)
    requires |p| == 8
    ensures forall r: Row :: BitAnd(Pressed(p, ks)[r], p[r]) == Pressed(p, ks)[r]
    ensures KeyResponse(ks).None? ==> Pressed(p, ks) == p
    ensures KeyResponse(ks).Some? ==> forall r: Row ::
      r != KeyResponse(ks).value.port1 && r != KeyResponse(ks).value.port2 ==> Pressed(p, ks)[r] == p[r]
  {
    match KeyResponse(ks)
    case None =>
      forall r: Row ensures BitAnd(p[r], p[r]) == p[r] {
        AndKeepsBelow(p[r], 0, 0);
      }
    case Some(e) =>
      PressEntryOnlyClears(p, e);
  }

  /**
   * A key release only sets bits: the entry's ports gain bits, the other
   * ports are unchanged, and a key the table does not know changes nothing.
   */
  lemma ReleaseOnlySets(p: seq<bv8>, ks: int)
    requires |p| == 8
    ensures forall r: Row :: BitAnd(Released(p, ks)[r], p[r]) == p[r]
    ensures KeyResponse(ks).None? ==> Released(p, ks) == p
    ensures KeyResponse(ks).Some? ==> forall r: Row ::
      r != KeyResponse(ks).value.port1 && r != KeyResponse(ks).value.port2 ==> Released(p, ks)[r] == p[r]
  {
    match KeyResponse(ks)
    case None =>
      forall r: Row ensures BitAnd(p[r], p[r]) == p[r] {
        OrKeepsAbove(p[r], 0, 0);
      }
    case Some(e) =>
      ReleaseEntryOnlySets(p, e);
  }

  /** From a clear keyboard, pressing and then releasing the same key clears it again. */
  lemma PressThenReleaseRestores(ks: int)
    ensures Released(Pressed(AllUp, ks), ks) == AllUp
  {
    match KeyResponse(ks)
    case None =>
    case Some(e) =>
      ReleaseEntryUndoesPress(e);
  }

  /** The entry for the digit 7. */
  lemma SevenResponse(ks: int)
    requires ks == 0x37
    ensures KeyResponse(ks) == Some(Response(0x37, 4, 0xf7, -1, 0))
  {
    var r: Option<Response> := Some(Response(0x37, 4, 0xf7, -1, 0));
    var rest7 := Symbols + LineKeys;
    var rest6 := LettersVToZ + rest7;
    var rest5 := LettersOToU + rest6;
    var rest4 := LettersHToN + rest5;
    var rest3 := LettersAToG + rest4;
    var rest2 := ShiftedDigits + rest3;
    var rest1 := Digits + rest2;
    var rest0 := EditingKeys + rest1;
    assert Lookup(rest1, ks) == r by {
      assert Lookup(Digits, ks) == r by {
        forall j | 0 <= j < 6 ensures Digits[j].keysym != ks {
          assert j in {0, 1, 2, 3, 4, 5};
        }
        LookupAt(Digits, ks, 6);
      }
      LookupAppend(Digits, rest2, ks);
    }
    assert Lookup(rest0, ks) == r by {
      EditingKeysMiss(ks);
      LookupAppend(EditingKeys, rest1, ks);
    }
  }

  /** The groups from LettersHToN on answer a small u as they do for the whole table. */
  lemma SmallUFromGroup4(ks: int)
    requires ks == 0x75
    ensures Lookup(LettersHToN + (LettersOToU + (LettersVToZ + (Symbols + LineKeys))), ks) == Some(Response(0x75, 5, 0xf7, -1, 0))
  {
    var r: Option<Response> := Some(Response(0x75, 5, 0xf7, -1, 0));
    var rest7 := Symbols + LineKeys;
    var rest6 := LettersVToZ + rest7;
    var rest5 := LettersOToU + rest6;
    var rest4 := LettersHToN + rest5;
    assert Lookup(rest5, ks) == r by {
      assert Lookup(LettersOToU, ks) == r by {
        forall j | 0 <= j < 13 ensures LettersOToU[j].keysym != ks {
          assert j in {0, 1, 2, 3, 4, 5, 6, 7, 8, 9, 10, 11, 12};
        }
        LookupAt(LettersOToU, ks, 13);
      }
      LookupAppend(LettersOToU, rest6, ks);
    }
    assert Lookup(rest4, ks) == r by {
      LettersHToNMiss(ks);
      LookupAppend(LettersHToN, rest5, ks);
    }
  }

  /** The entry for a small u. */
  lemma SmallUResponse(ks: int)
    requires ks == 0x75
    ensures KeyResponse(ks) == Some(Response(0x75, 5, 0xf7, -1, 0))
  {
    var r: Option<Response> := Some(Response(0x75, 5, 0xf7, -1, 0));
    var rest7 := Symbols + LineKeys;
    var rest6 := LettersVToZ + rest7;
    var rest5 := LettersOToU + rest6;
    var rest4 := LettersHToN + rest5;
    var rest3 := LettersAToG + rest4;
    var rest2 := ShiftedDigits + rest3;
    var rest1 := Digits + rest2;
    var rest0 := EditingKeys + rest1;
    SmallUFromGroup4(ks);
    assert Lookup(rest3, ks) == r by {
      LettersAToGMiss(ks);
      LookupAppend(LettersAToG, rest4, ks);
    }
    assert Lookup(rest2, ks) == r by {
      ShiftedDigitsMiss(ks);
      LookupAppend(ShiftedDigits, rest3, ks);
    }
    assert Lookup(rest1, ks) == r by {
      DigitsMiss(ks);
      LookupAppend(Digits, rest2, ks);
    }
    assert Lookup(rest0, ks) == r by {
      EditingKeysMiss(ks);
      LookupAppend(EditingKeys, rest1, ks);
    }
  }

  /** The entry for a small e. */
  lemma SmallEResponse(ks: int)
    requires ks == 0x65
    ensures KeyResponse(ks) == Some(Response(0x65, 2, 0xfb, -1, 0))
  {
    var r: Option<Response> := Some(Response(0x65, 2, 0xfb, -1, 0));
    var rest7 := Symbols + LineKeys;
    var rest6 := LettersVToZ + rest7;
    var rest5 := LettersOToU + rest6;
    var rest4 := LettersHToN + rest5;
    var rest3 := LettersAToG + rest4;
    var rest2 := ShiftedDigits + rest3;
    var rest1 := Digits + rest2;
    var rest0 := EditingKeys + rest1;
    assert Lookup(rest3, ks) == r by {
      assert Lookup(LettersAToG, ks) == r by {
        forall j | 0 <= j < 9 ensures LettersAToG[j].keysym != ks {
          assert j in {0, 1, 2, 3, 4, 5, 6, 7, 8};
        }
        LookupAt(LettersAToG, ks, 9);
      }
      LookupAppend(LettersAToG, rest4, ks);
    }
    assert Lookup(rest2, ks) == r by {
      ShiftedDigitsMiss(ks);
      LookupAppend(ShiftedDigits, rest3, ks);
    }
    assert Lookup(rest1, ks) == r by {
      DigitsMiss(ks);
      LookupAppend(Digits, rest2, ks);
    }
    assert Lookup(rest0, ks) == r by {
      EditingKeysMiss(ks);
      LookupAppend(EditingKeys, rest1, ks);
    }
  }

  /** The entry for a small f. */
  lemma SmallFResponse(ks: int)
    requires ks == 0x66
    ensures KeyResponse(ks) == Some(Response(0x66, 1, 0xf7, -1, 0))
  {
    var r: Option<Response> := Some(Response(0x66, 1, 0xf7, -1, 0));
    var rest7 := Symbols + LineKeys;
    var rest6 := LettersVToZ + rest7;
    var rest5 := LettersOToU + rest6;
    var rest4 := LettersHToN + rest5;
    var rest3 := LettersAToG + rest4;
    var rest2 := ShiftedDigits + rest3;
    var rest1 := Digits + rest2;
    var rest0 := EditingKeys + rest1;
    assert Lookup(rest3, ks) == r by {
      assert Lookup(LettersAToG, ks) == r by {
        forall j | 0 <= j < 11 ensures LettersAToG[j].keysym != ks {
          assert j in {0, 1, 2, 3, 4, 5, 6, 7, 8, 9, 10};
        }
        LookupAt(LettersAToG, ks, 11);
      }
      LookupAppend(LettersAToG, rest4, ks);
    }
    assert Lookup(rest2, ks) == r by {
      ShiftedDigitsMiss(ks);
      LookupAppend(ShiftedDigits, rest3, ks);
    }
    assert Lookup(rest1, ks) == r by {
      DigitsMiss(ks);
      LookupAppend(Digits, rest2, ks);
    }
    assert Lookup(rest0, ks) == r by {
      EditingKeysMiss(ks);
      LookupAppend(EditingKeys, rest1, ks);
    }
  }

  /** The entry for a small n. */
  lemma SmallNResponse(ks: int)
    requires ks == 0x6e
    ensures KeyResponse(ks) == Some(Response(0x6e, 7, 0xfb, -1, 0))
  {
    var r: Option<Response> := Some(Response(0x6e, 7, 0xfb, -1, 0));
    var rest7 := Symbols + LineKeys;
    var rest6 := LettersVToZ + rest7;
    var rest5 := LettersOToU + rest6;
    var rest4 := LettersHToN + rest5;
    var rest3 := LettersAToG + rest4;
    var rest2 := ShiftedDigits + rest3;
    var rest1 := Digits + rest2;
    var rest0 := EditingKeys + rest1;
    assert Lookup(rest4, ks) == r by {
      assert Lookup(LettersHToN, ks) == r by {
        forall j | 0 <= j < 13 ensures LettersHToN[j].keysym != ks {
          assert j in {0, 1, 2, 3, 4, 5, 6, 7, 8, 9, 10, 11, 12};
        }
        LookupAt(LettersHToN, ks, 13);
      }
      LookupAppend(LettersHToN, rest5, ks);
    }
    assert Lookup(rest3, ks) == r by {
      LettersAToGMiss(ks);
      LookupAppend(LettersAToG, rest4, ks);
    }
    assert Lookup(rest2, ks) == r by {
      ShiftedDigitsMiss(ks);
      LookupAppend(ShiftedDigits, rest3, ks);
    }
    assert Lookup(rest1, ks) == r by {
      DigitsMiss(ks);
      LookupAppend(Digits, rest2, ks);
    }
    assert Lookup(rest0, ks) == r by {
      EditingKeysMiss(ks);
      LookupAppend(EditingKeys, rest1, ks);
    }
  }

  /** The groups from LettersHToN on answer the tab character as they do for the whole table. */
  lemma TabCharacterFromGroup4(ks: int)
    requires ks == 0x9
    ensures Lookup(LettersHToN + (LettersOToU + (LettersVToZ + (Symbols + LineKeys))), ks) == Some(Response(0x9, 7, 0xfe, -1, 0))
  {
    var r: Option<Response> := Some(Response(0x9, 7, 0xfe, -1, 0));
    var rest7 := Symbols + LineKeys;
    var rest6 := LettersVToZ + rest7;
    var rest5 := LettersOToU + rest6;
    var rest4 := LettersHToN + rest5;
    assert Lookup(LineKeys, ks) == r by {
      forall j | 0 <= j < 11 ensures LineKeys[j].keysym != ks {
        assert j in {0, 1, 2, 3, 4, 5, 6, 7, 8, 9, 10};
      }
      LookupAt(LineKeys, ks, 11);
    }
    assert Lookup(rest7, ks) == r by {
      SymbolsMiss(ks);
      LookupAppend(Symbols, LineKeys, ks);
    }
    assert Lookup(rest6, ks) == r by {
      LettersVToZMiss(ks);
      LookupAppend(LettersVToZ, rest7, ks);
    }
    assert Lookup(rest5, ks) == r by {
      LettersOToUMiss(ks);
      LookupAppend(LettersOToU, rest6, ks);
    }
    assert Lookup(rest4, ks) == r by {
      LettersHToNMiss(ks);
      LookupAppend(LettersHToN, rest5, ks);
    }
  }

  /** The entry for the tab character. */
  lemma TabCharacterResponse(ks: int)
    requires ks == 0x9
    ensures KeyResponse(ks) == Some(Response(0x9, 7, 0xfe, -1, 0))
  {
    var r: Option<Response> := Some(Response(0x9, 7, 0xfe, -1, 0));
    var rest7 := Symbols + LineKeys;
    var rest6 := LettersVToZ + rest7;
    var rest5 := LettersOToU + rest6;
    var rest4 := LettersHToN + rest5;
    var rest3 := LettersAToG + rest4;
    var rest2 := ShiftedDigits + rest3;
    var rest1 := Digits + rest2;
    var rest0 := EditingKeys + rest1;
    TabCharacterFromGroup4(ks);
    assert Lookup(rest3, ks) == r by {
      LettersAToGMiss(ks);
      LookupAppend(LettersAToG, rest4, ks);
    }
    assert Lookup(rest2, ks) == r by {
      ShiftedDigitsMiss(ks);
      LookupAppend(ShiftedDigits, rest3, ks);
    }
    assert Lookup(rest1, ks) == r by {
      DigitsMiss(ks);
      LookupAppend(Digits, rest2, ks);
    }
    assert Lookup(rest0, ks) == r by {
      EditingKeysMiss(ks);
      LookupAppend(EditingKeys, rest1, ks);
    }
  }

  /** The groups from LettersHToN on answer the asterisk as they do for the whole table. */
  lemma AsteriskFromGroup4(ks: int)
    requires ks == 0x2a
    ensures Lookup(LettersHToN + (LettersOToU + (LettersVToZ + (Symbols + LineKeys))), ks) == Some(Response(0x2a, 7, 0xf7, 0, 0xfd))
  {
    var r: Option<Response> := Some(Response(0x2a, 7, 0xf7, 0, 0xfd));
    var rest7 := Symbols + LineKeys;
    var rest6 := LettersVToZ + rest7;
    var rest5 := LettersOToU + rest6;
    var rest4 := LettersHToN + rest5;
    assert Lookup(LineKeys, ks) == r by {
      forall j | 0 <= j < 6 ensures LineKeys[j].keysym != ks {
        assert j in {0, 1, 2, 3, 4, 5};
      }
      LookupAt(LineKeys, ks, 6);
    }
    assert Lookup(rest7, ks) == r by {
      SymbolsMiss(ks);
      LookupAppend(Symbols, LineKeys, ks);
    }
    assert Lookup(rest6, ks) == r by {
      LettersVToZMiss(ks);
      LookupAppend(LettersVToZ, rest7, ks);
    }
    assert Lookup(rest5, ks) == r by {
      LettersOToUMiss(ks);
      LookupAppend(LettersOToU, rest6, ks);
    }
    assert Lookup(rest4, ks) == r by {
      LettersHToNMiss(ks);
      LookupAppend(LettersHToN, rest5, ks);
    }
  }

  /** The entry for the asterisk. */
  lemma AsteriskResponse(ks: int)
    requires ks == 0x2a
    ensures KeyResponse(ks) == Some(Response(0x2a, 7, 0xf7, 0, 0xfd))
  {
    var r: Option<Response> := Some(Response(0x2a, 7, 0xf7, 0, 0xfd));
    var rest7 := Symbols + LineKeys;
    var rest6 := LettersVToZ + rest7;
    var rest5 := LettersOToU + rest6;
    var rest4 := LettersHToN + rest5;
    var rest3 := LettersAToG + rest4;
    var rest2 := ShiftedDigits + rest3;
    var rest1 := Digits + rest2;
    var rest0 := EditingKeys + rest1;
    AsteriskFromGroup4(ks);
    assert Lookup(rest3, ks) == r by {
      LettersAToGMiss(ks);
      LookupAppend(LettersAToG, rest4, ks);
    }
    assert Lookup(rest2, ks) == r by {
      ShiftedDigitsMiss(ks);
      LookupAppend(ShiftedDigits, rest3, ks);
    }
    assert Lookup(rest1, ks) == r by {
      DigitsMiss(ks);
      LookupAppend(Digits, rest2, ks);
    }
    assert Lookup(rest0, ks) == r by {
      EditingKeysMiss(ks);
      LookupAppend(EditingKeys, rest1, ks);
    }
  }

  /** The entry for a capital A. */
  lemma CapitalAResponse(ks: int)
    requires ks == 0x41
    ensures KeyResponse(ks) == Some(Response(0x41, 0, 0xfe, 1, 0xfe))
  {
    var r: Option<Response> := Some(Response(0x41, 0, 0xfe, 1, 0xfe));
    var rest7 := Symbols + LineKeys;
    var rest6 := LettersVToZ + rest7;
    var rest5 := LettersOToU + rest6;
    var rest4 := LettersHToN + rest5;
    var rest3 := LettersAToG + rest4;
    var rest2 := ShiftedDigits + rest3;
    var rest1 := Digits + rest2;
    var rest0 := EditingKeys + rest1;
    assert Lookup(rest3, ks) == r by {
      assert Lookup(LettersAToG, ks) == r by {
        LookupAt(LettersAToG, ks, 0);
      }
      LookupAppend(LettersAToG, rest4, ks);
    }
    assert Lookup(rest2, ks) == r by {
      ShiftedDigitsMiss(ks);
      LookupAppend(ShiftedDigits, rest3, ks);
    }
    assert Lookup(rest1, ks) == r by {
      DigitsMiss(ks);
      LookupAppend(Digits, rest2, ks);
    }
    assert Lookup(rest0, ks) == r by {
      EditingKeysMiss(ks);
      LookupAppend(EditingKeys, rest1, ks);
    }
  }

  /** The groups from LettersHToN on answer Sys_Req as they do for the whole table. */
  lemma SysReqFromGroup4(ks: int)
    requires ks == 0xff15
    ensures Lookup(LettersHToN + (LettersOToU + (LettersVToZ + (Symbols + LineKeys))), ks) == None
  {
    var r: Option<Response> := None;
    var rest7 := Symbols + LineKeys;
    var rest6 := LettersVToZ + rest7;
    var rest5 := LettersOToU + rest6;
    var rest4 := LettersHToN + rest5;
    SysReqFromGroup6(ks);
    assert Lookup(rest5, ks) == r by {
      LettersOToUMiss(ks);
      LookupAppend(LettersOToU, rest6, ks);
    }
    assert Lookup(rest4, ks) == r by {
      LettersHToNMiss(ks);
      LookupAppend(LettersHToN, rest5, ks);
    }
  }

  /** The groups from LettersVToZ on do not list Sys_Req. */
  lemma SysReqFromGroup6(ks: int)
    requires ks == 0xff15
    ensures Lookup(LettersVToZ + (Symbols + LineKeys), ks) == None
  {
    var r: Option<Response> := None;
    var rest7 := Symbols + LineKeys;
    assert Lookup(LineKeys, ks) == r by {
      LineKeysMiss(ks);
    }
    assert Lookup(rest7, ks) == r by {
      SymbolsMiss(ks);
      LookupAppend(Symbols, LineKeys, ks);
    }
    LettersVToZMiss(ks);
    LookupAppend(LettersVToZ, rest7, ks);
  }

  /** The entry for Sys_Req. */
  lemma SysReqResponse(ks: int)
    requires ks == 0xff15
    ensures KeyResponse(ks) == None
  {
    var r: Option<Response> := None;
    var rest7 := Symbols + LineKeys;
    var rest6 := LettersVToZ + rest7;
    var rest5 := LettersOToU + rest6;
    var rest4 := LettersHToN + rest5;
    var rest3 := LettersAToG + rest4;
    var rest2 := ShiftedDigits + rest3;
    var rest1 := Digits + rest2;
    var rest0 := EditingKeys + rest1;
    SysReqFromGroup4(ks);
    assert Lookup(rest3, ks) == r by {
      LettersAToGMiss(ks);
      LookupAppend(LettersAToG, rest4, ks);
    }
    assert Lookup(rest2, ks) == r by {
      ShiftedDigitsMiss(ks);
      LookupAppend(ShiftedDigits, rest3, ks);
    }
    assert Lookup(rest1, ks) == r by {
      DigitsMiss(ks);
      LookupAppend(Digits, rest2, ks);
    }
    assert Lookup(rest0, ks) == r by {
      EditingKeysMiss(ks);
      LookupAppend(EditingKeys, rest1, ks);
    }
  }

  /** The table entries of the keys the keyboard unit tests press, and the absence of Sys_Req. */
  lemma ExampleResponses()
    ensures KeyResponse(0x37) == Some(Response(0x37, 4, 0xf7, -1, 0))
    ensures KeyResponse(0x75) == Some(Response(0x75, 5, 0xf7, -1, 0))
    ensures KeyResponse(0x65) == Some(Response(0x65, 2, 0xfb, -1, 0))
    ensures KeyResponse(0x66) == Some(Response(0x66, 1, 0xf7, -1, 0))
    ensures KeyResponse(0x6e) == Some(Response(0x6e, 7, 0xfb, -1, 0))
    ensures KeyResponse(0x09) == Some(Response(0x09, 7, 0xfe, -1, 0))
    ensures KeyResponse(0x2a) == Some(Response(0x2a, 7, 0xf7, 0, 0xfd))
    ensures KeyResponse(0x41) == Some(Response(0x41, 0, 0xfe, 1, 0xfe))
    ensures KeyResponse(0xff15) == None
  {
    SevenResponse(0x37);
    SmallUResponse(0x75);
    SmallEResponse(0x65);
    SmallFResponse(0x66);
    SmallNResponse(0x6e);
    TabCharacterResponse(0x09);
    AsteriskResponse(0x2a);
    CapitalAResponse(0x41);
    SysReqResponse(0xff15);
  }

  /** Pressing 7, u, e, f and n on a clear keyboard, as in the keyboard unit tests. */
  lemma SeveralKeysExample()
    ensures Pressed(Pressed(Pressed(Pressed(Pressed(AllUp, 0x37), 0x75), 0x65), 0x66), 0x6e)
      == [0xff, 0xf7, 0xfb, 0xff, 0xf7, 0xf7, 0xff, 0xfb]
  {
    ExampleResponses();
  }

  /** The tab character, the asterisk and a capital A on a clear keyboard, as in the keyboard unit tests. */
  lemma SingleKeyExamples()
    ensures Pressed(AllUp, 0x09) == [0xff, 0xff, 0xff, 0xff, 0xff, 0xff, 0xff, 0xfe]
    ensures Pressed(AllUp, 0x2a) == [0xfd, 0xff, 0xff, 0xff, 0xff, 0xff, 0xff, 0xf7]
    ensures Pressed(AllUp, 0x41) == [0xfe, 0xfe, 0xff, 0xff, 0xff, 0xff, 0xff, 0xff]
  {
    ExampleResponses();
  }

  /** Sys_Req is not in the table, so pressing it changes no port. */
  lemma UnknownKeyExample(p: seq<bv8>)
    requires |p| == 8
    ensures Pressed(p, 0xff15) == p
  {
    ExampleResponses();
  }

  /**
   * `keyboard_get_key_response` on the table t: scans it entry by entry (five
   * integers at a time in the source) and reports the first entry for ks.
   * The keyboard calls it on ResponseTable.
   */
  method GetKeyResponse(t: seq<Response>, ks: int) returns (found: bool, port1: int, port2: int, mask1: bv8, mask2: bv8)
    ensures found <==> Lookup(t, ks).Some?
    ensures found ==> var e := Lookup(t, ks).value;
      port1 == e.port1 && mask1 == e.mask1 && port2 == e.port2 && mask2 == e.mask2
  {
    found, port1, port2, mask1, mask2 := false, 0, 0, 0, 0;
    var i := 0;
    while i < |t|
      invariant 0 <= i <= |t|
      invariant Lookup(t, ks) == Lookup(t[i..], ks)
    {
      var e := t[i];
      assert t[i..][0] == e && t[i..][1..] == t[i + 1..];
      if e.keysym == ks {
        found, port1, port2, mask1, mask2 := true, e.port1, e.port2, e.mask1, e.mask2;
        return;
      }
      i := i + 1;
    }
  }

  /** The eight port bytes of the keyboard. */
  class Keyboard {
    const ports: array<bv8>

    predicate Valid()
      reads this
    {
      ports.Length == 8
    }

    /** `keyboard_ports` starts with every key up. */
    constructor ()
      ensures Valid() && fresh(ports) && ports[..] == AllUp
    {
      var a := new bv8[8](_ => 0xff);
      assert a[..] == AllUp;
      ports := a;
    }

    /** `keyboard_get_keyport`. */
    function Keyport(port: Row): bv8
      requires Valid()
      reads this, ports
    {
      ports[port]
    }

    /** `keyboard_clear`: every port back to 0xFF. */
    method Clear()
      requires Valid()
      modifies ports
      ensures ports[..] == AllUp
    {
      var i := 0;
      while i < 8
        invariant 0 <= i <= 8
        invariant forall j :: 0 <= j < i ==> ports[j] == 0xff
      {
        ports[i] := 0xff;
        i := i + 1;
      }
      assert ports[..] == AllUp;
    }

    /** `keyboard_process_keypress_keyports`: reports whether ks is in the table and ANDs its masks in. */
    method ProcessKeypressKeyports(ks: int) returns (found: bool)
      requires Valid()
      modifies ports
      ensures found <==> KeyResponse(ks).Some?
      ensures ports[..] == Pressed(old(ports[..]), ks)
    {
      var port1, port2, mask1, mask2;
      found, port1, port2, mask1, mask2 := GetKeyResponse(ResponseTable, ks);
      if found {
        ports[port1] := BitAnd(ports[port1], mask1);
        if port2 != -1 {
          ports[port2] := BitAnd(ports[port2], mask2);
        }
      }
    }

    /** `keyboard_process_keyrelease_keyports`: reports whether ks is in the table and ORs the masks' complements in. */
    method ProcessKeyreleaseKeyports(ks: int) returns (found: bool)
      requires Valid()
      modifies ports
      ensures found <==> KeyResponse(ks).Some?
      ensures ports[..] == Released(old(ports[..]), ks)
    {
      var port1, port2, mask1, mask2;
      found, port1, port2, mask1, mask2 := GetKeyResponse(ResponseTable, ks);
      if found {
        ports[port1] := BitOr(ports[port1], BitNot(mask1));
        if port2 != -1 {
          ports[port2] := BitOr(ports[port2], BitNot(mask2));
        }
      }
    }

    /** `keyboard_keyrelease` for the KeySym ks: a key the table does not know clears the keyboard. */
    method Keyrelease(ks: int)
      requires Valid()
      modifies ports
      ensures ports[..] == KeyReleased(old(ports[..]), ks)
    {
      var found := ProcessKeyreleaseKeyports(ks);
      if !found {
        Clear();
      }
    }
  }
}
