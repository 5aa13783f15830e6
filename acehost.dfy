/**
 * The key press and key release switches of the original X11 front end
 * (xmain.c), as lists of row updates on the eight keyboard rows.
 */
module AceKeySwitch {
  import opened KeyMatrix
  import KeySym

  /** `keyports[row] &= mask` on a press, `keyports[row] |= mask` on a release. */
  datatype PortOp = PortOp(row: Row, mask: bv8)

  /** The statements one case of a switch executes, in order. */
  datatype Ops = Nil | Cons(op: PortOp, rest: Ops)

  /** A press either quits (`dontpanic`), requests a reset (F12), or ANDs masks into rows. */
  datatype PressAction = Quit | ResetAce | Press(ands: Ops)

  /** A release either clears the whole keyboard or ORs masks into rows. */
  datatype ReleaseAction = ClearAll | Release(ors: Ops)

  /**
   * The `process_keypress` switch, with each case's fall-through resolved:
   * a capital letter clears bit 0 of row 0 and then does what its lower-case
   * letter does.  The masks are the literal `&=` operands.  The cases are
   * grouped by KeySym range: digits and punctuation, `@` to `_`, the
   * backquote to `~`, and the keys above the ASCII range.
   */
  function KeypressAction(ks: int): PressAction
  {
    if ks < 0x40 then PressPunctuation(ks)
    else if ks < 0x60 then PressCapitals(ks)
    else if ks < 0x80 then PressLowerCase(ks)
    else PressFunctionKeys(ks)
  }

  /** The press cases for KeySyms below 0x40: space, digits and punctuation. */
  function PressPunctuation(ks: int): PressAction
  {
    match ks
    case 10 => Press(Cons(PortOp(6, 0xfe), Nil))  // '\n'
    case 32 => Press(Cons(PortOp(7, 0xfe), Nil))  // XK_space
    case 33 => Press(Cons(PortOp(3, 0xfe), Cons(PortOp(0, 0xfd), Nil)))  // XK_exclam
    case 34 => Press(Cons(PortOp(5, 0xfe), Cons(PortOp(0, 0xfd), Nil)))  // XK_quotedbl
    case 35 => Press(Cons(PortOp(3, 0xfb), Cons(PortOp(0, 0xfd), Nil)))  // XK_numbersign
    case 36 => Press(Cons(PortOp(3, 0xf7), Cons(PortOp(0, 0xfd), Nil)))  // XK_dollar
    case 37 => Press(Cons(PortOp(3, 0xef), Cons(PortOp(0, 0xfd), Nil)))  // XK_percent
    case 38 => Press(Cons(PortOp(4, 0xef), Cons(PortOp(0, 0xfd), Nil)))  // XK_ampersand
    case 39 => Press(Cons(PortOp(4, 0xf7), Cons(PortOp(0, 0xfd), Nil)))  // XK_apostrophe
    case 40 => Press(Cons(PortOp(4, 0xfb), Cons(PortOp(0, 0xfd), Nil)))  // XK_parenleft
    case 41 => Press(Cons(PortOp(4, 0xfd), Cons(PortOp(0, 0xfd), Nil)))  // XK_parenright
    case 42 => Press(Cons(PortOp(7, 0xf7), Cons(PortOp(0, 0xfd), Nil)))  // XK_asterisk
    case 43 => Press(Cons(PortOp(6, 0xfb), Cons(PortOp(0, 0xfd), Nil)))  // XK_plus
    case 44 => Press(Cons(PortOp(7, 0xfb), Cons(PortOp(0, 0xfd), Nil)))  // XK_comma
    case 45 => Press(Cons(PortOp(6, 0xf7), Cons(PortOp(0, 0xfd), Nil)))  // XK_minus
    case 46 => Press(Cons(PortOp(7, 0xfd), Cons(PortOp(0, 0xfd), Nil)))  // XK_period
    case 47 => Press(Cons(PortOp(7, 0xef), Cons(PortOp(0, 0xfd), Nil)))  // XK_slash
    case 48 => Press(Cons(PortOp(4, 0xfe), Nil))  // XK_0
    case 49 => Press(Cons(PortOp(3, 0xfe), Nil))  // XK_1
    case 50 => Press(Cons(PortOp(3, 0xfd), Nil))  // XK_2
    case 51 => Press(Cons(PortOp(3, 0xfb), Nil))  // XK_3
    case 52 => Press(Cons(PortOp(3, 0xf7), Nil))  // XK_4
    case 53 => Press(Cons(PortOp(3, 0xef), Nil))  // XK_5
    case 54 => Press(Cons(PortOp(4, 0xef), Nil))  // XK_6
    case 55 => Press(Cons(PortOp(4, 0xf7), Nil))  // XK_7
    case 56 => Press(Cons(PortOp(4, 0xfb), Nil))  // XK_8
    case 57 => Press(Cons(PortOp(4, 0xfd), Nil))  // XK_9
    case 58 => Press(Cons(PortOp(0, 0xfb), Cons(PortOp(0, 0xfd), Nil)))  // XK_colon
    case 59 => Press(Cons(PortOp(5, 0xfd), Cons(PortOp(0, 0xfd), Nil)))  // XK_semicolon
    case 60 => Press(Cons(PortOp(2, 0xf7), Cons(PortOp(0, 0xfd), Nil)))  // XK_less
    case 61 => Press(Cons(PortOp(6, 0xfd), Cons(PortOp(0, 0xfd), Nil)))  // XK_equal
    case 62 => Press(Cons(PortOp(2, 0xef), Cons(PortOp(0, 0xfd), Nil)))  // XK_greater
    case 63 => Press(Cons(PortOp(0, 0xef), Cons(PortOp(0, 0xfd), Nil)))  // XK_question
    case _ => Press(Nil)
  }

  /** The press cases for KeySyms 0x40 to 0x5F: `@`, the capital letters, the brackets, backslash, caret and underscore. */
  function PressCapitals(ks: int): PressAction
  {
    match ks
    case 64 => Press(Cons(PortOp(3, 0xfd), Cons(PortOp(0, 0xfd), Nil)))  // XK_at
    case 65 => Press(Cons(PortOp(0, 0xfe), Cons(PortOp(1, 0xfe), Nil)))  // XK_A
    case 66 => Press(Cons(PortOp(0, 0xfe), Cons(PortOp(7, 0xf7), Nil)))  // XK_B
    case 67 => Press(Cons(PortOp(0, 0xfe), Cons(PortOp(0, 0xef), Nil)))  // XK_C
    case 68 => Press(Cons(PortOp(0, 0xfe), Cons(PortOp(1, 0xfb), Nil)))  // XK_D
    case 69 => Press(Cons(PortOp(0, 0xfe), Cons(PortOp(2, 0xfb), Nil)))  // XK_E
    case 70 => Press(Cons(PortOp(0, 0xfe), Cons(PortOp(1, 0xf7), Nil)))  // XK_F
    case 71 => Press(Cons(PortOp(0, 0xfe), Cons(PortOp(1, 0xef), Nil)))  // XK_G
    case 72 => Press(Cons(PortOp(0, 0xfe), Cons(PortOp(6, 0xef), Nil)))  // XK_H
    case 73 => Press(Cons(PortOp(0, 0xfe), Cons(PortOp(5, 0xfb), Nil)))  // XK_I
    case 74 => Press(Cons(PortOp(0, 0xfe), Cons(PortOp(6, 0xf7), Nil)))  // XK_J
    case 75 => Press(Cons(PortOp(0, 0xfe), Cons(PortOp(6, 0xfb), Nil)))  // XK_K
    case 76 => Press(Cons(PortOp(0, 0xfe), Cons(PortOp(6, 0xfd), Nil)))  // XK_L
    case 77 => Press(Cons(PortOp(0, 0xfe), Cons(PortOp(7, 0xfd), Nil)))  // XK_M
    case 78 => Press(Cons(PortOp(0, 0xfe), Cons(PortOp(7, 0xfb), Nil)))  // XK_N
    case 79 => Press(Cons(PortOp(0, 0xfe), Cons(PortOp(5, 0xfd), Nil)))  // XK_O
    case 80 => Press(Cons(PortOp(0, 0xfe), Cons(PortOp(5, 0xfe), Nil)))  // XK_P
    case 81 => Press(Cons(PortOp(0, 0xfe), Cons(PortOp(2, 0xfe), Nil)))  // XK_Q
    case 82 => Press(Cons(PortOp(0, 0xfe), Cons(PortOp(2, 0xf7), Nil)))  // XK_R
    case 83 => Press(Cons(PortOp(0, 0xfe), Cons(PortOp(1, 0xfd), Nil)))  // XK_S
    case 84 => Press(Cons(PortOp(0, 0xfe), Cons(PortOp(2, 0xef), Nil)))  // XK_T
    case 85 => Press(Cons(PortOp(0, 0xfe), Cons(PortOp(5, 0xf7), Nil)))  // XK_U
    case 86 => Press(Cons(PortOp(0, 0xfe), Cons(PortOp(7, 0xef), Nil)))  // XK_V
    case 87 => Press(Cons(PortOp(0, 0xfe), Cons(PortOp(2, 0xfd), Nil)))  // XK_W
    case 88 => Press(Cons(PortOp(0, 0xfe), Cons(PortOp(0, 0xf7), Nil)))  // XK_X
    case 89 => Press(Cons(PortOp(0, 0xfe), Cons(PortOp(5, 0xef), Nil)))  // XK_Y
    case 90 => Press(Cons(PortOp(0, 0xfe), Cons(PortOp(0, 0xfb), Nil)))  // XK_Z
    case 91 => Press(Cons(PortOp(5, 0xef), Cons(PortOp(0, 0xfd), Nil)))  // XK_bracketleft
    case 92 => Press(Cons(PortOp(1, 0xfb), Cons(PortOp(0, 0xfd), Nil)))  // XK_backslash
    case 93 => Press(Cons(PortOp(5, 0xf7), Cons(PortOp(0, 0xfd), Nil)))  // XK_bracketright
    case 94 => Press(Cons(PortOp(6, 0xef), Cons(PortOp(0, 0xfd), Nil)))  // XK_asciicircum
    case 95 => Press(Cons(PortOp(4, 0xfe), Cons(PortOp(0, 0xfd), Nil)))  // XK_underscore
    case _ => Press(Nil)
  }

  /** The press cases for KeySyms 0x60 to 0x7F: the backquote, the lower-case letters and `{ | } ~`. */
  function PressLowerCase(ks: int): PressAction
  {
    match ks
    case 97 => Press(Cons(PortOp(1, 0xfe), Nil))  // XK_a
    case 98 => Press(Cons(PortOp(7, 0xf7), Nil))  // XK_b
    case 99 => Press(Cons(PortOp(0, 0xef), Nil))  // XK_c
    case 100 => Press(Cons(PortOp(1, 0xfb), Nil))  // XK_d
    case 101 => Press(Cons(PortOp(2, 0xfb), Nil))  // XK_e
    case 102 => Press(Cons(PortOp(1, 0xf7), Nil))  // XK_f
    case 103 => Press(Cons(PortOp(1, 0xef), Nil))  // XK_g
    case 104 => Press(Cons(PortOp(6, 0xef), Nil))  // XK_h
    case 105 => Press(Cons(PortOp(5, 0xfb), Nil))  // XK_i
    case 106 => Press(Cons(PortOp(6, 0xf7), Nil))  // XK_j
    case 107 => Press(Cons(PortOp(6, 0xfb), Nil))  // XK_k
    case 108 => Press(Cons(PortOp(6, 0xfd), Nil))  // XK_l
    case 109 => Press(Cons(PortOp(7, 0xfd), Nil))  // XK_m
    case 110 => Press(Cons(PortOp(7, 0xfb), Nil))  // XK_n
    case 111 => Press(Cons(PortOp(5, 0xfd), Nil))  // XK_o
    case 112 => Press(Cons(PortOp(5, 0xfe), Nil))  // XK_p
    case 113 => Press(Cons(PortOp(2, 0xfe), Nil))  // XK_q
    case 114 => Press(Cons(PortOp(2, 0xf7), Nil))  // XK_r
    case 115 => Press(Cons(PortOp(1, 0xfd), Nil))  // XK_s
    case 116 => Press(Cons(PortOp(2, 0xef), Nil))  // XK_t
    case 117 => Press(Cons(PortOp(5, 0xf7), Nil))  // XK_u
    case 118 => Press(Cons(PortOp(7, 0xef), Nil))  // XK_v
    case 119 => Press(Cons(PortOp(2, 0xfd), Nil))  // XK_w
    case 120 => Press(Cons(PortOp(0, 0xf7), Nil))  // XK_x
    case 121 => Press(Cons(PortOp(5, 0xef), Nil))  // XK_y
    case 122 => Press(Cons(PortOp(0, 0xfb), Nil))  // XK_z
    case 96 => Press(Cons(PortOp(5, 0xfb), Cons(PortOp(0, 0xfd), Nil)))  // XK_grave
    case 123 => Press(Cons(PortOp(1, 0xf7), Cons(PortOp(0, 0xfd), Nil)))  // XK_braceleft
    case 124 => Press(Cons(PortOp(1, 0xfd), Cons(PortOp(0, 0xfd), Nil)))  // XK_bar
    case 125 => Press(Cons(PortOp(1, 0xef), Cons(PortOp(0, 0xfd), Nil)))  // XK_braceright
    case 126 => Press(Cons(PortOp(1, 0xfe), Cons(PortOp(0, 0xfd), Nil)))  // XK_asciitilde
    case _ => Press(Nil)
  }

  /** The press cases for KeySyms from 0x80: Return and the X11 editing, function and modifier keys. */
  function PressFunctionKeys(ks: int): PressAction
  {
    match ks
    case 0xff1b => Quit  // XK_Escape
    case 0xffc9 => ResetAce  // XK_F12
    case 0xff0d => Press(Cons(PortOp(6, 0xfe), Nil))  // XK_Return
    case 0xffe2 => Press(Nil)  // XK_Shift_R
    case 0xffe1 => Press(Nil)  // XK_Shift_L
    case 0xffe9 => Press(Nil)  // XK_Alt_L
    case 0xffea => Press(Nil)  // XK_Alt_R
    case 0xffe7 => Press(Nil)  // XK_Meta_L
    case 0xffe8 => Press(Nil)  // XK_Meta_R
    case 0xffc1 => Press(Cons(PortOp(3, 0xf7), Cons(PortOp(0, 0xfe), Nil)))  // XK_F4
    case 0xffc6 => Press(Cons(PortOp(4, 0xfd), Cons(PortOp(0, 0xfe), Nil)))  // XK_F9
    case 0xffe3 => Press(Cons(PortOp(7, 0xfe), Cons(PortOp(0, 0xfe), Nil)))  // XK_Control_L
    case 0xffe4 => Press(Cons(PortOp(7, 0xfe), Cons(PortOp(0, 0xfe), Nil)))  // XK_Control_R
    case 0xffbe => Press(Cons(PortOp(3, 0xfe), Cons(PortOp(0, 0xfe), Nil)))  // XK_F1
    case 0xff08 => Press(Cons(PortOp(0, 0xfe), Cons(PortOp(4, 0xfe), Nil)))  // XK_BackSpace
    case 0xffff => Press(Cons(PortOp(0, 0xfe), Cons(PortOp(4, 0xfe), Nil)))  // XK_Delete
    case 0xff52 => Press(Cons(PortOp(4, 0xef), Cons(PortOp(0, 0xfe), Nil)))  // XK_Up
    case 0xff54 => Press(Cons(PortOp(4, 0xf7), Cons(PortOp(0, 0xfe), Nil)))  // XK_Down
    case 0xff51 => Press(Cons(PortOp(3, 0xef), Cons(PortOp(0, 0xfe), Nil)))  // XK_Left
    case 0xff53 => Press(Cons(PortOp(4, 0xfb), Cons(PortOp(0, 0xfe), Nil)))  // XK_Right
    case _ => Press(Nil)
  }


  /**
   * The `process_keyrelease` switch, grouped the same way.  The masks are
   * the low bytes of the `|=` operands, so `keyports[3] |= ~0xf7` appears as
   * `PortOp(3, 0x08)`.
   */
  function KeyreleaseAction(ks: int): ReleaseAction
  {
    if ks < 0x40 then ReleasePunctuation(ks)
    else if ks < 0x60 then ReleaseCapitals(ks)
    else if ks < 0x80 then ReleaseLowerCase(ks)
    else ReleaseFunctionKeys(ks)
  }

  /** The release cases for KeySyms below 0x40: space, digits and punctuation. */
  function ReleasePunctuation(ks: int): ReleaseAction
  {
    match ks
    case 32 => Release(Cons(PortOp(7, 0x01), Nil))  // XK_space
    case 33 => Release(Cons(PortOp(3, 0x01), Cons(PortOp(0, 0x02), Nil)))  // XK_exclam
    case 34 => Release(Cons(PortOp(5, 0x01), Cons(PortOp(0, 0x02), Nil)))  // XK_quotedbl
    case 35 => Release(Cons(PortOp(3, 0x04), Cons(PortOp(0, 0x02), Nil)))  // XK_numbersign
    case 36 => Release(Cons(PortOp(3, 0x08), Cons(PortOp(0, 0x02), Nil)))  // XK_dollar
    case 37 => Release(Cons(PortOp(3, 0x10), Cons(PortOp(0, 0x02), Nil)))  // XK_percent
    case 38 => Release(Cons(PortOp(4, 0x10), Cons(PortOp(0, 0x02), Nil)))  // XK_ampersand
    case 39 => Release(Cons(PortOp(4, 0x08), Cons(PortOp(0, 0x02), Nil)))  // XK_apostrophe
    case 40 => Release(Cons(PortOp(4, 0x04), Cons(PortOp(0, 0x02), Nil)))  // XK_parenleft
    case 41 => Release(Cons(PortOp(4, 0x02), Cons(PortOp(0, 0x02), Nil)))  // XK_parenright
    case 42 => Release(Cons(PortOp(7, 0x08), Cons(PortOp(0, 0x02), Nil)))  // XK_asterisk
    case 43 => Release(Cons(PortOp(6, 0x04), Cons(PortOp(0, 0x02), Nil)))  // XK_plus
    case 44 => Release(Cons(PortOp(7, 0x04), Cons(PortOp(0, 0x02), Nil)))  // XK_comma
    case 45 => Release(Cons(PortOp(6, 0x08), Cons(PortOp(0, 0x02), Nil)))  // XK_minus
    case 46 => Release(Cons(PortOp(7, 0x02), Cons(PortOp(0, 0x02), Nil)))  // XK_period
    case 47 => Release(Cons(PortOp(7, 0x10), Cons(PortOp(0, 0x02), Nil)))  // XK_slash
    case 48 => Release(Cons(PortOp(4, 0x01), Nil))  // XK_0
    case 49 => Release(Cons(PortOp(3, 0x01), Nil))  // XK_1
    case 50 => Release(Cons(PortOp(3, 0x02), Nil))  // XK_2
    case 51 => Release(Cons(PortOp(3, 0x04), Nil))  // XK_3
    case 52 => Release(Cons(PortOp(3, 0x08), Nil))  // XK_4
    case 53 => Release(Cons(PortOp(3, 0x10), Nil))  // XK_5
    case 54 => Release(Cons(PortOp(4, 0x10), Nil))  // XK_6
    case 55 => Release(Cons(PortOp(4, 0x08), Nil))  // XK_7
    case 56 => Release(Cons(PortOp(4, 0x04), Nil))  // XK_8
    case 57 => Release(Cons(PortOp(4, 0x02), Nil))  // XK_9
    case 58 => Release(Cons(PortOp(0, 0x04), Cons(PortOp(0, 0x02), Nil)))  // XK_colon
    case 59 => Release(Cons(PortOp(5, 0x02), Cons(PortOp(0, 0x02), Nil)))  // XK_semicolon
    case 60 => Release(Cons(PortOp(2, 0x08), Cons(PortOp(0, 0x02), Nil)))  // XK_less
    case 61 => Release(Cons(PortOp(6, 0x02), Cons(PortOp(0, 0x02), Nil)))  // XK_equal
    case 62 => Release(Cons(PortOp(2, 0x10), Cons(PortOp(0, 0x02), Nil)))  // XK_greater
    case 63 => Release(Cons(PortOp(0, 0x10), Cons(PortOp(0, 0x02), Nil)))  // XK_question
    case _ => ClearAll
  }

  /** The release cases for KeySyms 0x40 to 0x5F: `@`, the capital letters, the brackets, backslash, caret and underscore. */
  function ReleaseCapitals(ks: int): ReleaseAction
  {
    match ks
    case 64 => Release(Cons(PortOp(3, 0x02), Cons(PortOp(0, 0x02), Nil)))  // XK_at
    case 65 => Release(Cons(PortOp(0, 0x01), Cons(PortOp(1, 0x01), Nil)))  // XK_A
    case 66 => Release(Cons(PortOp(0, 0x01), Cons(PortOp(7, 0x08), Nil)))  // XK_B
    case 67 => Release(Cons(PortOp(0, 0x01), Cons(PortOp(0, 0x10), Nil)))  // XK_C
    case 68 => Release(Cons(PortOp(0, 0x01), Cons(PortOp(1, 0x04), Nil)))  // XK_D
    case 69 => Release(Cons(PortOp(0, 0x01), Cons(PortOp(2, 0x04), Nil)))  // XK_E
    case 70 => Release(Cons(PortOp(0, 0x01), Cons(PortOp(1, 0x08), Nil)))  // XK_F
    case 71 => Release(Cons(PortOp(0, 0x01), Cons(PortOp(1, 0x10), Nil)))  // XK_G
    case 72 => Release(Cons(PortOp(0, 0x01), Cons(PortOp(6, 0x10), Nil)))  // XK_H
    case 73 => Release(Cons(PortOp(0, 0x01), Cons(PortOp(5, 0x04), Nil)))  // XK_I
    case 74 => Release(Cons(PortOp(0, 0x01), Cons(PortOp(6, 0x08), Nil)))  // XK_J
    case 75 => Release(Cons(PortOp(0, 0x01), Cons(PortOp(6, 0x04), Nil)))  // XK_K
    case 76 => Release(Cons(PortOp(0, 0x01), Cons(PortOp(6, 0x02), Nil)))  // XK_L
    case 77 => Release(Cons(PortOp(0, 0x01), Cons(PortOp(7, 0x02), Nil)))  // XK_M
    case 78 => Release(Cons(PortOp(0, 0x01), Cons(PortOp(7, 0x04), Nil)))  // XK_N
    case 79 => Release(Cons(PortOp(0, 0x01), Cons(PortOp(5, 0x02), Nil)))  // XK_O
    case 80 => Release(Cons(PortOp(0, 0x01), Cons(PortOp(5, 0x01), Nil)))  // XK_P
    case 81 => Release(Cons(PortOp(0, 0x01), Cons(PortOp(2, 0x01), Nil)))  // XK_Q
    case 82 => Release(Cons(PortOp(0, 0x01), Cons(PortOp(2, 0x08), Nil)))  // XK_R
    case 83 => Release(Cons(PortOp(0, 0x01), Cons(PortOp(1, 0x02), Nil)))  // XK_S
    case 84 => Release(Cons(PortOp(0, 0x01), Cons(PortOp(2, 0x10), Nil)))  // XK_T
    case 85 => Release(Cons(PortOp(0, 0x01), Cons(PortOp(5, 0x08), Nil)))  // XK_U
    case 86 => Release(Cons(PortOp(0, 0x01), Cons(PortOp(7, 0x10), Nil)))  // XK_V
    case 87 => Release(Cons(PortOp(0, 0x01), Cons(PortOp(2, 0x02), Nil)))  // XK_W
    case 88 => Release(Cons(PortOp(0, 0x01), Cons(PortOp(0, 0x08), Nil)))  // XK_X
    case 89 => Release(Cons(PortOp(0, 0x01), Cons(PortOp(5, 0x10), Nil)))  // XK_Y
    case 90 => Release(Cons(PortOp(0, 0x01), Cons(PortOp(0, 0x04), Nil)))  // XK_Z
    case 91 => Release(Cons(PortOp(5, 0x10), Cons(PortOp(0, 0x02), Nil)))  // XK_bracketleft
    case 92 => Release(Cons(PortOp(1, 0x04), Cons(PortOp(0, 0x02), Nil)))  // XK_backslash
    case 93 => Release(Cons(PortOp(5, 0x08), Cons(PortOp(0, 0x02), Nil)))  // XK_bracketright
    case 94 => Release(Cons(PortOp(6, 0x10), Cons(PortOp(0, 0x02), Nil)))  // XK_asciicircum
    case 95 => Release(Cons(PortOp(4, 0x01), Cons(PortOp(0, 0x02), Nil)))  // XK_underscore
    case _ => ClearAll
  }

  /** The release cases for KeySyms 0x60 to 0x7F: the backquote, the lower-case letters and `{ | } ~`. */
  function ReleaseLowerCase(ks: int): ReleaseAction
  {
    match ks
    case 97 => Release(Cons(PortOp(1, 0x01), Nil))  // XK_a
    case 98 => Release(Cons(PortOp(7, 0x08), Nil))  // XK_b
    case 99 => Release(Cons(PortOp(0, 0x10), Nil))  // XK_c
    case 100 => Release(Cons(PortOp(1, 0x04), Nil))  // XK_d
    case 101 => Release(Cons(PortOp(2, 0x04), Nil))  // XK_e
    case 102 => Release(Cons(PortOp(1, 0x08), Nil))  // XK_f
    case 103 => Release(Cons(PortOp(1, 0x10), Nil))  // XK_g
    case 104 => Release(Cons(PortOp(6, 0x10), Nil))  // XK_h
    case 105 => Release(Cons(PortOp(5, 0x04), Nil))  // XK_i
    case 106 => Release(Cons(PortOp(6, 0x08), Nil))  // XK_j
    case 107 => Release(Cons(PortOp(6, 0x04), Nil))  // XK_k
    case 108 => Release(Cons(PortOp(6, 0x02), Nil))  // XK_l
    case 109 => Release(Cons(PortOp(7, 0x02), Nil))  // XK_m
    case 110 => Release(Cons(PortOp(7, 0x04), Nil))  // XK_n
    case 111 => Release(Cons(PortOp(5, 0x02), Nil))  // XK_o
    case 112 => Release(Cons(PortOp(5, 0x01), Nil))  // XK_p
    case 113 => Release(Cons(PortOp(2, 0x01), Nil))  // XK_q
    case 114 => Release(Cons(PortOp(2, 0x08), Nil))  // XK_r
    case 115 => Release(Cons(PortOp(1, 0x02), Nil))  // XK_s
    case 116 => Release(Cons(PortOp(2, 0x10), Nil))  // XK_t
    case 117 => Release(Cons(PortOp(5, 0x08), Nil))  // XK_u
    case 118 => Release(Cons(PortOp(7, 0x10), Nil))  // XK_v
    case 119 => Release(Cons(PortOp(2, 0x02), Nil))  // XK_w
    case 120 => Release(Cons(PortOp(0, 0x08), Nil))  // XK_x
    case 121 => Release(Cons(PortOp(5, 0x10), Nil))  // XK_y
    case 122 => Release(Cons(PortOp(0, 0x04), Nil))  // XK_z
    case 96 => Release(Cons(PortOp(5, 0x04), Cons(PortOp(0, 0x02), Nil)))  // XK_grave
    case 123 => Release(Cons(PortOp(1, 0x08), Cons(PortOp(0, 0x02), Nil)))  // XK_braceleft
    case 124 => Release(Cons(PortOp(1, 0x02), Cons(PortOp(0, 0x02), Nil)))  // XK_bar
    case 125 => Release(Cons(PortOp(1, 0x10), Cons(PortOp(0, 0x02), Nil)))  // XK_braceright
    case 126 => Release(Cons(PortOp(1, 0x01), Cons(PortOp(0, 0x02), Nil)))  // XK_asciitilde
    case _ => ClearAll
  }

  /** The release cases for KeySyms from 0x80: Return and the X11 editing, function and modifier keys. */
  function ReleaseFunctionKeys(ks: int): ReleaseAction
  {
    match ks
    case 0xff0d => Release(Cons(PortOp(6, 0x01), Nil))  // XK_Return
    case 0xffe1 => ClearAll  // XK_Shift_L
    case 0xffe2 => ClearAll  // XK_Shift_R
    case 0xffe9 => ClearAll  // XK_Alt_L
    case 0xffea => ClearAll  // XK_Alt_R
    case 0xffe7 => ClearAll  // XK_Meta_L
    case 0xffe8 => ClearAll  // XK_Meta_R
    case 0xff1b => ClearAll  // XK_Escape
    case 0xff09 => ClearAll  // XK_Tab
    case 0xffc1 => Release(Cons(PortOp(3, 0x08), Cons(PortOp(0, 0x01), Nil)))  // XK_F4
    case 0xffc6 => Release(Cons(PortOp(4, 0x02), Cons(PortOp(0, 0x01), Nil)))  // XK_F9
    case 0xffe3 => Release(Cons(PortOp(7, 0x01), Cons(PortOp(0, 0x01), Nil)))  // XK_Control_L
    case 0xffe4 => Release(Cons(PortOp(7, 0x01), Cons(PortOp(0, 0x01), Nil)))  // XK_Control_R
    case 0xffbe => Release(Cons(PortOp(3, 0x01), Cons(PortOp(0, 0x01), Nil)))  // XK_F1
    case 0xff08 => Release(Cons(PortOp(0, 0x01), Cons(PortOp(4, 0x01), Nil)))  // XK_BackSpace
    case 0xffff => Release(Cons(PortOp(0, 0x01), Cons(PortOp(4, 0x01), Nil)))  // XK_Delete
    case 0xff52 => Release(Cons(PortOp(4, 0x10), Cons(PortOp(0, 0x01), Nil)))  // XK_Up
    case 0xff54 => Release(Cons(PortOp(4, 0x08), Cons(PortOp(0, 0x01), Nil)))  // XK_Down
    case 0xff51 => Release(Cons(PortOp(3, 0x10), Cons(PortOp(0, 0x01), Nil)))  // XK_Left
    case 0xff53 => Release(Cons(PortOp(4, 0x04), Cons(PortOp(0, 0x01), Nil)))  // XK_Right
    case _ => ClearAll
  }


  /** The same rows with every mask complemented. */
  function Complements(ops: Ops): (r: Ops)
  {
    match ops
    case Nil => Nil
    case Cons(o, rest) => Cons(PortOp(o.row, BitNot(o.mask)), Complements(rest))
  }

  /** The rows after executing `keyports[row] &= mask` for each op in order. */
  function AndAll(p: seq<bv8>, ops: Ops): (p': seq<bv8>)
    requires |p| == 8
    ensures |p'| == 8
    decreases ops
  {
    match ops
    case Nil => p
    case Cons(o, rest) => AndAll(p[o.row := BitAnd(p[o.row], o.mask)], rest)
  }

  /** The rows after executing `keyports[row] |= mask` for each op in order. */
  function OrAll(p: seq<bv8>, ops: Ops): (p': seq<bv8>)
    requires |p| == 8
    ensures |p'| == 8
    decreases ops
  {
    match ops
    case Nil => p
    case Cons(o, rest) => OrAll(p[o.row := BitOr(p[o.row], o.mask)], rest)
  }

  /** The AND of every mask the ops apply to row r. */
  function RowAnd(ops: Ops, r: Row): bv8
  {
    match ops
    case Nil => 0xff
    case Cons(o, rest) => BitAnd(if o.row == r then o.mask else 0xff, RowAnd(rest, r))
  }

  /** The OR of every mask the ops apply to row r. */
  function RowOr(ops: Ops, r: Row): bv8
  {
    match ops
    case Nil => 0
    case Cons(o, rest) => BitOr(if o.row == r then o.mask else 0, RowOr(rest, r))
  }

  /** Executing a list of ANDs is one AND per row. */
  lemma {:induction false} AndAllRow(p: seq<bv8>, ops: Ops, r: Row)
    requires |p| == 8
    ensures AndAll(p, ops)[r] == BitAnd(p[r], RowAnd(ops, r))
    decreases ops
  {
    match ops
    case Nil =>
      BitLaws(p[r], 0xff, 0xff);
    case Cons(o, rest) =>
      var q := p[o.row := BitAnd(p[o.row], o.mask)];
      var m: bv8 := if o.row == r then o.mask else 0xff;
      AndAllRow(q, rest, r);
      BitLaws(p[r], m, RowAnd(rest, r));
      assert q[r] == BitAnd(p[r], m);
  }

  /** Executing a list of ORs is one OR per row. */
  lemma {:induction false} OrAllRow(p: seq<bv8>, ops: Ops, r: Row)
    requires |p| == 8
    ensures OrAll(p, ops)[r] == BitOr(p[r], RowOr(ops, r))
    decreases ops
  {
    match ops
    case Nil =>
      BitLaws(p[r], 0, 0);
    case Cons(o, rest) =>
      var q := p[o.row := BitOr(p[o.row], o.mask)];
      var m: bv8 := if o.row == r then o.mask else 0;
      OrAllRow(q, rest, r);
      BitLaws(p[r], m, RowOr(rest, r));
      assert q[r] == BitOr(p[r], m);
  }

  /** Complementing every mask turns the AND of a row's masks into the complement of their OR. */
  lemma {:induction false} RowOrComplements(ops: Ops, r: Row)
    ensures RowOr(Complements(ops), r) == BitNot(RowAnd(ops, r))
  {
    match ops
    case Nil =>
      BitLaws(0, 0, 0);
    case Cons(o, rest) =>
      RowOrComplements(rest, r);
      BitLaws(if o.row == r then o.mask else 0xff, RowAnd(rest, r), 0);
  }

  /** Whether a release switch case undoes the press switch case of the same key. */
  predicate ReleaseUndoesPress(ks: int)
  {
    KeyreleaseAction(ks).Release? ==>
      KeypressAction(ks).Press? && KeyreleaseAction(ks).ors == Complements(KeypressAction(ks).ands)
  }

  lemma ReleaseUndoesPressPunctuation(ks: int)
    requires ks < 0x40
    ensures ReleaseUndoesPress(ks)
  {
    match ks
    case 32 =>
    case 33 =>
    case 34 =>
    case 35 =>
    case 36 =>
    case 37 =>
    case 38 =>
    case 39 =>
    case 40 =>
    case 41 =>
    case 42 =>
    case 43 =>
    case 44 =>
    case 45 =>
    case 46 =>
    case 47 =>
    case 48 =>
    case 49 =>
    case 50 =>
    case 51 =>
    case 52 =>
    case 53 =>
    case 54 =>
    case 55 =>
    case 56 =>
    case 57 =>
    case 58 =>
    case 59 =>
    case 60 =>
    case 61 =>
    case 62 =>
    case 63 =>
    case _ =>
  }

  lemma ReleaseUndoesPressCapitals(ks: int)
    requires 0x40 <= ks < 0x60
    ensures ReleaseUndoesPress(ks)
  {
    match ks
    case 64 =>
    case 65 =>
    case 66 =>
    case 67 =>
    case 68 =>
    case 69 =>
    case 70 =>
    case 71 =>
    case 72 =>
    case 73 =>
    case 74 =>
    case 75 =>
    case 76 =>
    case 77 =>
    case 78 =>
    case 79 =>
    case 80 =>
    case 81 =>
    case 82 =>
    case 83 =>
    case 84 =>
    case 85 =>
    case 86 =>
    case 87 =>
    case 88 =>
    case 89 =>
    case 90 =>
    case 91 =>
    case 92 =>
    case 93 =>
    case 94 =>
    case 95 =>
    case _ =>
  }

  lemma ReleaseUndoesPressLowerCase(ks: int)
    requires 0x60 <= ks < 0x80
    ensures ReleaseUndoesPress(ks)
  {
    match ks
    case 97 =>
    case 98 =>
    case 99 =>
    case 100 =>
    case 101 =>
    case 102 =>
    case 103 =>
    case 104 =>
    case 105 =>
    case 106 =>
    case 107 =>
    case 108 =>
    case 109 =>
    case 110 =>
    case 111 =>
    case 112 =>
    case 113 =>
    case 114 =>
    case 115 =>
    case 116 =>
    case 117 =>
    case 118 =>
    case 119 =>
    case 120 =>
    case 121 =>
    case 122 =>
    case 96 =>
    case 123 =>
    case 124 =>
    case 125 =>
    case 126 =>
    case _ =>
  }

  lemma ReleaseUndoesPressFunctionKeys(ks: int)
    requires 0x80 <= ks
    ensures ReleaseUndoesPress(ks)
  {
    match ks
    case 0xff0d =>
    case 0xffc1 =>
    case 0xffc6 =>
    case 0xffe3 =>
    case 0xffe4 =>
    case 0xffbe =>
    case 0xff08 =>
    case 0xffff =>
    case 0xff52 =>
    case 0xff54 =>
    case 0xff51 =>
    case 0xff53 =>
    case _ =>
  }

  /**
   * Every key the release switch lists ORs back exactly the complements of
   * the masks its press case ANDed, row by row and in the same order.
   */
  lemma ReleaseMirrorsPress(ks: int)
    ensures ReleaseUndoesPress(ks)
  {
    if ks < 0x40 {
      ReleaseUndoesPressPunctuation(ks);
    } else if ks < 0x60 {
      ReleaseUndoesPressCapitals(ks);
    } else if ks < 0x80 {
      ReleaseUndoesPressLowerCase(ks);
    } else {
      ReleaseUndoesPressFunctionKeys(ks);
    }
  }

  /** A capital letter clears bit 0 of row 0 and falls through to its lower-case letter. */
  lemma CapitalFallsThrough(c: int)
    requires 'A' as int <= c <= 'Z' as int
    ensures KeypressAction(c) == Press(Cons(PortOp(0, 0xfe), KeypressAction(c + 32).ands))
    ensures KeyreleaseAction(c) == Release(Cons(PortOp(0, 0x01), KeyreleaseAction(c + 32).ors))
  {
  }

  /** Releasing a modifier, Escape or Tab, or any key the release switch does not list, clears the keyboard. */
  lemma ReleaseClears()
    ensures KeyreleaseAction(KeySym.ShiftL) == ClearAll && KeyreleaseAction(KeySym.ShiftR) == ClearAll
    ensures KeyreleaseAction(KeySym.AltL) == ClearAll && KeyreleaseAction(KeySym.AltR) == ClearAll
    ensures KeyreleaseAction(KeySym.MetaL) == ClearAll && KeyreleaseAction(KeySym.MetaR) == ClearAll
    ensures KeyreleaseAction(KeySym.Escape) == ClearAll && KeyreleaseAction(KeySym.Tab) == ClearAll
    ensures KeyreleaseAction(KeySym.F12) == ClearAll && KeyreleaseAction('\n' as int) == ClearAll
    ensures KeyreleaseAction(KeySym.SysReq) == ClearAll
  {
  }

  /** The rows after a release: the listed ORs, or all keys up. */
  function Released(p: seq<bv8>, ks: int): (p': seq<bv8>)
    requires |p| == 8
    ensures |p'| == 8
  {
    match KeyreleaseAction(ks)
    case ClearAll => AllUp
    case Release(ors) => OrAll(p, ors)
  }

  /** From a clear keyboard, pressing and then releasing any key that presses rows leaves all rows up. */
  lemma PressThenReleaseRestores(ks: int)
    requires KeypressAction(ks).Press?
    ensures Released(AndAll(AllUp, KeypressAction(ks).ands), ks) == AllUp
  {
    var ands := KeypressAction(ks).ands;
    var p := AndAll(AllUp, ands);
    ReleaseMirrorsPress(ks);
    if KeyreleaseAction(ks).Release? {
      forall r: Row
        ensures Released(p, ks)[r] == 0xff
      {
        AndAllRow(AllUp, ands, r);
        OrAllRow(p, Complements(ands), r);
        RowOrComplements(ands, r);
        BitLaws(0xff, RowAnd(ands, r), 0);
      }
    }
  }

  /** A press only clears bits of the rows and a release only sets them. */
  lemma PressClearsReleaseSets(p: seq<bv8>, ks: int)
    requires |p| == 8
    ensures KeypressAction(ks).Press? ==> forall r: Row :: BitAnd(AndAll(p, KeypressAction(ks).ands)[r], BitNot(p[r])) == 0
    ensures forall r: Row :: BitAnd(Released(p, ks)[r], p[r]) == p[r]
  {
    forall r: Row
      ensures KeypressAction(ks).Press? ==> BitAnd(AndAll(p, KeypressAction(ks).ands)[r], BitNot(p[r])) == 0
      ensures BitAnd(Released(p, ks)[r], p[r]) == p[r]
    {
      if KeypressAction(ks).Press? {
        AndAllRow(p, KeypressAction(ks).ands, r);
        BitLaws(p[r], RowAnd(KeypressAction(ks).ands, r), 0);
      }
      if KeyreleaseAction(ks).Release? {
        OrAllRow(p, KeyreleaseAction(ks).ors, r);
        BitLaws(p[r], RowOr(KeyreleaseAction(ks).ors, r), 0);
      } else {
        BitLaws(p[r], 0xff, 0);
      }
    }
  }

  /** `XK_A` from a clear keyboard clears bit 0 of rows 0 and 1 only. */
  lemma CapitalAExample()
    ensures AndAll(AllUp, KeypressAction('A' as int).ands) == [0xfe, 0xfe, 0xff, 0xff, 0xff, 0xff, 0xff, 0xff]
  {
  }
}

/**
 * The host side of the original X11 front end (xmain.c): the keyboard port
 * decoder, the `interrupted` flag protocol between the timer signal handler,
 * `do_interrupt` and the CPU loop, the ROM patches, the F12 reset and the
 * `keyports` updates made by the key press and key release switches.
 */
module AceHost {
  import opened AceMemory
  import opened KeyMatrix
  import opened AceKeySwitch
  import KeySym

  /** Values of `interrupted`: nothing pending, a timer tick pending, a reset pending. */
  const NoInterrupt := 0
  const TickPending := 1
  const ResetPending := 2

  /** `sighandler`: a timer tick marks an interrupt unless a reset is already pending. */
  function AfterSignal(interrupted: int): int
  {
    if interrupted < 2 then 1 else interrupted
  }

  /** The last step of `do_interrupt`: a serviced tick is cleared, a pending reset is kept. */
  function AfterService(interrupted: int): int
  {
    if interrupted == 1 then 0 else interrupted
  }

  /** What can happen to the flag between two samplings by the CPU loop. */
  datatype FlagEvent = Signal | Service

  function FlagAfter(interrupted: int, events: seq<FlagEvent>): int
    decreases |events|
  {
    if |events| == 0 then interrupted
    else
      var next := if events[0] == Signal then AfterSignal(interrupted) else AfterService(interrupted);
      FlagAfter(next, events[1..])
  }

  /** The flag never leaves {0, 1, 2}, and once a reset is pending no signal or service undoes it. */
  lemma {:induction false} FlagProtocol(interrupted: int, events: seq<FlagEvent>)
    requires 0 <= interrupted <= 2
    ensures 0 <= FlagAfter(interrupted, events) <= 2
    ensures interrupted == ResetPending ==> FlagAfter(interrupted, events) == ResetPending
    ensures interrupted != ResetPending ==> FlagAfter(interrupted, events) != ResetPending
    decreases |events|
  {
    if |events| > 0 {
      var next := if events[0] == Signal then AfterSignal(interrupted) else AfterService(interrupted);
      FlagProtocol(next, events[1..]);
    }
  }

  /** A signal always leaves an interrupt or a reset pending; a service always clears a tick. */
  lemma SignalAndService(interrupted: int)
    ensures AfterSignal(interrupted) != NoInterrupt || interrupted > 2
    ensures AfterSignal(interrupted) == (if interrupted == ResetPending then ResetPending else if interrupted < 2 then TickPending else interrupted)
    ensures AfterService(interrupted) != TickPending
    ensures AfterService(AfterSignal(interrupted)) == (if interrupted < 2 then NoInterrupt else interrupted)
  {
  }

  // ---------------------------------------------------------------------
  // Host state and its transitions

  /**
   * The globals of xmain.c that the model tracks: the memory image, the
   * eight `keyports`, `interrupted`, `tstates`, `tsmax`, `scrn_freq` and the
   * `static count` of `do_interrupt`.
   */
  datatype HostState = HostState(
    mem: seq<bv8>, keyports: seq<bv8>, interrupted: int,
    tstates: nat, tsmax: nat, scrnFreq: int, count: int)
  {
    ghost predicate Valid()
    {
      |mem| == MemSize && |keyports| == 8
    }
  }

  /** A state together with whether `dontpanic` ended the process. */
  datatype Outcome = Outcome(state: HostState, quit: bool)

  /** The state after the F12 case: reset requested, RAM filled with 0xFF, keyboard cleared. */
  function ResetRequested(h: HostState): (h': HostState)
    requires h.Valid()
    ensures h'.Valid()
  {
    h.(interrupted := ResetPending, mem := RamFilled(h.mem), keyports := AllUp)
  }

  /** `process_keypress` on a KeySym. */
  function KeypressEffect(h: HostState, ks: int): (o: Outcome)
    requires h.Valid()
    ensures o.state.Valid()
  {
    match KeypressAction(ks)
    case Quit => Outcome(h, true)
    case ResetAce => Outcome(ResetRequested(h), false)
    case Press(ands) => Outcome(h.(keyports := AndAll(h.keyports, ands)), false)
  }

  /** F12 requests a reset, fills RAM with 0xFF, clears the keyboard and leaves the ROM alone. */
  lemma ResetKeyEffect(h: HostState)
    requires h.Valid()
    ensures var o := KeypressEffect(h, KeySym.F12);
      !o.quit && o.state.interrupted == ResetPending && o.state.keyports == AllUp &&
      o.state.mem[..0x2000] == h.mem[..0x2000] &&
      (forall i :: 0x2000 <= i < MemSize ==> o.state.mem[i] == 0xff) &&
      o.state.tstates == h.tstates && o.state.count == h.count
  {
    RamFilledCorrect(h.mem);
  }

  /** Escape ends the emulator without touching any state. */
  lemma EscapeQuits(h: HostState)
    requires h.Valid()
    ensures KeypressEffect(h, KeySym.Escape) == Outcome(h, true)
  {
  }

  /** A key event as `check_events` hands it to the switches. */
  datatype KeyEvent = KeyPress(keysym: int) | KeyRelease(keysym: int)

  function EventEffect(h: HostState, e: KeyEvent): (o: Outcome)
    requires h.Valid()
    ensures o.state.Valid()
  {
    match e
    case KeyPress(ks) => KeypressEffect(h, ks)
    case KeyRelease(ks) => Outcome(h.(keyports := Released(h.keyports, ks)), false)
  }

  /** The key events of one `check_events` call, in order; an Escape press stops the process. */
  function EventsEffect(h: HostState, events: seq<KeyEvent>): (o: Outcome)
    requires h.Valid()
    ensures o.state.Valid()
    decreases |events|
  {
    if |events| == 0 then Outcome(h, false)
    else
      var o := EventEffect(h, events[0]);
      if o.quit then o else EventsEffect(o.state, events[1..])
  }

  /** Key events only touch the rows, the memory and the flag, and only F12 touches the last two. */
  lemma {:induction false} EventsKeepCounters(h: HostState, events: seq<KeyEvent>)
    requires h.Valid()
    ensures var h' := EventsEffect(h, events).state;
      h'.tstates == h.tstates && h'.tsmax == h.tsmax && h'.scrnFreq == h.scrnFreq && h'.count == h.count
    ensures (forall i :: 0 <= i < |events| ==> events[i] != KeyPress(KeySym.F12)) ==>
      EventsEffect(h, events).state.interrupted == h.interrupted && EventsEffect(h, events).state.mem == h.mem
    decreases |events|
  {
    if |events| > 0 {
      var o := EventEffect(h, events[0]);
      if !o.quit {
        EventsKeepCounters(o.state, events[1..]);
        if forall i :: 0 <= i < |events| ==> events[i] != KeyPress(KeySym.F12) {
          assert forall i :: 0 <= i < |events[1..]| ==> events[1..][i] == events[i + 1];
        }
      }
    }
  }

  /** `count++; if (count >= scrn_freq) count = 0, refresh();` */
  predicate RefreshDue(count: int, scrnFreq: int)
  {
    count + 1 >= scrnFreq
  }

  function CountAfter(count: int, scrnFreq: int): int
  {
    if RefreshDue(count, scrnFreq) then 0 else count + 1
  }

  /** The counter after n services, starting from 0. */
  function CountAfterMany(n: nat, scrnFreq: int): int
  {
    if n == 0 then 0 else CountAfter(CountAfterMany(n - 1, scrnFreq), scrnFreq)
  }

  /** With `scrn_freq` = f >= 1 the counter stays in 0..f-1. */
  lemma {:induction false} CountStaysBelow(n: nat, f: int)
    requires f >= 1
    ensures 0 <= CountAfterMany(n, f) < f
  {
    if n > 0 {
      CountStaysBelow(n - 1, f);
    }
  }

  /** The first f - 1 services only count; service f is the first to refresh. */
  lemma {:induction false} FirstRefresh(k: nat, f: int)
    requires f >= 1 && k < f
    ensures CountAfterMany(k, f) == k
    ensures RefreshDue(CountAfterMany(k, f), f) <==> k + 1 == f
  {
    if k > 0 {
      FirstRefresh(k - 1, f);
    }
  }

  /** The counter is periodic with period f, so after the first refresh every f-th service refreshes. */
  lemma {:induction false} RefreshEveryNth(n: nat, f: int)
    requires f >= 1
    ensures CountAfterMany(n + f, f) == CountAfterMany(n, f)
    ensures RefreshDue(CountAfterMany(n + f, f), f) == RefreshDue(CountAfterMany(n, f), f)
  {
    if n == 0 {
      FirstRefresh(f - 1, f);
    } else {
      RefreshEveryNth(n - 1, f);
      assert n + f == (n - 1 + f) + 1;
    }
  }

  /**
   * `do_interrupt`: count the interrupt, let `check_events` deliver the
   * pending key events, then clear a serviced tick (a pending reset stays).
   */
  function Serviced(h: HostState, events: seq<KeyEvent>): (o: Outcome)
    requires h.Valid()
    ensures o.state.Valid()
  {
    var counted := h.(count := CountAfter(h.count, h.scrnFreq));
    var o := EventsEffect(counted, events);
    if o.quit then o
    else Outcome(o.state.(interrupted := AfterService(o.state.interrupted)), false)
  }

  /** After a service a tick is never left pending; without F12 the flag ends at 0 from 0 or 1. */
  lemma ServiceClearsTick(h: HostState, events: seq<KeyEvent>)
    requires h.Valid() && 0 <= h.interrupted <= 2
    ensures var o := Serviced(h, events);
      !o.quit ==> o.state.interrupted != TickPending
    ensures (forall i :: 0 <= i < |events| ==> events[i] != KeyPress(KeySym.F12)) && h.interrupted < 2 ==>
      var o := Serviced(h, events);
      !o.quit ==> o.state.interrupted == NoInterrupt
    ensures h.interrupted == ResetPending ==>
      var o := Serviced(h, events);
      !o.quit ==> o.state.interrupted == ResetPending
  {
    var counted := h.(count := CountAfter(h.count, h.scrnFreq));
    EventsKeepCounters(counted, events);
    EventsFlag(counted, events);
  }

  /** The flag after key events is the flag before, or a pending reset. */
  lemma {:induction false} EventsFlag(h: HostState, events: seq<KeyEvent>)
    requires h.Valid()
    ensures var i := EventsEffect(h, events).state.interrupted;
      i == h.interrupted || i == ResetPending
    decreases |events|
  {
    if |events| > 0 {
      var o := EventEffect(h, events[0]);
      if !o.quit {
        EventsFlag(o.state, events[1..]);
      }
    }
  }

  /** `patches`: the ROM hooks for tape load (ED FC C9) and save (ED FD C9), written straight into `mem`. */
  function Patched(m: seq<bv8>): (m': seq<bv8>)
    requires |m| == MemSize
    ensures |m'| == MemSize
  {
    m[0x18a7 := 0xed][0x18a8 := 0xfc][0x18a9 := 0xc9][0x1820 := 0xed][0x1821 := 0xfd][0x1822 := 0xc9]
  }

  /** The patches touch six ROM bytes and nothing else, so the RAM images are untouched. */
  lemma PatchedCorrect(m: seq<bv8>)
    requires |m| == MemSize
    ensures Patched(m)[0x18a7..0x18aa] == [0xed, 0xfc, 0xc9]
    ensures Patched(m)[0x1820..0x1823] == [0xed, 0xfd, 0xc9]
    ensures forall i :: 0 <= i < MemSize && !(0x18a7 <= i < 0x18aa) && !(0x1820 <= i < 0x1823) ==> Patched(m)[i] == m[i]
    ensures Patched(m)[0x2000..] == m[0x2000..]
    ensures Mirrored(m) ==> Mirrored(Patched(m))
  {
  }

  /**
   * `main`'s screen refresh divider: with a single argument its `atoi` value
   * replaces the current one, and the result is clamped to 1..50.
   */
  function ScreenFrequency(current: int, argc: int, argValue: int): (f: int)
    ensures 1 <= f <= 50
    ensures argc != 2 && 1 <= current <= 50 ==> f == current
    ensures argc == 2 && 1 <= argValue <= 50 ==> f == argValue
    ensures argc == 2 && argValue < 1 ==> f == 1
    ensures argc == 2 && argValue > 50 ==> f == 50
  {
    var f := if argc == 2 then argValue else current;
    if f < 1 then 1 else if f > 50 then 50 else f
  }

  /** The globals of xmain.c with their own (pre-ROM) memory and `keyports` arrays. */
  class Host {
    const memory: Memory
    const keyports: array<bv8>
    var interrupted: int
    var tstates: nat
    var tsmax: nat
    var scrnFreq: int
    var count: int

    ghost predicate Valid()
      reads this, memory
    {
      memory.Valid() && keyports.Length == 8 && keyports != memory.mem
    }

    function State(): (h: HostState)
      requires Valid()
      reads this, memory, memory.mem, keyports
      ensures h.Valid()
    {
      HostState(memory.mem[..], keyports[..], interrupted, tstates, tsmax, scrnFreq, count)
    }

    /** The static initialisers: all keys up, no interrupt, `tsmax = 1 << 30`, `scrn_freq = 2`. */
    constructor ()
      ensures Valid() && fresh(keyports) && fresh(memory) && fresh(memory.mem)
      ensures memory.attr == MemAttr
      ensures State() == HostState(seq(MemSize, _ => 0 as bv8), AllUp, 0, 0, 0x4000_0000, 2, 0)
    {
      memory := new Memory();
      keyports := new bv8[8](_ => 0xff);
      interrupted := 0;
      tstates := 0;
      tsmax := 0x4000_0000;
      scrnFreq := 2;
      count := 0;
    }

    /** `in(h, l)`: port 0xFE reads the keyboard row whose select bit is low in h; everything else reads 255. */
    function In(h: int, l: int): (v: int)
      requires Valid()
      reads this, memory, keyports
      ensures forall r: Row :: l == 0xfe && h == RowSelect(r) as int ==> v == keyports[r] as int
      ensures l != 0xfe || !SelectsRow(h) ==> v == 255
    {
      RowSelectValues(h);
      if l == 0xfe then
        match h
        case 0xfe => keyports[0] as int
        case 0xfd => keyports[1] as int
        case 0xfb => keyports[2] as int
        case 0xf7 => keyports[3] as int
        case 0xef => keyports[4] as int
        case 0xdf => keyports[5] as int
        case 0xbf => keyports[6] as int
        case 0x7f => keyports[7] as int
        case _ => 255
      else 255
    }

    /** `out(h, l, a)` of the older xmain.c: writes to ports have no effect and the call returns 0. */
    function Out(h: int, l: int, a: int): (r: int)
      ensures r == 0
    {
      0
    }

    /** `clear_keyboard`: all eight rows back to 0xFF. */
    method ClearKeyboard()
      requires Valid()
      modifies keyports
      ensures keyports[..] == AllUp
    {
      keyports[0] := 0xff;
      keyports[1] := 0xff;
      keyports[2] := 0xff;
      keyports[3] := 0xff;
      keyports[4] := 0xff;
      keyports[5] := 0xff;
      keyports[6] := 0xff;
      keyports[7] := 0xff;
    }

    /** The `&=` statements of one press case. */
    method AndRows(ops: Ops)
      requires Valid()
      modifies keyports
      ensures keyports[..] == AndAll(old(keyports[..]), ops)
    {
      var rest := ops;
      while rest.Cons?
        invariant AndAll(keyports[..], rest) == AndAll(old(keyports[..]), ops)
        decreases rest
      {
        var o := rest.op;
        keyports[o.row] := BitAnd(keyports[o.row], o.mask);
        rest := rest.rest;
      }
    }

    /** The `|=` statements of one release case. */
    method OrRows(ops: Ops)
      requires Valid()
      modifies keyports
      ensures keyports[..] == OrAll(old(keyports[..]), ops)
    {
      var rest := ops;
      while rest.Cons?
        invariant OrAll(keyports[..], rest) == OrAll(old(keyports[..]), ops)
        decreases rest
      {
        var o := rest.op;
        keyports[o.row] := BitOr(keyports[o.row], o.mask);
        rest := rest.rest;
      }
    }

    /** `process_keypress`; `quit` reports that `dontpanic` would end the process. */
    method ProcessKeypress(ks: int) returns (quit: bool)
      requires Valid()
      modifies this, keyports, memory.mem
      ensures Valid()
      ensures Outcome(State(), quit) == KeypressEffect(old(State()), ks)
    {
      match KeypressAction(ks)
      case Quit =>
        quit := true;
      case ResetAce =>
        interrupted := ResetPending;
        memory.FillRam();
        ClearKeyboard();
        quit := false;
      case Press(ands) =>
        AndRows(ands);
        quit := false;
    }

    /** `process_keyrelease`. */
    method ProcessKeyrelease(ks: int)
      requires Valid()
      modifies keyports
      ensures State() == old(State()).(keyports := Released(old(keyports[..]), ks))
    {
      match KeyreleaseAction(ks)
      case ClearAll =>
        ClearKeyboard();
      case Release(ors) =>
        OrRows(ors);
    }

    /** The `KeyPress` and `KeyRelease` cases of `check_events`. */
    method HandleEvent(e: KeyEvent) returns (quit: bool)
      requires Valid()
      modifies this, keyports, memory.mem
      ensures Valid()
      ensures Outcome(State(), quit) == EventEffect(old(State()), e)
    {
      match e
      case KeyPress(ks) =>
        quit := ProcessKeypress(ks);
      case KeyRelease(ks) =>
        ProcessKeyrelease(ks);
        quit := false;
    }

    /** The key events `check_events` takes from the X queue, handled in order. */
    method CheckEvents(events: seq<KeyEvent>) returns (quit: bool)
      requires Valid()
      modifies this, keyports, memory.mem
      ensures Valid()
      ensures Outcome(State(), quit) == EventsEffect(old(State()), events)
    {
      var i := 0;
      quit := false;
      while i < |events| && !quit
        invariant 0 <= i <= |events|
        invariant Valid()
        invariant quit ==> Outcome(State(), true) == EventsEffect(old(State()), events)
        invariant !quit ==> EventsEffect(State(), events[i..]) == EventsEffect(old(State()), events)
        decreases |events| - i
      {
        assert events[i..][1..] == events[i + 1..];
        quit := HandleEvent(events[i]);
        i := i + 1;
      }
    }

    /** `sighandler`. */
    method SigHandler()
      modifies this
      ensures interrupted == AfterSignal(old(interrupted))
      ensures tstates == old(tstates) && tsmax == old(tsmax) && scrnFreq == old(scrnFreq) && count == old(count)
    {
      if interrupted < 2 {
        interrupted := TickPending;
      }
    }

    /** `do_interrupt`; `refreshed` reports whether `refresh()` was called. */
    method DoInterrupt(events: seq<KeyEvent>) returns (refreshed: bool, quit: bool)
      requires Valid()
      modifies this, keyports, memory.mem
      ensures Valid()
      ensures refreshed == RefreshDue(old(count), old(scrnFreq))
      ensures Outcome(State(), quit) == Serviced(old(State()), events)
    {
      count := count + 1;
      refreshed := false;
      if count >= scrnFreq {
        count := 0;
        refreshed := true;
      }
      quit := CheckEvents(events);
      if !quit && interrupted == 1 {
        interrupted := NoInterrupt;
      }
    }

    /** `fix_tstates`: the budget is used up, restart counting; the wait in `pause()` until the tick arrives is modelled by Z80.Budgeted. */
    method FixTstates()
      modifies this
      ensures tstates == 0
      ensures interrupted == old(interrupted) && tsmax == old(tsmax) && scrnFreq == old(scrnFreq) && count == old(count)
    {
      tstates := 0;
    }

    /** `patches`. */
    method Patches()
      requires Valid()
      modifies memory.mem
      ensures memory.mem[..] == Patched(old(memory.mem[..]))
    {
      memory.mem[0x18a7] := 0xed;
      memory.mem[0x18a8] := 0xfc;
      memory.mem[0x18a9] := 0xc9;
      memory.mem[0x1820] := 0xed;
      memory.mem[0x1821] := 0xfd;
      memory.mem[0x1822] := 0xc9;
    }

    /**
     * The start of `main` once the ROM image is in `mem`: patch it, fill
     * the RAM with 0xFF, set `scrn_freq` from the arguments (`argValue` is
     * `atoi(argv[1])`) and set `tsmax = 62500`.
     */
    method Startup(argc: int, argValue: int)
      requires Valid()
      modifies this, memory.mem
      ensures Valid()
      ensures State() == old(State()).(mem := RamFilled(Patched(old(memory.mem[..]))),
                                       scrnFreq := ScreenFrequency(old(scrnFreq), argc, argValue), tsmax := 62500)
    {
      Patches();
      memory.FillRam();
      scrnFreq := if argc == 2 then argValue else scrnFreq;
      if scrnFreq < 1 {
        scrnFreq := 1;
      }
      if scrnFreq > 50 {
        scrnFreq := 50;
      }
      tsmax := 62500;
    }
  }
}
