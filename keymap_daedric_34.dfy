/**
 * The generated key handler of the `daedric_34` keymap: its layers, its
 * custom keycodes, its unicode index domain and `process_record_user`.
 */
module Daedric34Keymap {
  import opened Firmware

  /** `enum layers`. */
  datatype Layer = Base | Qwerty | DK | Sym | SymQwerty | Nav | Media | Fn

  /** The value of each `enum layers` enumerator. */
  function LayerIndex(l: Layer): nat {
    match l
    case Base => 0
    case Qwerty => 1
    case DK => 2
    case Sym => 3
    case SymQwerty => 4
    case Nav => 5
    case Media => 6
    case Fn => 7
  }

  /** The enumerator's name, as the generator spells it in `CKC_LMOVE_<name>`. */
  function LayerName(l: Layer): string {
    match l
    case Base => "Base"
    case Qwerty => "Qwerty"
    case DK => "DK"
    case Sym => "Sym"
    case SymQwerty => "SymQwerty"
    case Nav => "Nav"
    case Media => "Media"
    case Fn => "Fn"
  }

  /** `enum custom_keycodes`, after its `_FIRST = SAFE_RANGE` marker. */
  datatype CustomKeycode =
    | CKC_LMOVE_Base
    | CKC_LMOVE_Qwerty
    | CKC_LMOVE_DK
    | CKC_LMOVE_Sym
    | CKC_LMOVE_SymQwerty
    | CKC_LMOVE_Nav
    | CKC_LMOVE_Media
    | CKC_LMOVE_Fn
    | Sym_EKC_Q
    | Sym_EKC_C
    | Sym_EKC_O
    | Sym_EKC_W
    | Sym_EKC_J
    | Sym_EKC_D
    | Sym_EKC_DK
    | Sym_EKC_Y
    | Sym_EKC_A
    | Sym_EKC_N
    | Sym_EKC_F
    | Sym_EKC_L
    | Sym_EKC_R
    | Sym_EKC_T
    | Sym_EKC_I
    | Sym_EKC_U
    | Sym_EKC_Z
    | Sym_EKC_X
    | Sym_EKC_MNS
    | Sym_EKC_V
    | Sym_EKC_DOT
    | Sym_EKC_H
    | Sym_EKC_G
    | Sym_EKC_K

  /** `enum unicode_names`. */
  datatype UnicodeName =
    | LATIN_SMALL_LETTER_A_WITH_CIRCUMFLEX
    | LATIN_CAPITAL_LETTER_A_WITH_CIRCUMFLEX
    | COMBINING_CIRCUMFLEX_ACCENT
    | LATIN_SMALL_LETTER_C_WITH_CEDILLA
    | LATIN_CAPITAL_LETTER_C_WITH_CEDILLA
    | LESS_THAN_OR_EQUAL_TO
    | LATIN_SMALL_LIGATURE_OE
    | LATIN_CAPITAL_LIGATURE_OE
    | GREATER_THAN_OR_EQUAL_TO
    | LATIN_SMALL_LETTER_O_WITH_CIRCUMFLEX
    | LATIN_CAPITAL_LETTER_O_WITH_CIRCUMFLEX
    | PER_MILLE_SIGN
    | COMBINING_RING_ABOVE
    | MICRO_SIGN
    | MULTIPLICATION_SIGN
    | COMBINING_DIAERESIS
    | INVERTED_EXCLAMATION_MARK
    | COMBINING_ACUTE_ACCENT
    | LATIN_SMALL_LETTER_U_WITH_CIRCUMFLEX
    | LATIN_CAPITAL_LETTER_U_WITH_CIRCUMFLEX
    | COMBINING_GRAVE_ACCENT
    | LATIN_SMALL_LETTER_A_WITH_GRAVE
    | LATIN_CAPITAL_LETTER_A_WITH_GRAVE
    | COMBINING_CARON
    | LATIN_SMALL_LETTER_E_WITH_ACUTE
    | LATIN_CAPITAL_LETTER_E_WITH_ACUTE
    | LATIN_SMALL_LETTER_E_WITH_GRAVE
    | LATIN_CAPITAL_LETTER_E_WITH_GRAVE
    | LATIN_SMALL_LETTER_E_WITH_CIRCUMFLEX
    | LATIN_CAPITAL_LETTER_E_WITH_CIRCUMFLEX
    | COMBINING_DOT_ABOVE
    | LATIN_SMALL_LETTER_N_WITH_TILDE
    | LATIN_CAPITAL_LETTER_N_WITH_TILDE
    | NOT_EQUAL_TO
    | COMBINING_LONG_SOLIDUS_OVERLAY
    | PLUS_SIGN_ABOVE_EQUALS_SIGN
    | LATIN_SMALL_LETTER_I_WITH_CIRCUMFLEX
    | LATIN_CAPITAL_LETTER_I_WITH_CIRCUMFLEX
    | COMBINING_MACRON
    | LATIN_SMALL_LETTER_I_WITH_DIAERESIS
    | LATIN_CAPITAL_LETTER_I_WITH_DIAERESIS
    | DIVISION_SIGN
    | LATIN_SMALL_LETTER_U_WITH_GRAVE
    | LATIN_CAPITAL_LETTER_U_WITH_GRAVE
    | COMBINING_DOUBLE_ACUTE_ACCENT
    | LATIN_SMALL_LETTER_AE
    | LATIN_CAPITAL_LETTER_AE
    | COMBINING_TILDE
    | LATIN_SMALL_LETTER_SHARP_S
    | LATIN_CAPITAL_LETTER_SHARP_S
    | COMBINING_COMMA_BELOW
    | NON_BREAKING_HYPHEN
    | INVERTED_QUESTION_MARK
    | COMBINING_OGONEK
    | EN_DASH
    | EM_DASH
    | HORIZONTAL_ELLIPSIS
    | BROKEN_BAR
    | NOT_SIGN
    | COMBINING_TURNED_COMMA_ABOVE
    | MIDDLE_DOT
    | BULLET
    | COMBINING_BREVE
    | EURO_SIGN
    | DOUBLE_LOW_9_QUOTATION_MARK
    | SINGLE_LOW_9_QUOTATION_MARK
    | SUBSCRIPT_ONE
    | SUPERSCRIPT_ONE
    | LEFT_POINTING_DOUBLE_ANGLE_QUOTATION_MARK
    | LEFT_DOUBLE_QUOTATION_MARK
    | LEFT_SINGLE_QUOTATION_MARK
    | SUBSCRIPT_TWO
    | SUPERSCRIPT_TWO
    | RIGHT_POINTING_DOUBLE_ANGLE_QUOTATION_MARK
    | RIGHT_DOUBLE_QUOTATION_MARK
    | RIGHT_SINGLE_QUOTATION_MARK
    | SUBSCRIPT_THREE
    | SUPERSCRIPT_THREE
    | CENT_SIGN
    | SUBSCRIPT_FOUR
    | SUPERSCRIPT_FOUR
    | SUBSCRIPT_FIVE
    | SUPERSCRIPT_FIVE
    | SUBSCRIPT_SIX
    | SUPERSCRIPT_SIX
    | SUBSCRIPT_SEVEN
    | SUPERSCRIPT_SEVEN
    | SECTION_SIGN
    | SUBSCRIPT_EIGHT
    | SUPERSCRIPT_EIGHT
    | PILCROW_SIGN
    | SUBSCRIPT_NINE
    | SUPERSCRIPT_NINE
    | DEGREE_SIGN
    | SUBSCRIPT_ZERO
    | SUPERSCRIPT_ZERO
    | NARROW_NO_BREAK_SPACE

  /**
   * The value of a `unicode_names` enumerator: its position in the
   * enumeration, so an index `unicode_map` has an entry for.
   */
  function Ordinal(n: UnicodeName): (i: nat)
    ensures i < UnicodeCount
  {
    match n
    case LATIN_SMALL_LETTER_A_WITH_CIRCUMFLEX => 0
    case LATIN_CAPITAL_LETTER_A_WITH_CIRCUMFLEX => 1
    case COMBINING_CIRCUMFLEX_ACCENT => 2
    case LATIN_SMALL_LETTER_C_WITH_CEDILLA => 3
    case LATIN_CAPITAL_LETTER_C_WITH_CEDILLA => 4
    case LESS_THAN_OR_EQUAL_TO => 5
    case LATIN_SMALL_LIGATURE_OE => 6
    case LATIN_CAPITAL_LIGATURE_OE => 7
    case GREATER_THAN_OR_EQUAL_TO => 8
    case LATIN_SMALL_LETTER_O_WITH_CIRCUMFLEX => 9
    case LATIN_CAPITAL_LETTER_O_WITH_CIRCUMFLEX => 10
    case PER_MILLE_SIGN => 11
    case COMBINING_RING_ABOVE => 12
    case MICRO_SIGN => 13
    case MULTIPLICATION_SIGN => 14
    case COMBINING_DIAERESIS => 15
    case INVERTED_EXCLAMATION_MARK => 16
    case COMBINING_ACUTE_ACCENT => 17
    case LATIN_SMALL_LETTER_U_WITH_CIRCUMFLEX => 18
    case LATIN_CAPITAL_LETTER_U_WITH_CIRCUMFLEX => 19
    case COMBINING_GRAVE_ACCENT => 20
    case LATIN_SMALL_LETTER_A_WITH_GRAVE => 21
    case LATIN_CAPITAL_LETTER_A_WITH_GRAVE => 22
    case COMBINING_CARON => 23
    case LATIN_SMALL_LETTER_E_WITH_ACUTE => 24
    case LATIN_CAPITAL_LETTER_E_WITH_ACUTE => 25
    case LATIN_SMALL_LETTER_E_WITH_GRAVE => 26
    case LATIN_CAPITAL_LETTER_E_WITH_GRAVE => 27
    case LATIN_SMALL_LETTER_E_WITH_CIRCUMFLEX => 28
    case LATIN_CAPITAL_LETTER_E_WITH_CIRCUMFLEX => 29
    case COMBINING_DOT_ABOVE => 30
    case LATIN_SMALL_LETTER_N_WITH_TILDE => 31
    case LATIN_CAPITAL_LETTER_N_WITH_TILDE => 32
    case NOT_EQUAL_TO => 33
    case COMBINING_LONG_SOLIDUS_OVERLAY => 34
    case PLUS_SIGN_ABOVE_EQUALS_SIGN => 35
    case LATIN_SMALL_LETTER_I_WITH_CIRCUMFLEX => 36
    case LATIN_CAPITAL_LETTER_I_WITH_CIRCUMFLEX => 37
    case COMBINING_MACRON => 38
    case LATIN_SMALL_LETTER_I_WITH_DIAERESIS => 39
    case LATIN_CAPITAL_LETTER_I_WITH_DIAERESIS => 40
    case DIVISION_SIGN => 41
    case LATIN_SMALL_LETTER_U_WITH_GRAVE => 42
    case LATIN_CAPITAL_LETTER_U_WITH_GRAVE => 43
    case COMBINING_DOUBLE_ACUTE_ACCENT => 44
    case LATIN_SMALL_LETTER_AE => 45
    case LATIN_CAPITAL_LETTER_AE => 46
    case COMBINING_TILDE => 47
    case LATIN_SMALL_LETTER_SHARP_S => 48
    case LATIN_CAPITAL_LETTER_SHARP_S => 49
    case COMBINING_COMMA_BELOW => 50
    case NON_BREAKING_HYPHEN => 51
    case INVERTED_QUESTION_MARK => 52
    case COMBINING_OGONEK => 53
    case EN_DASH => 54
    case EM_DASH => 55
    case HORIZONTAL_ELLIPSIS => 56
    case BROKEN_BAR => 57
    case NOT_SIGN => 58
    case COMBINING_TURNED_COMMA_ABOVE => 59
    case MIDDLE_DOT => 60
    case BULLET => 61
    case COMBINING_BREVE => 62
    case EURO_SIGN => 63
    case DOUBLE_LOW_9_QUOTATION_MARK => 64
    case SINGLE_LOW_9_QUOTATION_MARK => 65
    case SUBSCRIPT_ONE => 66
    case SUPERSCRIPT_ONE => 67
    case LEFT_POINTING_DOUBLE_ANGLE_QUOTATION_MARK => 68
    case LEFT_DOUBLE_QUOTATION_MARK => 69
    case LEFT_SINGLE_QUOTATION_MARK => 70
    case SUBSCRIPT_TWO => 71
    case SUPERSCRIPT_TWO => 72
    case RIGHT_POINTING_DOUBLE_ANGLE_QUOTATION_MARK => 73
    case RIGHT_DOUBLE_QUOTATION_MARK => 74
    case RIGHT_SINGLE_QUOTATION_MARK => 75
    case SUBSCRIPT_THREE => 76
    case SUPERSCRIPT_THREE => 77
    case CENT_SIGN => 78
    case SUBSCRIPT_FOUR => 79
    case SUPERSCRIPT_FOUR => 80
    case SUBSCRIPT_FIVE => 81
    case SUPERSCRIPT_FIVE => 82
    case SUBSCRIPT_SIX => 83
    case SUPERSCRIPT_SIX => 84
    case SUBSCRIPT_SEVEN => 85
    case SUPERSCRIPT_SEVEN => 86
    case SECTION_SIGN => 87
    case SUBSCRIPT_EIGHT => 88
    case SUPERSCRIPT_EIGHT => 89
    case PILCROW_SIGN => 90
    case SUBSCRIPT_NINE => 91
    case SUPERSCRIPT_NINE => 92
    case DEGREE_SIGN => 93
    case SUBSCRIPT_ZERO => 94
    case SUPERSCRIPT_ZERO => 95
    case NARROW_NO_BREAK_SPACE => 96
  }

  /** The number of `unicode_names` enumerators, and so the length of `unicode_map`. */
  const UnicodeCount: nat := 97

  /** The `switch (keycode)` of `process_record_user`. */
  function CaseOf(keycode: KeyInput<CustomKeycode>): Intercept<Layer, UnicodeName> {
    match keycode
    case OtherKey(_) => PassThrough
    case CustomKey(c) =>
      match c
      case CKC_LMOVE_Base => Move(Base)
      case CKC_LMOVE_Qwerty => Move(Qwerty)
      case CKC_LMOVE_DK => Move(DK)
      case CKC_LMOVE_Sym => Move(Sym)
      case CKC_LMOVE_SymQwerty => Move(SymQwerty)
      case CKC_LMOVE_Nav => Move(Nav)
      case CKC_LMOVE_Media => Move(Media)
      case CKC_LMOVE_Fn => Move(Fn)
      case Sym_EKC_Q => Custom("KC_CIRC", COMBINING_CIRCUMFLEX_ACCENT)
      case Sym_EKC_C => Custom("KC_LABK", LESS_THAN_OR_EQUAL_TO)
      case Sym_EKC_O => Custom("KC_RABK", GREATER_THAN_OR_EQUAL_TO)
      case Sym_EKC_W => Custom("KC_PERC", PER_MILLE_SIGN)
      case Sym_EKC_J => Custom("KC_AT", COMBINING_RING_ABOVE)
      case Sym_EKC_D => Custom("KC_ASTR", MULTIPLICATION_SIGN)
      case Sym_EKC_DK => Custom("KC_QUOT", COMBINING_ACUTE_ACCENT)
      case Sym_EKC_Y => Custom("KC_GRV", COMBINING_GRAVE_ACCENT)
      case Sym_EKC_A => Custom("KC_LCBR", COMBINING_CARON)
      case Sym_EKC_N => Custom("KC_RCBR", COMBINING_DOT_ABOVE)
      case Sym_EKC_F => Custom("KC_EQL", NOT_EQUAL_TO)
      case Sym_EKC_L => Custom("KC_BSLS", COMBINING_LONG_SOLIDUS_OVERLAY)
      case Sym_EKC_R => Custom("KC_PLUS", PLUS_SIGN_ABOVE_EQUALS_SIGN)
      case Sym_EKC_T => Custom("KC_MINS", COMBINING_MACRON)
      case Sym_EKC_I => Custom("KC_SLSH", DIVISION_SIGN)
      case Sym_EKC_U => Custom("KC_DQUO", COMBINING_DOUBLE_ACUTE_ACCENT)
      case Sym_EKC_Z => Custom("KC_TILD", COMBINING_TILDE)
      case Sym_EKC_X => Custom("KC_LBRC", COMBINING_COMMA_BELOW)
      case Sym_EKC_MNS => Custom("KC_RBRC", COMBINING_OGONEK)
      case Sym_EKC_V => Custom("KC_UNDS", EN_DASH)
      case Sym_EKC_DOT => Custom("KC_PIPE", BROKEN_BAR)
      case Sym_EKC_H => Custom("KC_EXLM", NOT_SIGN)
      case Sym_EKC_G => Custom("KC_SCLN", COMBINING_TURNED_COMMA_ABOVE)
      case Sym_EKC_K => Custom("KC_QUES", COMBINING_BREVE)
  }

  /** The `CKC_LMOVE_<layer>` keycode of each layer, and what the switch does with it. */
  function LayerMoveKey(l: Layer): (c: CustomKeycode)
    ensures CaseOf(CustomKey(c)) == Move(l)
  {
    match l
      case Base => CKC_LMOVE_Base
      case Qwerty => CKC_LMOVE_Qwerty
      case DK => CKC_LMOVE_DK
      case Sym => CKC_LMOVE_Sym
      case SymQwerty => CKC_LMOVE_SymQwerty
      case Nav => CKC_LMOVE_Nav
      case Media => CKC_LMOVE_Media
      case Fn => CKC_LMOVE_Fn
  }

  /** The switch intercepts exactly the custom keycodes, and moves only on a layer's move key. */
  lemma Intercepts(keycode: KeyInput<CustomKeycode>)
    ensures CaseOf(keycode) != PassThrough <==> keycode.CustomKey?
    ensures CaseOf(keycode).Move? ==> keycode == CustomKey(LayerMoveKey(CaseOf(keycode).layer))
  {
  }

  /** `process_record_user(keycode, record)`, with `record->event.pressed` as `pressed`. */
  method ProcessRecordUser(kb: Keyboard, keycode: KeyInput<CustomKeycode>, pressed: bool) returns (r: bool)
    modifies kb
    ensures kb.mods == old(kb.mods)
    ensures match CaseOf(keycode)
      case PassThrough => r && kb.layers == old(kb.layers) && kb.trace == old(kb.trace)
      case Move(l) => !r && kb.layers == {LayerIndex(l)} && kb.trace == old(kb.trace)
      case Custom(kc, n) =>
        var e := CustomKeyEffect(kc, Ordinal(n), pressed, Shifted(old(kb.mods)));
        r == e.passOn && kb.layers == old(kb.layers) && kb.trace == old(kb.trace) + e.actions
  {
    var m := kb.GetMods();
    var shifted := m & ModMaskShift != 0;
    match CaseOf(keycode)
    case PassThrough =>
      return true;
    case Move(l) =>
      kb.LayerMove(LayerIndex(l));
      return false;
    case Custom(kc, n) =>
      r := kb.CustomKeyTail(kc, Ordinal(n), pressed, shifted);
  }
}
