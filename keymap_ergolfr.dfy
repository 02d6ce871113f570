/**
 * The generated key handler of the `ergolfr` keymap: its layers, its
 * custom keycodes, its unicode index domain and `process_record_user`.
 */
module ErgolFrKeymap {
  import opened Firmware

  /** `enum layers`. */
  datatype Layer = Base | DK | Sym | Fn

  /** The value of each `enum layers` enumerator. */
  function LayerIndex(l: Layer): nat {
    match l
    case Base => 0
    case DK => 1
    case Sym => 2
    case Fn => 3
  }

  /** The enumerator's name, as the generator spells it in `CKC_LMOVE_<name>`. */
  function LayerName(l: Layer): string {
    match l
    case Base => "Base"
    case DK => "DK"
    case Sym => "Sym"
    case Fn => "Fn"
  }

  /** `enum custom_keycodes`, after its `_FIRST = SAFE_RANGE` marker. */
  datatype CustomKeycode =
    | CKC_LMOVE_Base
    | CKC_LMOVE_DK
    | CKC_LMOVE_Sym
    | CKC_LMOVE_Fn
    | Base_EKC_1
    | Base_EKC_2
    | Base_EKC_3
    | Base_EKC_6
    | Base_EKC_SPC
    | DK_EKC_C
    | DK_EKC_A
    | DK_EKC_S
    | DK_EKC_E
    | Sym_EKC_C
    | Sym_EKC_O
    | Sym_EKC_W
    | Sym_EKC_J
    | Sym_EKC_D
    | Sym_EKC_DK
    | Sym_EKC_Y
    | Sym_EKC_A
    | Sym_EKC_N
    | Sym_EKC_F
    | Sym_EKC_L
    | Sym_EKC_R
    | Sym_EKC_T
    | Sym_EKC_I
    | Sym_EKC_Z
    | Sym_EKC_X
    | Sym_EKC_MNS
    | Sym_EKC_V
    | Sym_EKC_DOT
    | Sym_EKC_H
    | Sym_EKC_G
    | Sym_EKC_K

  /** `enum unicode_names`. */
  datatype UnicodeName =
    | LATIN_SMALL_LETTER_A_WITH_CIRCUMFLEX
    | LATIN_CAPITAL_LETTER_A_WITH_CIRCUMFLEX
    | CIRCUMFLEX_ACCENT
    | COMBINING_CIRCUMFLEX_ACCENT
    | LATIN_CAPITAL_LETTER_C_WITH_CEDILLA
    | LESS_THAN_OR_EQUAL_TO
    | LATIN_SMALL_LIGATURE_OE
    | LATIN_CAPITAL_LIGATURE_OE
    | GREATER_THAN_OR_EQUAL_TO
    | LATIN_SMALL_LETTER_O_WITH_CIRCUMFLEX
    | LATIN_CAPITAL_LETTER_O_WITH_CIRCUMFLEX
    | PER_MILLE_SIGN
    | COMBINING_RING_ABOVE
    | MICRO_SIGN
    | MULTIPLICATION_SIGN
    | COMBINING_DIAERESIS
    | INVERTED_EXCLAMATION_MARK
    | COMBINING_ACUTE_ACCENT
    | LATIN_SMALL_LETTER_U_WITH_CIRCUMFLEX
    | LATIN_CAPITAL_LETTER_U_WITH_CIRCUMFLEX
    | COMBINING_GRAVE_ACCENT
    | LATIN_CAPITAL_LETTER_A_WITH_GRAVE
    | COMBINING_CARON
    | LATIN_CAPITAL_LETTER_E_WITH_ACUTE
    | LATIN_CAPITAL_LETTER_E_WITH_GRAVE
    | LATIN_SMALL_LETTER_E_WITH_CIRCUMFLEX
    | LATIN_CAPITAL_LETTER_E_WITH_CIRCUMFLEX
    | COMBINING_DOT_ABOVE
    | LATIN_SMALL_LETTER_N_WITH_TILDE
    | LATIN_CAPITAL_LETTER_N_WITH_TILDE
    | NOT_EQUAL_TO
    | COMBINING_LONG_SOLIDUS_OVERLAY
    | PLUS_SIGN_ABOVE_EQUALS_SIGN
    | LATIN_SMALL_LETTER_I_WITH_CIRCUMFLEX
    | LATIN_CAPITAL_LETTER_I_WITH_CIRCUMFLEX
    | COMBINING_MACRON
    | LATIN_SMALL_LETTER_I_WITH_DIAERESIS
    | LATIN_CAPITAL_LETTER_I_WITH_DIAERESIS
    | DIVISION_SIGN
    | LATIN_SMALL_LETTER_U_WITH_GRAVE
    | LATIN_CAPITAL_LETTER_U_WITH_GRAVE
    | COMBINING_DOUBLE_ACUTE_ACCENT
    | LATIN_SMALL_LETTER_AE
    | LATIN_CAPITAL_LETTER_AE
    | COMBINING_TILDE
    | LATIN_SMALL_LETTER_SHARP_S
    | LATIN_CAPITAL_LETTER_SHARP_S
    | COMBINING_COMMA_BELOW
    | NON_BREAKING_HYPHEN
    | INVERTED_QUESTION_MARK
    | COMBINING_OGONEK
    | EN_DASH
    | EM_DASH
    | HORIZONTAL_ELLIPSIS
    | BROKEN_BAR
    | NOT_SIGN
    | COMBINING_TURNED_COMMA_ABOVE
    | MIDDLE_DOT
    | BULLET
    | COMBINING_BREVE
    | EURO_SIGN
    | DOUBLE_LOW_9_QUOTATION_MARK
    | SINGLE_LOW_9_QUOTATION_MARK
    | SUBSCRIPT_ONE
    | SUPERSCRIPT_ONE
    | LEFT_POINTING_DOUBLE_ANGLE_QUOTATION_MARK
    | LEFT_DOUBLE_QUOTATION_MARK
    | LEFT_SINGLE_QUOTATION_MARK
    | SUBSCRIPT_TWO
    | SUPERSCRIPT_TWO
    | RIGHT_POINTING_DOUBLE_ANGLE_QUOTATION_MARK
    | RIGHT_DOUBLE_QUOTATION_MARK
    | RIGHT_SINGLE_QUOTATION_MARK
    | SUBSCRIPT_THREE
    | SUPERSCRIPT_THREE
    | CENT_SIGN
    | SUBSCRIPT_FOUR
    | SUPERSCRIPT_FOUR
    | SUBSCRIPT_FIVE
    | SUPERSCRIPT_FIVE
    | SUBSCRIPT_SIX
    | SUPERSCRIPT_SIX
    | SUBSCRIPT_SEVEN
    | SUPERSCRIPT_SEVEN
    | SUBSCRIPT_EIGHT
    | SUPERSCRIPT_EIGHT
    | PILCROW_SIGN
    | SUBSCRIPT_NINE
    | SUPERSCRIPT_NINE
    | SUBSCRIPT_ZERO
    | SUPERSCRIPT_ZERO
    | NARROW_NO_BREAK_SPACE

  /**
   * The value of a `unicode_names` enumerator: its position in the
   * enumeration, so an index `unicode_map` has an entry for.
   */
  function Ordinal(n: UnicodeName): (i: nat)
    ensures i < UnicodeCount
  {
    match n
    case LATIN_SMALL_LETTER_A_WITH_CIRCUMFLEX => 0
    case LATIN_CAPITAL_LETTER_A_WITH_CIRCUMFLEX => 1
    case CIRCUMFLEX_ACCENT => 2
    case COMBINING_CIRCUMFLEX_ACCENT => 3
    case LATIN_CAPITAL_LETTER_C_WITH_CEDILLA => 4
    case LESS_THAN_OR_EQUAL_TO => 5
    case LATIN_SMALL_LIGATURE_OE => 6
    case LATIN_CAPITAL_LIGATURE_OE => 7
    case GREATER_THAN_OR_EQUAL_TO => 8
    case LATIN_SMALL_LETTER_O_WITH_CIRCUMFLEX => 9
    case LATIN_CAPITAL_LETTER_O_WITH_CIRCUMFLEX => 10
    case PER_MILLE_SIGN => 11
    case COMBINING_RING_ABOVE => 12
    case MICRO_SIGN => 13
    case MULTIPLICATION_SIGN => 14
    case COMBINING_DIAERESIS => 15
    case INVERTED_EXCLAMATION_MARK => 16
    case COMBINING_ACUTE_ACCENT => 17
    case LATIN_SMALL_LETTER_U_WITH_CIRCUMFLEX => 18
    case LATIN_CAPITAL_LETTER_U_WITH_CIRCUMFLEX => 19
    case COMBINING_GRAVE_ACCENT => 20
    case LATIN_CAPITAL_LETTER_A_WITH_GRAVE => 21
    case COMBINING_CARON => 22
    case LATIN_CAPITAL_LETTER_E_WITH_ACUTE => 23
    case LATIN_CAPITAL_LETTER_E_WITH_GRAVE => 24
    case LATIN_SMALL_LETTER_E_WITH_CIRCUMFLEX => 25
    case LATIN_CAPITAL_LETTER_E_WITH_CIRCUMFLEX => 26
    case COMBINING_DOT_ABOVE => 27
    case LATIN_SMALL_LETTER_N_WITH_TILDE => 28
    case LATIN_CAPITAL_LETTER_N_WITH_TILDE => 29
    case NOT_EQUAL_TO => 30
    case COMBINING_LONG_SOLIDUS_OVERLAY => 31
    case PLUS_SIGN_ABOVE_EQUALS_SIGN => 32
    case LATIN_SMALL_LETTER_I_WITH_CIRCUMFLEX => 33
    case LATIN_CAPITAL_LETTER_I_WITH_CIRCUMFLEX => 34
    case COMBINING_MACRON => 35
    case LATIN_SMALL_LETTER_I_WITH_DIAERESIS => 36
    case LATIN_CAPITAL_LETTER_I_WITH_DIAERESIS => 37
    case DIVISION_SIGN => 38
    case LATIN_SMALL_LETTER_U_WITH_GRAVE => 39
    case LATIN_CAPITAL_LETTER_U_WITH_GRAVE => 40
    case COMBINING_DOUBLE_ACUTE_ACCENT => 41
    case LATIN_SMALL_LETTER_AE => 42
    case LATIN_CAPITAL_LETTER_AE => 43
    case COMBINING_TILDE => 44
    case LATIN_SMALL_LETTER_SHARP_S => 45
    case LATIN_CAPITAL_LETTER_SHARP_S => 46
    case COMBINING_COMMA_BELOW => 47
    case NON_BREAKING_HYPHEN => 48
    case INVERTED_QUESTION_MARK => 49
    case COMBINING_OGONEK => 50
    case EN_DASH => 51
    case EM_DASH => 52
    case HORIZONTAL_ELLIPSIS => 53
    case BROKEN_BAR => 54
    case NOT_SIGN => 55
    case COMBINING_TURNED_COMMA_ABOVE => 56
    case MIDDLE_DOT => 57
    case BULLET => 58
    case COMBINING_BREVE => 59
    case EURO_SIGN => 60
    case DOUBLE_LOW_9_QUOTATION_MARK => 61
    case SINGLE_LOW_9_QUOTATION_MARK => 62
    case SUBSCRIPT_ONE => 63
    case SUPERSCRIPT_ONE => 64
    case LEFT_POINTING_DOUBLE_ANGLE_QUOTATION_MARK => 65
    case LEFT_DOUBLE_QUOTATION_MARK => 66
    case LEFT_SINGLE_QUOTATION_MARK => 67
    case SUBSCRIPT_TWO => 68
    case SUPERSCRIPT_TWO => 69
    case RIGHT_POINTING_DOUBLE_ANGLE_QUOTATION_MARK => 70
    case RIGHT_DOUBLE_QUOTATION_MARK => 71
    case RIGHT_SINGLE_QUOTATION_MARK => 72
    case SUBSCRIPT_THREE => 73
    case SUPERSCRIPT_THREE => 74
    case CENT_SIGN => 75
    case SUBSCRIPT_FOUR => 76
    case SUPERSCRIPT_FOUR => 77
    case SUBSCRIPT_FIVE => 78
    case SUPERSCRIPT_FIVE => 79
    case SUBSCRIPT_SIX => 80
    case SUPERSCRIPT_SIX => 81
    case SUBSCRIPT_SEVEN => 82
    case SUPERSCRIPT_SEVEN => 83
    case SUBSCRIPT_EIGHT => 84
    case SUPERSCRIPT_EIGHT => 85
    case PILCROW_SIGN => 86
    case SUBSCRIPT_NINE => 87
    case SUPERSCRIPT_NINE => 88
    case SUBSCRIPT_ZERO => 89
    case SUPERSCRIPT_ZERO => 90
    case NARROW_NO_BREAK_SPACE => 91
  }

  /** The number of `unicode_names` enumerators, and so the length of `unicode_map`. */
  const UnicodeCount: nat := 92

  /** The `switch (keycode)` of `process_record_user`. */
  function CaseOf(keycode: KeyInput<CustomKeycode>): Intercept<Layer, UnicodeName> {
    match keycode
    case OtherKey(_) => PassThrough
    case CustomKey(c) =>
      match c
      case CKC_LMOVE_Base => Move(Base)
      case CKC_LMOVE_DK => Move(DK)
      case CKC_LMOVE_Sym => Move(Sym)
      case CKC_LMOVE_Fn => Move(Fn)
      case Base_EKC_1 => Custom("FR_1", EURO_SIGN)
      case Base_EKC_2 => Custom("FR_2", LEFT_POINTING_DOUBLE_ANGLE_QUOTATION_MARK)
      case Base_EKC_3 => Custom("FR_3", RIGHT_POINTING_DOUBLE_ANGLE_QUOTATION_MARK)
      case Base_EKC_6 => Custom("FR_6", CIRCUMFLEX_ACCENT)
      case Base_EKC_SPC => Custom("KC_SPC", NARROW_NO_BREAK_SPACE)
      case DK_EKC_C => Custom("FR_CCED", LATIN_CAPITAL_LETTER_C_WITH_CEDILLA)
      case DK_EKC_A => Custom("FR_AGRV", LATIN_CAPITAL_LETTER_A_WITH_GRAVE)
      case DK_EKC_S => Custom("FR_EACU", LATIN_CAPITAL_LETTER_E_WITH_ACUTE)
      case DK_EKC_E => Custom("FR_EGRV", LATIN_CAPITAL_LETTER_E_WITH_GRAVE)
      case Sym_EKC_C => Custom("FR_LABK", LESS_THAN_OR_EQUAL_TO)
      case Sym_EKC_O => Custom("FR_RABK", GREATER_THAN_OR_EQUAL_TO)
      case Sym_EKC_W => Custom("FR_PERC", PER_MILLE_SIGN)
      case Sym_EKC_J => Custom("FR_AT", COMBINING_RING_ABOVE)
      case Sym_EKC_D => Custom("FR_ASTR", MULTIPLICATION_SIGN)
      case Sym_EKC_DK => Custom("FR_QUOT", COMBINING_ACUTE_ACCENT)
      case Sym_EKC_Y => Custom("FR_GRV", COMBINING_GRAVE_ACCENT)
      case Sym_EKC_A => Custom("FR_LCBR", COMBINING_CARON)
      case Sym_EKC_N => Custom("FR_RCBR", COMBINING_DOT_ABOVE)
      case Sym_EKC_F => Custom("FR_EQL", NOT_EQUAL_TO)
      case Sym_EKC_L => Custom("FR_BSLS", COMBINING_LONG_SOLIDUS_OVERLAY)
      case Sym_EKC_R => Custom("FR_PLUS", PLUS_SIGN_ABOVE_EQUALS_SIGN)
      case Sym_EKC_T => Custom("FR_MINS", COMBINING_MACRON)
      case Sym_EKC_I => Custom("FR_SLSH", DIVISION_SIGN)
      case Sym_EKC_Z => Custom("FR_TILD", COMBINING_TILDE)
      case Sym_EKC_X => Custom("FR_LBRC", COMBINING_COMMA_BELOW)
      case Sym_EKC_MNS => Custom("FR_RBRC", COMBINING_OGONEK)
      case Sym_EKC_V => Custom("FR_UNDS", EN_DASH)
      case Sym_EKC_DOT => Custom("FR_PIPE", BROKEN_BAR)
      case Sym_EKC_H => Custom("FR_EXLM", NOT_SIGN)
      case Sym_EKC_G => Custom("FR_SCLN", COMBINING_TURNED_COMMA_ABOVE)
      case Sym_EKC_K => Custom("FR_QUES", COMBINING_BREVE)
  }

  /** The `CKC_LMOVE_<layer>` keycode of each layer, and what the switch does with it. */
  function LayerMoveKey(l: Layer): (c: CustomKeycode)
    ensures CaseOf(CustomKey(c)) == Move(l)
  {
    match l
      case Base => CKC_LMOVE_Base
      case DK => CKC_LMOVE_DK
      case Sym => CKC_LMOVE_Sym
      case Fn => CKC_LMOVE_Fn
  }

  /** The switch intercepts exactly the custom keycodes, and moves only on a layer's move key. */
  lemma Intercepts(keycode: KeyInput<CustomKeycode>)
    ensures CaseOf(keycode) != PassThrough <==> keycode.CustomKey?
    ensures CaseOf(keycode).Move? ==> keycode == CustomKey(LayerMoveKey(CaseOf(keycode).layer))
  {
  }

  /** `process_record_user(keycode, record)`, with `record->event.pressed` as `pressed`. */
  method ProcessRecordUser(kb: Keyboard, keycode: KeyInput<CustomKeycode>, pressed: bool) returns (r: bool)
    modifies kb
    ensures kb.mods == old(kb.mods)
    ensures match CaseOf(keycode)
      case PassThrough => r && kb.layers == old(kb.layers) && kb.trace == old(kb.trace)
      case Move(l) => !r && kb.layers == {LayerIndex(l)} && kb.trace == old(kb.trace)
      case Custom(kc, n) =>
        var e := CustomKeyEffect(kc, Ordinal(n), pressed, Shifted(old(kb.mods)));
        r == e.passOn && kb.layers == old(kb.layers) && kb.trace == old(kb.trace) + e.actions
  {
    var m := kb.GetMods();
    var shifted := m & ModMaskShift != 0;
    match CaseOf(keycode)
    case PassThrough =>
      return true;
    case Move(l) =>
      kb.LayerMove(LayerIndex(l));
      return false;
    case Custom(kc, n) =>
      r := kb.CustomKeyTail(kc, Ordinal(n), pressed, shifted);
  }
}
