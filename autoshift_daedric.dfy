/**
 * The autoshift hooks of the `daedric` keymap: `_autoshift_press_user`
 * and `_autoshift_release_user` pick the unshifted and shifted codes of a
 * key from one switch per active layer, and `autoshift_press_user` and
 * `autoshift_release_user` fall back to the firmware's own shifting when
 * they do not handle the key.
 */
module DaedricAutoshift {
  import opened Wrappers
  import opened Firmware
  import opened DaedricKeymap

  /** What one `case` of an autoshift switch assigns. */
  datatype AutoshiftCase =
    | Plain(kc: Keycode, skc: Keycode)       // `kc` and `skc_or_skc_idx`, both keycodes
    | Unicode(kc: Keycode, idx: UnicodeName) // `kc`, `skc_or_skc_idx` as an index, and `tap_unicode = true`

  /** The value of `skc_or_skc_idx`: a keycode or a `unicode_names` enumerator. */
  datatype SkcOrIdx = Code(code: Keycode) | Index(name: UnicodeName)

  /**
   * The locals `tap_unicode`, `kc` and `skc_or_skc_idx` of a hook; `None`
   * stands for a variable that has not been assigned.
   */
  datatype Locals = Locals(tapUnicode: bool, kc: Option<Keycode>, skc: Option<SkcOrIdx>)

  /** The locals on entry: `tap_unicode = false`, the other two unassigned. */
  const Unassigned := Locals(false, None, None)

  /** The assignments of one case; a plain case leaves `tap_unicode` as it was. */
  function Assign(loc: Locals, e: AutoshiftCase): Locals {
    match e
    case Plain(kc, skc) => loc.(kc := Some(kc), skc := Some(Code(skc)))
    case Unicode(kc, n) => Locals(true, Some(kc), Some(Index(n)))
  }

  /**
   * `if (IS_LAYER_ON(l)) { switch (keycode) { default: return false; … } }`
   * on the locals so far; `None` once the hook has returned false.
   */
  function Switch(loc: Option<Locals>, on: bool, entry: Option<AutoshiftCase>): Option<Locals> {
    if loc.None? || !on then loc
    else if entry.None? then None
    else Some(Assign(loc.value, entry.value))
  }

  /** The layers whose being on makes both hooks return false straight away. */
  predicate Stops(layers: set<nat>) {
    IsLayerOn(layers, LayerIndex(Qwerty)) || IsLayerOn(layers, LayerIndex(Media)) || IsLayerOn(layers, LayerIndex(Fn))
  }

  /** A layer state that only holds layers of `enum layers`. */
  predicate ValidLayers(layers: set<nat>) {
    forall l :: l in layers ==> l <= LayerIndex(Fn)
  }

  /** The locals `_autoshift_press_user` reaches its tail with, or `None` if it returned false. */
  function PressSwitches(layers: set<nat>, keycode: KeyInput<CustomKeycode>): Option<Locals> {
    if Stops(layers) then None
    else
      var afterBase := Switch(Some(Unassigned), IsLayerOn(layers, LayerIndex(Base)), PressBase(keycode));
      var afterDK := Switch(afterBase, IsLayerOn(layers, LayerIndex(DK)), PressDK(keycode));
      Switch(afterDK, IsLayerOn(layers, LayerIndex(Sym)), PressSym(keycode))
  }

  /** The locals `_autoshift_release_user` reaches its tail with, or `None` if it returned false. */
  function ReleaseSwitches(layers: set<nat>, keycode: KeyInput<CustomKeycode>): Option<Locals> {
    if Stops(layers) then None
    else
      var afterBase := Switch(Some(Unassigned), IsLayerOn(layers, LayerIndex(Base)), ReleaseBase(keycode));
      var afterDK := Switch(afterBase, IsLayerOn(layers, LayerIndex(DK)), ReleaseDK(keycode));
      Switch(afterDK, IsLayerOn(layers, LayerIndex(Sym)), ReleaseSym(keycode))
  }

  /**
   * Every local the tail reads has been assigned, and `tap_unicode` is set
   * exactly when `skc_or_skc_idx` holds a unicode index.
   */
  predicate Ready(loc: Locals) {
    loc.kc.Some? && loc.skc.Some? && (loc.tapUnicode <==> loc.skc.value.Index?)
  }

  /** The tail of `_autoshift_press_user`. */
  function PressTail(loc: Locals, shifted: bool): seq<Action>
    requires Ready(loc)
  {
    if shifted && loc.tapUnicode then [SendUnicode(Ordinal(loc.skc.value.name), 0)]
    else [Register(if !shifted then loc.kc.value else loc.skc.value.code)]
  }

  /** The tail of `_autoshift_release_user`. */
  function ReleaseTail(loc: Locals, shifted: bool): seq<Action>
    requires Ready(loc)
  {
    if shifted && loc.tapUnicode then []
    else [Unregister(if !shifted then loc.kc.value else loc.skc.value.code)]
  }

  /** The `IS_LAYER_ON(Base)` switch of `_autoshift_press_user`. */
  function PressBase(keycode: KeyInput<CustomKeycode>): Option<AutoshiftCase> {
    match keycode
    case CustomKey(c) =>
      match c {
        case Base_EKC_1 => Some(Unicode("KC_1", EURO_SIGN))
        case Base_EKC_2 => Some(Unicode("KC_2", LEFT_POINTING_DOUBLE_ANGLE_QUOTATION_MARK))
        case Base_EKC_3 => Some(Unicode("KC_3", RIGHT_POINTING_DOUBLE_ANGLE_QUOTATION_MARK))
        case Base_EKC_SPC => Some(Unicode("KC_SPC", NARROW_NO_BREAK_SPACE))
        case _ => None
      }
    case OtherKey(name) =>
      match name
      case "KC_4" => Some(Plain("KC_4", "KC_DLR"))
      case "KC_5" => Some(Plain("KC_5", "KC_PERC"))
      case "KC_6" => Some(Plain("KC_6", "KC_CIRC"))
      case "KC_7" => Some(Plain("KC_7", "KC_AMPR"))
      case "KC_8" => Some(Plain("KC_8", "KC_ASTR"))
      case "KC_9" => Some(Plain("KC_9", "KC_HASH"))
      case "KC_0" => Some(Plain("KC_0", "KC_AT"))
      case "OSL(DK)" => Some(Plain("OSL(DK)", "KC_EXLM"))
      case "KC_MINS" => Some(Plain("KC_MINS", "KC_QUES"))
      case "KC_DOT" => Some(Plain("KC_DOT", "KC_COLN"))
      case "KC_COMM" => Some(Plain("KC_COMM", "KC_SCLN"))
      case _ => None
  }

  /** The `IS_LAYER_ON(DK)` switch of `_autoshift_press_user`. */
  function PressDK(keycode: KeyInput<CustomKeycode>): Option<AutoshiftCase> {
    match keycode
    case CustomKey(_) => None
    case OtherKey(name) =>
      match name
      case "KC_UNDS" => Some(Plain("KC_UNDS", "KC_UNDS"))
      case "KC_LPRN" => Some(Plain("KC_LPRN", "KC_LPRN"))
      case "KC_RPRN" => Some(Plain("KC_RPRN", "KC_RPRN"))
      case _ => None
  }

  /** The `IS_LAYER_ON(Sym)` switch of `_autoshift_press_user`. */
  function PressSym(keycode: KeyInput<CustomKeycode>): Option<AutoshiftCase> {
    match keycode
    case CustomKey(c) =>
      match c {
        case Sym_EKC_Q => Some(Unicode("KC_CIRC", COMBINING_CIRCUMFLEX_ACCENT))
        case Sym_EKC_C => Some(Unicode("KC_LABK", LESS_THAN_OR_EQUAL_TO))
        case Sym_EKC_O => Some(Unicode("KC_RABK", GREATER_THAN_OR_EQUAL_TO))
        case Sym_EKC_W => Some(Unicode("KC_PERC", PER_MILLE_SIGN))
        case Sym_EKC_J => Some(Unicode("KC_AT", COMBINING_RING_ABOVE))
        case Sym_EKC_D => Some(Unicode("KC_ASTR", MULTIPLICATION_SIGN))
        case Sym_EKC_DK => Some(Unicode("KC_QUOT", COMBINING_ACUTE_ACCENT))
        case Sym_EKC_Y => Some(Unicode("KC_GRV", COMBINING_GRAVE_ACCENT))
        case Sym_EKC_A => Some(Unicode("KC_LCBR", COMBINING_CARON))
        case Sym_EKC_N => Some(Unicode("KC_RCBR", COMBINING_DOT_ABOVE))
        case Sym_EKC_F => Some(Unicode("KC_EQL", NOT_EQUAL_TO))
        case Sym_EKC_L => Some(Unicode("KC_BSLS", COMBINING_LONG_SOLIDUS_OVERLAY))
        case Sym_EKC_R => Some(Unicode("KC_PLUS", PLUS_SIGN_ABOVE_EQUALS_SIGN))
        case Sym_EKC_T => Some(Unicode("KC_MINS", COMBINING_MACRON))
        case Sym_EKC_I => Some(Unicode("KC_SLSH", DIVISION_SIGN))
        case Sym_EKC_U => Some(Unicode("KC_DQUO", COMBINING_DOUBLE_ACUTE_ACCENT))
        case Sym_EKC_Z => Some(Unicode("KC_TILD", COMBINING_TILDE))
        case Sym_EKC_X => Some(Unicode("KC_LBRC", COMBINING_COMMA_BELOW))
        case Sym_EKC_MNS => Some(Unicode("KC_RBRC", COMBINING_OGONEK))
        case Sym_EKC_V => Some(Unicode("KC_UNDS", EN_DASH))
        case Sym_EKC_DOT => Some(Unicode("KC_PIPE", BROKEN_BAR))
        case Sym_EKC_H => Some(Unicode("KC_EXLM", NOT_SIGN))
        case Sym_EKC_G => Some(Unicode("KC_SCLN", COMBINING_TURNED_COMMA_ABOVE))
        case Sym_EKC_K => Some(Unicode("KC_QUES", COMBINING_BREVE))
        case _ => None
      }
    case OtherKey(name) =>
      match name
      case "KC_DLR" => Some(Plain("KC_DLR", "KC_DLR"))
      case "KC_AMPR" => Some(Plain("KC_AMPR", "KC_AMPR"))
      case "KC_LPRN" => Some(Plain("KC_LPRN", "KC_LPRN"))
      case "KC_RPRN" => Some(Plain("KC_RPRN", "KC_RPRN"))
      case "KC_HASH" => Some(Plain("KC_HASH", "KC_HASH"))
      case "KC_COLN" => Some(Plain("KC_COLN", "KC_COLN"))
      case "KC_SPC" => Some(Plain("KC_SPC", "KC_SPC"))
      case _ => None
  }

  /** The `IS_LAYER_ON(Base)` switch of `_autoshift_release_user`. */
  function ReleaseBase(keycode: KeyInput<CustomKeycode>): Option<AutoshiftCase> {
    match keycode
    case CustomKey(c) =>
      match c {
        case Base_EKC_1 => Some(Unicode("KC_1", EURO_SIGN))
        case Base_EKC_2 => Some(Unicode("KC_2", LEFT_POINTING_DOUBLE_ANGLE_QUOTATION_MARK))
        case Base_EKC_3 => Some(Unicode("KC_3", RIGHT_POINTING_DOUBLE_ANGLE_QUOTATION_MARK))
        case Base_EKC_SPC => Some(Unicode("KC_SPC", NARROW_NO_BREAK_SPACE))
        case _ => None
      }
    case OtherKey(name) =>
      match name
      case "KC_4" => Some(Plain("KC_4", "KC_DLR"))
      case "KC_5" => Some(Plain("KC_5", "KC_PERC"))
      case "KC_6" => Some(Plain("KC_6", "KC_CIRC"))
      case "KC_7" => Some(Plain("KC_7", "KC_AMPR"))
      case "KC_8" => Some(Plain("KC_8", "KC_ASTR"))
      case "KC_9" => Some(Plain("KC_9", "KC_HASH"))
      case "KC_0" => Some(Plain("KC_0", "KC_AT"))
      case "OSL(DK)" => Some(Plain("OSL(DK)", "KC_EXLM"))
      case "KC_MINS" => Some(Plain("KC_MINS", "KC_QUES"))
      case "KC_DOT" => Some(Plain("KC_DOT", "KC_COLN"))
      case "KC_COMM" => Some(Plain("KC_COMM", "KC_SCLN"))
      case _ => None
  }

  /** The `IS_LAYER_ON(DK)` switch of `_autoshift_release_user`. */
  function ReleaseDK(keycode: KeyInput<CustomKeycode>): Option<AutoshiftCase> {
    match keycode
    case CustomKey(_) => None
    case OtherKey(name) =>
      match name
      case "KC_UNDS" => Some(Plain("KC_UNDS", "KC_UNDS"))
      case "KC_LPRN" => Some(Plain("KC_LPRN", "KC_LPRN"))
      case "KC_RPRN" => Some(Plain("KC_RPRN", "KC_RPRN"))
      case _ => None
  }

  /** The `IS_LAYER_ON(Sym)` switch of `_autoshift_release_user`. */
  function ReleaseSym(keycode: KeyInput<CustomKeycode>): Option<AutoshiftCase> {
    match keycode
    case CustomKey(c) =>
      match c {
        case Sym_EKC_Q => Some(Unicode("KC_CIRC", COMBINING_CIRCUMFLEX_ACCENT))
        case Sym_EKC_C => Some(Unicode("KC_LABK", LESS_THAN_OR_EQUAL_TO))
        case Sym_EKC_O => Some(Unicode("KC_RABK", GREATER_THAN_OR_EQUAL_TO))
        case Sym_EKC_W => Some(Unicode("KC_PERC", PER_MILLE_SIGN))
        case Sym_EKC_J => Some(Unicode("KC_AT", COMBINING_RING_ABOVE))
        case Sym_EKC_D => Some(Unicode("KC_ASTR", MULTIPLICATION_SIGN))
        case Sym_EKC_DK => Some(Unicode("KC_QUOT", COMBINING_ACUTE_ACCENT))
        case Sym_EKC_Y => Some(Unicode("KC_GRV", COMBINING_GRAVE_ACCENT))
        case Sym_EKC_A => Some(Unicode("KC_LCBR", COMBINING_CARON))
        case Sym_EKC_N => Some(Unicode("KC_RCBR", COMBINING_DOT_ABOVE))
        case Sym_EKC_F => Some(Unicode("KC_EQL", NOT_EQUAL_TO))
        case Sym_EKC_L => Some(Unicode("KC_BSLS", COMBINING_LONG_SOLIDUS_OVERLAY))
        case Sym_EKC_R => Some(Unicode("KC_PLUS", PLUS_SIGN_ABOVE_EQUALS_SIGN))
        case Sym_EKC_T => Some(Unicode("KC_MINS", COMBINING_MACRON))
        case Sym_EKC_I => Some(Unicode("KC_SLSH", DIVISION_SIGN))
        case Sym_EKC_U => Some(Unicode("KC_DQUO", COMBINING_DOUBLE_ACUTE_ACCENT))
        case Sym_EKC_Z => Some(Unicode("KC_TILD", COMBINING_TILDE))
        case Sym_EKC_X => Some(Unicode("KC_LBRC", COMBINING_COMMA_BELOW))
        case Sym_EKC_MNS => Some(Unicode("KC_RBRC", COMBINING_OGONEK))
        case Sym_EKC_V => Some(Unicode("KC_UNDS", EN_DASH))
        case Sym_EKC_DOT => Some(Unicode("KC_PIPE", BROKEN_BAR))
        case Sym_EKC_H => Some(Unicode("KC_EXLM", NOT_SIGN))
        case Sym_EKC_G => Some(Unicode("KC_SCLN", COMBINING_TURNED_COMMA_ABOVE))
        case Sym_EKC_K => Some(Unicode("KC_QUES", COMBINING_BREVE))
        case _ => None
      }
    case OtherKey(name) =>
      match name
      case "KC_DLR" => Some(Plain("KC_DLR", "KC_DLR"))
      case "KC_AMPR" => Some(Plain("KC_AMPR", "KC_AMPR"))
      case "KC_LPRN" => Some(Plain("KC_LPRN", "KC_LPRN"))
      case "KC_RPRN" => Some(Plain("KC_RPRN", "KC_RPRN"))
      case "KC_HASH" => Some(Plain("KC_HASH", "KC_HASH"))
      case "KC_COLN" => Some(Plain("KC_COLN", "KC_COLN"))
      case "KC_SPC" => Some(Plain("KC_SPC", "KC_SPC"))
      case _ => None
  }

  /** The codes a case assigns to `skc_or_skc_idx`. */
  function SkcOf(e: AutoshiftCase): SkcOrIdx {
    match e
    case Plain(_, skc) => Code(skc)
    case Unicode(_, n) => Index(n)
  }

  /**
   * A key with a unicode case has no case on a later layer's switch, and
   * the DK switch has only plain cases.
   */
  lemma UnicodeCasesStandAlone(keycode: KeyInput<CustomKeycode>)
    ensures PressBase(keycode).Some? && PressBase(keycode).value.Unicode? ==> PressDK(keycode).None? && PressSym(keycode).None?
    ensures PressDK(keycode).Some? ==> PressDK(keycode).value.Plain?
  {
  }

  /** The release hook's switches are the press hook's, case for case. */
  lemma ReleaseMatchesPress(layers: set<nat>, keycode: KeyInput<CustomKeycode>)
    ensures ReleaseBase(keycode) == PressBase(keycode)
    ensures ReleaseDK(keycode) == PressDK(keycode)
    ensures ReleaseSym(keycode) == PressSym(keycode)
    ensures ReleaseSwitches(layers, keycode) == PressSwitches(layers, keycode)
  {
  }

  /**
   * Both hooks return false exactly when Qwerty, Media or Fn is on, or when
   * one of Base, DK and Sym is on and its switch has no case for the key.
   */
  lemma PressDefaults(layers: set<nat>, keycode: KeyInput<CustomKeycode>)
    ensures PressSwitches(layers, keycode).None? <==>
      Stops(layers)
      || (IsLayerOn(layers, LayerIndex(Base)) && PressBase(keycode).None?)
      || (IsLayerOn(layers, LayerIndex(DK)) && PressDK(keycode).None?)
      || (IsLayerOn(layers, LayerIndex(Sym)) && PressSym(keycode).None?)
  {
  }

  /**
   * When the hook reaches its tail, the codes are those of the last switch
   * that ran: Sym's over DK's, DK's over Base's.
   */
  lemma PressPrecedence(layers: set<nat>, keycode: KeyInput<CustomKeycode>)
    requires PressSwitches(layers, keycode).Some?
    ensures var loc := PressSwitches(layers, keycode).value;
      (IsLayerOn(layers, LayerIndex(Sym)) ==>
         loc.kc == Some(PressSym(keycode).value.kc) && loc.skc == Some(SkcOf(PressSym(keycode).value)))
      && (!IsLayerOn(layers, LayerIndex(Sym)) && IsLayerOn(layers, LayerIndex(DK)) ==>
         loc.kc == Some(PressDK(keycode).value.kc) && loc.skc == Some(SkcOf(PressDK(keycode).value)))
      && (!IsLayerOn(layers, LayerIndex(Sym)) && !IsLayerOn(layers, LayerIndex(DK)) && IsLayerOn(layers, LayerIndex(Base)) ==>
         loc.kc == Some(PressBase(keycode).value.kc) && loc.skc == Some(SkcOf(PressBase(keycode).value)))
  {
  }

  /**
   * When the hook reaches its tail, `kc` and `skc_or_skc_idx` have been
   * assigned (some switch ran, since an empty layer state counts as Base
   * on), and `tap_unicode` is not left over from an earlier switch.
   */
  lemma PressSwitchesReady(layers: set<nat>, keycode: KeyInput<CustomKeycode>)
    requires ValidLayers(layers)
    ensures PressSwitches(layers, keycode).Some? ==> Ready(PressSwitches(layers, keycode).value)
  {
    if PressSwitches(layers, keycode).Some? {
      UnicodeCasesStandAlone(keycode);
      PressPrecedence(layers, keycode);
      if layers != {} {
        var l :| l in layers;
        assert l == LayerIndex(Base) || l == LayerIndex(DK) || l == LayerIndex(Sym);
      }
    }
  }

  /** What `_autoshift_press_user` does, given that it returns true. */
  function PressCoreActions(layers: set<nat>, keycode: KeyInput<CustomKeycode>, shifted: bool): seq<Action>
    requires ValidLayers(layers)
  {
    var s := PressSwitches(layers, keycode);
    if s.None? then [] else PressSwitchesReady(layers, keycode); PressTail(s.value, shifted)
  }

  /** What `_autoshift_release_user` does, given that it returns true. */
  function ReleaseCoreActions(layers: set<nat>, keycode: KeyInput<CustomKeycode>, shifted: bool): seq<Action>
    requires ValidLayers(layers)
  {
    var s := ReleaseSwitches(layers, keycode);
    if s.None? then [] else ReleaseMatchesPress(layers, keycode); PressSwitchesReady(layers, keycode); ReleaseTail(s.value, shifted)
  }

  /** `_autoshift_press_user(keycode, shifted, record)`. */
  method AutoshiftPressCore(kb: Keyboard, keycode: KeyInput<CustomKeycode>, shifted: bool) returns (r: bool)
    requires ValidLayers(kb.layers)
    modifies kb
    ensures kb.mods == old(kb.mods) && kb.layers == old(kb.layers)
    ensures r == PressSwitches(old(kb.layers), keycode).Some?
    ensures kb.trace == old(kb.trace) + PressCoreActions(old(kb.layers), keycode, shifted)
  {
    if IsLayerOn(kb.layers, LayerIndex(Qwerty)) { return false; }
    if IsLayerOn(kb.layers, LayerIndex(Media)) { return false; }
    if IsLayerOn(kb.layers, LayerIndex(Fn)) { return false; }
    var loc := Unassigned;
    if IsLayerOn(kb.layers, LayerIndex(Base)) {
      var e := PressBase(keycode);
      if e.None? { return false; }
      loc := Assign(loc, e.value);
    }
    if IsLayerOn(kb.layers, LayerIndex(DK)) {
      var e := PressDK(keycode);
      if e.None? { return false; }
      loc := Assign(loc, e.value);
    }
    if IsLayerOn(kb.layers, LayerIndex(Sym)) {
      var e := PressSym(keycode);
      if e.None? { return false; }
      loc := Assign(loc, e.value);
    }
    PressSwitchesReady(kb.layers, keycode);
    if shifted && loc.tapUnicode {
      kb.TapUnicode(Ordinal(loc.skc.value.name));
    } else {
      kb.RegisterCode16(if !shifted then loc.kc.value else loc.skc.value.code);
    }
    return true;
  }

  /** `_autoshift_release_user(keycode, shifted, record)`. */
  method AutoshiftReleaseCore(kb: Keyboard, keycode: KeyInput<CustomKeycode>, shifted: bool) returns (r: bool)
    requires ValidLayers(kb.layers)
    modifies kb
    ensures kb.mods == old(kb.mods) && kb.layers == old(kb.layers)
    ensures r == ReleaseSwitches(old(kb.layers), keycode).Some?
    ensures kb.trace == old(kb.trace) + ReleaseCoreActions(old(kb.layers), keycode, shifted)
  {
    if IsLayerOn(kb.layers, LayerIndex(Qwerty)) { return false; }
    if IsLayerOn(kb.layers, LayerIndex(Media)) { return false; }
    if IsLayerOn(kb.layers, LayerIndex(Fn)) { return false; }
    var loc := Unassigned;
    if IsLayerOn(kb.layers, LayerIndex(Base)) {
      var e := ReleaseBase(keycode);
      if e.None? { return false; }
      loc := Assign(loc, e.value);
    }
    if IsLayerOn(kb.layers, LayerIndex(DK)) {
      var e := ReleaseDK(keycode);
      if e.None? { return false; }
      loc := Assign(loc, e.value);
    }
    if IsLayerOn(kb.layers, LayerIndex(Sym)) {
      var e := ReleaseSym(keycode);
      if e.None? { return false; }
      loc := Assign(loc, e.value);
    }
    ReleaseMatchesPress(kb.layers, keycode);
    PressSwitchesReady(kb.layers, keycode);
    if shifted && loc.tapUnicode {
      return true;
    }
    kb.UnregisterCode16(if !shifted then loc.kc.value else loc.skc.value.code);
    return true;
  }

  /**
   * What `autoshift_press_user` does; `tap` is the keycode it registers when
   * the hook above returns false (`IS_RETRO(keycode) ? keycode & 0xFF :
   * keycode`, which the firmware computes).
   */
  function PressActions(layers: set<nat>, keycode: KeyInput<CustomKeycode>, shifted: bool, tap: Keycode): seq<Action>
    requires ValidLayers(layers)
  {
    if PressSwitches(layers, keycode).Some? then PressCoreActions(layers, keycode, shifted)
    else DefaultPress(shifted, tap)
  }

  /** What `autoshift_release_user` does. */
  function ReleaseActions(layers: set<nat>, keycode: KeyInput<CustomKeycode>, shifted: bool, tap: Keycode): seq<Action>
    requires ValidLayers(layers)
  {
    if ReleaseSwitches(layers, keycode).Some? then ReleaseCoreActions(layers, keycode, shifted)
    else [Unregister(tap)]
  }

  /** `autoshift_press_user(keycode, shifted, record)`. */
  method AutoshiftPressUser(kb: Keyboard, keycode: KeyInput<CustomKeycode>, shifted: bool, tap: Keycode)
    requires ValidLayers(kb.layers)
    modifies kb
    ensures kb.mods == old(kb.mods) && kb.layers == old(kb.layers)
    ensures kb.trace == old(kb.trace) + PressActions(old(kb.layers), keycode, shifted, tap)
  {
    var handled := AutoshiftPressCore(kb, keycode, shifted);
    if handled { return; }
    if shifted {
      kb.AddWeakMods(LeftShift);
    }
    kb.RegisterCode16(tap);
  }

  /** `autoshift_release_user(keycode, shifted, record)`. */
  method AutoshiftReleaseUser(kb: Keyboard, keycode: KeyInput<CustomKeycode>, shifted: bool, tap: Keycode)
    requires ValidLayers(kb.layers)
    modifies kb
    ensures kb.mods == old(kb.mods) && kb.layers == old(kb.layers)
    ensures kb.trace == old(kb.trace) + ReleaseActions(old(kb.layers), keycode, shifted, tap)
  {
    var handled := AutoshiftReleaseCore(kb, keycode, shifted);
    if handled { return; }
    kb.UnregisterCode16(tap);
  }

  /**
   * The two tails are symmetric: the release unregisters exactly what the
   * press registered, and a code point is sent with no modifier held.
   */
  lemma TailsBalanced(loc: Locals, shifted: bool)
    requires Ready(loc)
    ensures Held(PressTail(loc, shifted) + ReleaseTail(loc, shifted)) == multiset{}
    ensures forall a :: a in PressTail(loc, shifted) && a.SendUnicode? ==> a.held == 0
    ensures forall a :: a in ReleaseTail(loc, shifted) ==> a.Unregister?
  {
    if shifted && loc.tapUnicode {
      assert PressTail(loc, shifted) + ReleaseTail(loc, shifted) == [] + [SendUnicode(Ordinal(loc.skc.value.name), 0)];
      HeldOfNoKey([], SendUnicode(Ordinal(loc.skc.value.name), 0));
    } else {
      var k := if !shifted then loc.kc.value else loc.skc.value.code;
      assert PressTail(loc, shifted) + ReleaseTail(loc, shifted) == [] + [Register(k), Unregister(k)];
      HeldRegisterUnregister([], k);
    }
  }

  /** The hooks' fallback when the key is not theirs: `tap_code16`'s press, with weak shift when shifted. */
  function DefaultPress(shifted: bool, tap: Keycode): seq<Action> {
    (if shifted then [WeakMods(LeftShift)] else []) + [Register(tap)]
  }

  /**
   * Both hooks take the same path: either both reach their tails with the
   * same ready locals, or both fall back to tapping `tap`.
   */
  lemma ActionsBySwitches(layers: set<nat>, keycode: KeyInput<CustomKeycode>, shifted: bool, tap: Keycode)
    requires ValidLayers(layers)
    ensures var s := PressSwitches(layers, keycode);
      if s.Some? then
        Ready(s.value) && PressActions(layers, keycode, shifted, tap) == PressTail(s.value, shifted)
        && ReleaseActions(layers, keycode, shifted, tap) == ReleaseTail(s.value, shifted)
      else
        PressActions(layers, keycode, shifted, tap) == DefaultPress(shifted, tap)
        && ReleaseActions(layers, keycode, shifted, tap) == [Unregister(tap)]
  {
    ReleaseMatchesPress(layers, keycode);
    PressSwitchesReady(layers, keycode);
  }

  /** The fallback press and its release leave nothing held, and send no code point. */
  lemma DefaultBalanced(shifted: bool, tap: Keycode)
    ensures Held(DefaultPress(shifted, tap) + [Unregister(tap)]) == multiset{}
    ensures forall a :: a in DefaultPress(shifted, tap) ==> !a.SendUnicode?
  {
    var press := DefaultPress(shifted, tap);
    if shifted {
      assert press + [Unregister(tap)] == [WeakMods(LeftShift)] + [Register(tap), Unregister(tap)];
      HeldOfNoKey([], WeakMods(LeftShift));
      assert [] + [WeakMods(LeftShift)] == [WeakMods(LeftShift)];
      HeldRegisterUnregister([WeakMods(LeftShift)], tap);
    } else {
      assert press + [Unregister(tap)] == [] + [Register(tap), Unregister(tap)];
      HeldRegisterUnregister([], tap);
    }
  }

  /**
   * Press and release are symmetric: on the same layers and with the same
   * shift decision, the release unregisters exactly what the press
   * registered, and a unicode code point is always sent with no modifier
   * held.
   */
  lemma AutoshiftBalanced(layers: set<nat>, keycode: KeyInput<CustomKeycode>, shifted: bool, tap: Keycode)
    requires ValidLayers(layers)
    ensures Held(PressActions(layers, keycode, shifted, tap) + ReleaseActions(layers, keycode, shifted, tap)) == multiset{}
    ensures forall a :: a in PressActions(layers, keycode, shifted, tap) && a.SendUnicode? ==> a.held == 0
    ensures forall a :: a in ReleaseActions(layers, keycode, shifted, tap) ==> a.Unregister?
  {
    ActionsBySwitches(layers, keycode, shifted, tap);
    var s := PressSwitches(layers, keycode);
    if s.Some? {
      TailsBalanced(s.value, shifted);
    } else {
      DefaultBalanced(shifted, tap);
    }
  }
}
