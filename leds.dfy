/**
 * The LED indicators of the daedric_34 keymap (daedric.c): the unicode
 * input mode on status LEDs 4 to 6, the top layer on status LEDs 1 to 3,
 * the colours of the RGB matrix for each layer, the tri-layer rule of the
 * Qwerty layers, and the fallback to Qwerty when no host is connected.
 */
module DaedricLeds {
  import opened Firmware
  import opened LedLayout
  import opened Daedric34Keymap

  /** `os_variant_t`, what `detected_host_os()` reports. */
  datatype HostOs = OsUnsure | OsLinux | OsWindows | OsMacos | OsIos

  /** The firmware's unicode input modes, `UNICODE_MODE_*`. */
  datatype UnicodeMode = ModeMacos | ModeLinux | ModeWindows | ModeBsd | ModeWinCompose | ModeEmacs

  /** The unicode input mode `init_led_for_input_mode` chooses for a host. */
  function InputModeFor(os: HostOs): UnicodeMode {
    match os
    case OsUnsure | OsLinux => ModeLinux
    case OsWindows => ModeWinCompose
    case OsMacos | OsIos => ModeMacos
  }

  /** Status LEDs 4, 5 and 6 for a mode: one LED per family of modes, all three for any other mode. */
  function ModeLeds(mode: UnicodeMode): (leds: seq<bool>)
    ensures |leds| == 3
  {
    match mode
    case ModeLinux => [true, false, false]
    case ModeWinCompose | ModeWindows => [false, true, false]
    case ModeMacos => [false, false, true]
    case _ => [true, true, true]
  }

  function Count(leds: seq<bool>): nat {
    if leds == [] then 0 else (if leds[0] then 1 else 0) + Count(leds[1..])
  }

  /**
   * Whatever host is detected, exactly one of LEDs 4 to 6 is lit, and it
   * names the host: LED 4 for Linux (or an unknown host), LED 5 for
   * Windows, LED 6 for macOS and iOS.
   */
  lemma HostShownOnLeds(os: HostOs)
    ensures var leds := ModeLeds(InputModeFor(os));
      Count(leds) == 1
      && (leds[0] <==> os.OsUnsure? || os.OsLinux?)
      && (leds[1] <==> os.OsWindows?)
      && (leds[2] <==> os.OsMacos? || os.OsIos?)
  {
    var leds := ModeLeds(InputModeFor(os));
    assert Count(leds) == (if leds[0] then 1 else 0) + Count(leds[1..]);
    assert Count(leds[1..]) == (if leds[1] then 1 else 0) + Count(leds[2..]);
    assert Count(leds[2..]) == (if leds[2] then 1 else 0) + Count(leds[3..]);
    assert leds[3..] == [];
  }

  /** Two modes look the same on LEDs 4 to 6 exactly when they are the same mode or in the same family. */
  lemma ModeLedsTell(a: UnicodeMode, b: UnicodeMode)
    ensures ModeLeds(a) == ModeLeds(b) <==>
      a == b
      || ((a.ModeWindows? || a.ModeWinCompose?) && (b.ModeWindows? || b.ModeWinCompose?))
      || ((a.ModeBsd? || a.ModeEmacs?) && (b.ModeBsd? || b.ModeEmacs?))
  {
    if ModeLeds(a) == ModeLeds(b) {
      assert ModeLeds(a)[0] == ModeLeds(b)[0] && ModeLeds(a)[1] == ModeLeds(b)[1] && ModeLeds(a)[2] == ModeLeds(b)[2];
    }
  }

  /** Status LEDs 1, 2 and 3 for the top layer: `layer + 1` in binary, LED 1 the low bit, for layers 0 to 6; all off above. */
  function LayerLeds(layer: nat): (leds: seq<bool>)
    ensures |leds| == 3
  {
    var n := layer + 1;
    if layer <= 6 then [n % 2 == 1, n / 2 % 2 == 1, n / 4 % 2 == 1] else [false, false, false]
  }

  /** The number three LEDs show, the first one being the low bit. */
  function Binary(leds: seq<bool>): nat
    requires |leds| == 3
  {
    (if leds[0] then 1 else 0) + (if leds[1] then 2 else 0) + (if leds[2] then 4 else 0)
  }

  /** LEDs 1 to 3 read back the top layer: `layer + 1` for layers 0 to 6, nothing for any other. */
  lemma LayerLedsRead(layer: nat)
    ensures Binary(LayerLeds(layer)) == if layer <= 6 then layer + 1 else 0
  {
    var n := layer + 1;
    if layer <= 6 {
      assert n == n % 2 + 2 * (n / 2 % 2) + 4 * (n / 4 % 2);
    }
  }

  /**
   * `biton32(state)` on the bits below `n`: the highest layer under `n`
   * that is on, or 0 if none is.
   */
  function HighestBelow(layers: set<nat>, n: nat): nat {
    if n == 0 then 0 else if n - 1 in layers then n - 1 else HighestBelow(layers, n - 1)
  }

  /** `biton32(layer_state)`: a layer state has 32 bits. */
  function TopLayer(layers: set<nat>): nat {
    HighestBelow(layers, 32)
  }

  /** The top layer is on and no layer above it is, or no layer under `n` is on and it is 0. */
  lemma {:induction false} HighestBelowIsHighest(layers: set<nat>, n: nat)
    ensures var top := HighestBelow(layers, n);
      (top in layers && top < n) || (top == 0 && forall l :: l in layers ==> l >= n)
    ensures var top := HighestBelow(layers, n);
      forall l :: l in layers && l < n ==> l <= HighestBelow(layers, n)
  {
    if n > 0 && n - 1 !in layers {
      HighestBelowIsHighest(layers, n - 1);
    }
  }

  /** The firmware only turns on layers the keymap declares. */
  predicate Declared(layers: set<nat>) {
    forall l :: l in layers ==> l <= LayerIndex(Fn)
  }

  /** On a declared layer state, `biton32` gives the highest layer on, or 0 when none is. */
  lemma TopLayerOfDeclared(layers: set<nat>)
    requires Declared(layers)
    ensures TopLayer(layers) <= LayerIndex(Fn)
    ensures layers != {} ==> TopLayer(layers) in layers && forall l :: l in layers ==> l <= TopLayer(layers)
    ensures layers == {} ==> TopLayer(layers) == 0
  {
    HighestBelowIsHighest(layers, 32);
  }

  /** The layer with a given `enum layers` value. */
  function LayerAt(n: nat): (l: Layer)
    requires n <= 7
    ensures LayerIndex(l) == n
  {
    match n
    case 0 => Base
    case 1 => Qwerty
    case 2 => DK
    case 3 => Sym
    case 4 => SymQwerty
    case 5 => Nav
    case 6 => Media
    case _ => Fn
  }

  /**
   * `update_tri_layer_state(state, l1, l2, l3)`: `l3` is on exactly when
   * `l1` and `l2` both are.
   */
  function TriLayer(state: set<nat>, l1: nat, l2: nat, l3: nat): set<nat> {
    if l1 in state && l2 in state then state + {l3} else state - {l3}
  }

  /** `layer_state_set_user`: on Qwerty (without Base) the Fn layer follows SymQwerty and Nav. */
  function LayerStateSetUser(state: set<nat>): set<nat> {
    if IsLayerOn(state, LayerIndex(Base)) then state
    else if IsLayerOn(state, LayerIndex(Qwerty)) then TriLayer(state, LayerIndex(SymQwerty), LayerIndex(Nav), LayerIndex(Fn))
    else state
  }

  /**
   * The hook touches only the Fn layer, and only when Qwerty is on and Base
   * is not; then Fn is on exactly when SymQwerty and Nav both are.
   */
  lemma LayerStateSetUserEffect(state: set<nat>)
    ensures var r := LayerStateSetUser(state);
      r - {LayerIndex(Fn)} == state - {LayerIndex(Fn)}
      && (r != state ==> !IsLayerOn(state, LayerIndex(Base)) && IsLayerOn(state, LayerIndex(Qwerty)))
      && (!IsLayerOn(state, LayerIndex(Base)) && IsLayerOn(state, LayerIndex(Qwerty)) ==>
            (LayerIndex(Fn) in r <==> LayerIndex(SymQwerty) in state && LayerIndex(Nav) in state))
  {
  }

  /** Applying the hook to its own result changes nothing more. */
  lemma LayerStateSetUserIdempotent(state: set<nat>)
    ensures LayerStateSetUser(LayerStateSetUser(state)) == LayerStateSetUser(state)
  {
    var r := LayerStateSetUser(state);
    if !IsLayerOn(state, LayerIndex(Base)) && IsLayerOn(state, LayerIndex(Qwerty)) {
      assert LayerIndex(Qwerty) in r;
      assert LayerIndex(Base) !in r;
    }
  }

  /** `housekeeping_task_user` on a layer state: with no host connected, the board moves to Qwerty unless it is on already. */
  function AfterHousekeeping(layers: set<nat>, connected: bool): set<nat> {
    if !IsLayerOn(layers, LayerIndex(Qwerty)) && !connected then {LayerIndex(Qwerty)} else layers
  }

  /**
   * After housekeeping Qwerty is on if it was or if no host is connected;
   * the state changes only by becoming Qwerty alone, and a second round
   * changes nothing.
   */
  lemma HousekeepingEffect(layers: set<nat>, connected: bool)
    ensures var r := AfterHousekeeping(layers, connected);
      (IsLayerOn(r, LayerIndex(Qwerty)) <==> IsLayerOn(layers, LayerIndex(Qwerty)) || !connected)
      && (r != layers ==> r == {LayerIndex(Qwerty)} && !connected)
      && AfterHousekeeping(r, connected) == r
  {
    var r := AfterHousekeeping(layers, connected);
    if r != layers {
      assert LayerIndex(Qwerty) in r;
    }
  }

  /** An 8-bit HSV colour, as `HSV_C(h, s, v)` writes it. */
  datatype Hsv = Hsv(h: nat, s: nat, v: nat)

  const Black := Hsv(0, 0, 0)
  const Green := Hsv(0x55, 0xFF, 0xFF)
  const Purple := Hsv(0xBF, 0xFF, 0xFF)
  const Red := Hsv(0x0, 0xFF, 0xFF)
  const Gold := Hsv(0x24, 0xFF, 0xFF)
  const White := Hsv(0x0, 0x0, 0xFF)
  const Orange := Hsv(0x15, 0xFF, 0xFF)
  const Blue := Hsv(0xAC, 0xFF, 0xFF)

  /** The `Base` entry of `ledmap`, in the order of the board. */
  const BaseColors: seq<Hsv> := [
    Black, Black, Black, Black, Black, Black, Green, Green, Black, Black, Black, Black, Black, Black,
    Black, Black, Black, Black, Black, Black, Black, Black, Black, Black, Black, Gold, Black, Black,
    Black, Black, Black, Black, Black, Black, Black, Black, Black, Black, Black, Black, Red, Black,
    Black, Black, Black, Black, Black, Black, Black, Black, Black, Black, Black, Black,
    Black, Black, Black, Black, Black, Black, Black, Black, Black, Black, Black, Green,
    Purple, Black, Black, Black, Black, Purple
  ]

  /** The `Qwerty` entry of `ledmap`, in the order of the board. */
  const QwertyColors: seq<Hsv> := [
    Black, Black, Black, Black, Black, Black, Black, Black, Black, Black, Black, Black, Black, Black,
    Black, Black, Black, Black, Black, Black, Black, Black, Black, Black, Black, Black, Black, Black,
    Black, Black, Black, Black, Black, Black, Black, Black, Black, Black, Black, Black, Red, Black,
    Black, Black, Black, Black, Black, Black, Black, Black, Black, Black, Black, Black,
    Black, Black, Black, Black, Black, Black, Black, Black, Black, Black, Black, Purple,
    Black, Black, Black, Black, Black, Black
  ]

  /** The `SymQwerty` entry of `ledmap`, in the order of the board. */
  const SymQwertyColors: seq<Hsv> := [
    Black, Black, Black, Black, Black, Black, Black, Black, Black, Black, Black, Black, Black, Black,
    Black, Black, Black, Black, Black, Black, Black, Black, Black, Black, Black, Black, Black, Black,
    Black, Black, Black, Black, Black, Black, Black, Black, Black, Black, Black, Black, Black, Black,
    Black, Black, Black, Black, Black, Black, Black, Black, Black, Black, Black, Black,
    Black, Black, Black, Black, Black, Black, Black, Black, Black, Black, Black, Black,
    Black, Black, Black, Black, Black, Black
  ]

  /** The `Nav` entry of `ledmap`, in the order of the board. */
  const NavColors: seq<Hsv> := [
    Black, Black, Black, Black, Black, Black, Black, Black, Black, Black, Black, Black, Black, Black,
    Black, Black, Black, Green, Black, Black, Black, Black, Black, Orange, Orange, Orange, Black, Black,
    Black, Gold, Green, Green, Green, Black, Black, Black, Black, Orange, Orange, Orange, Black, Black,
    Black, Black, Black, Blue, Black, Red, White, Orange, Orange, Orange, Black, Black,
    Black, Black, Black, Black, Black, Black, Black, Black, Black, Black, Black, Black,
    Black, Black, Black, Black, Black, Black
  ]

  /** The `Media` entry of `ledmap`, in the order of the board. */
  const MediaColors: seq<Hsv> := [
    Black, Black, Black, Black, Black, Black, Black, Black, Black, Black, Black, Black, Black, Black,
    Black, Black, Black, Black, Black, Black, Black, Black, Black, Black, Black, Black, Red, Orange,
    Black, Black, Black, Black, Black, Black, Black, Black, Black, Black, Black, Black, Black, Black,
    Black, Black, Red, Red, Black, Black, Black, Black, Black, Black, Black, Black,
    Black, Black, Black, Black, Black, Black, Black, Black, Black, Black, Black, Black,
    Black, Black, Black, Black, Black, Black
  ]

  /** The `Fn` entry of `ledmap`, in the order of the board. */
  const FnColors: seq<Hsv> := [
    Black, Black, Black, Black, Black, Black, Black, Black, Black, Black, Black, Black, Black, Black,
    Black, Red, Black, Black, Black, Black, Black, Black, Black, Black, Black, Black, Black, Black,
    Black, Green, Green, Green, Green, Green, Black, Black, Green, Green, Green, Green, Green, Black,
    Black, Black, Black, Black, Black, Black, Green, Green, Black, Black, Black, Black,
    Black, Black, Black, Black, Black, Black, Black, Black, Black, Black, Black, Black,
    Black, Black, Black, Black, Black, Black
  ]

  /** `ledmap`: the colour of every LED on each layer, by LED index. */
  function Ledmap(l: Layer): (colors: seq<Hsv>)
    ensures |colors| == LedCount
  {
    match l
    case Base => Expand(BaseColors)
    case Qwerty => Expand(QwertyColors)
    case DK => ExpandAll(Black)
    case Sym => ExpandAll(Black)
    case SymQwerty => Expand(SymQwertyColors)
    case Nav => Expand(NavColors)
    case Media => Expand(MediaColors)
    case Fn => Expand(FnColors)
  }

  /** The DK and Sym layers light no LED of the matrix. */
  lemma DarkLayers()
    ensures forall i :: 0 <= i < LedCount ==> Ledmap(DK)[i] == Black && Ledmap(Sym)[i] == Black
  {
  }

  /**
   * What `rgb_matrix_set_color` is given for one LED: off, or a colour
   * that `hsv_to_rgb` converts and the matrix brightness dims.
   */
  datatype LedColor = Off | Lit(hsv: Hsv)

  /** The colour `set_layer_color` gives an LED whose ledmap entry is `hsv`: an all-zero entry turns it off. */
  function ColorOf(hsv: Hsv): (c: LedColor)
    ensures c == Off <==> hsv == Black
    ensures c != Off ==> c == Lit(hsv)
  {
    if hsv.h == 0 && hsv.s == 0 && hsv.v == 0 then Off else Lit(hsv)
  }

  /** LED 6 on the Fn layer: green while autocorrect is on, red while it is off. */
  function AutocorrectColor(autocorrect: bool): LedColor {
    Lit(if autocorrect then Green else Red)
  }

  /** The matrix once `set_layer_color(layer)` has run, Fn on or not. */
  predicate Shows(matrix: seq<LedColor>, layer: Layer, fnOn: bool, autocorrect: bool) {
    |matrix| == LedCount
    && (forall i :: 0 <= i < LedCount && !(fnOn && i == 6) ==> matrix[i] == ColorOf(Ledmap(layer)[i]))
    && (fnOn ==> matrix[6] == AutocorrectColor(autocorrect))
  }

  /** The LED indices `set_layer_color` writes, in order: each of them once, then LED 6 again on Fn. */
  function LayerColorWrites(fnOn: bool): seq<nat> {
    seq(LedCount, i => i) + (if fnOn then [6] else [])
  }

  /** The board's indicators and the unicode input mode the firmware keeps. */
  class Board {
    /** `ML_LED_1` … `ML_LED_6`, at indices 0 … 5. */
    var status: seq<bool>
    /** The colour each matrix LED was last given. */
    var matrix: seq<LedColor>
    /** The LED index of every `rgb_matrix_set_color` call so far. */
    var writes: seq<nat>
    /** The mode last passed to `set_unicode_input_mode`. */
    var inputMode: UnicodeMode

    predicate Valid()
      reads this
    {
      |status| == 6 && |matrix| == LedCount
    }

    constructor (mode0: UnicodeMode)
      ensures Valid() && inputMode == mode0 && writes == []
      ensures status == [false, false, false, false, false, false] && matrix == seq(LedCount, _ => Off)
    {
      status := [false, false, false, false, false, false];
      matrix := seq(LedCount, _ => Off);
      writes := [];
      inputMode := mode0;
    }

    /** `ML_LED_<k>(on)`. */
    method SetStatusLed(k: nat, on: bool)
      requires Valid() && 1 <= k <= 6
      modifies this
      ensures Valid() && status == old(status)[k - 1 := on]
      ensures matrix == old(matrix) && writes == old(writes) && inputMode == old(inputMode)
    {
      status := status[k - 1 := on];
    }

    /** `rgb_matrix_set_color(i, …)`. */
    method SetColor(i: nat, c: LedColor)
      requires Valid() && i < LedCount
      modifies this
      ensures Valid() && matrix == old(matrix)[i := c] && writes == old(writes) + [i]
      ensures status == old(status) && inputMode == old(inputMode)
    {
      matrix := matrix[i := c];
      writes := writes + [i];
    }

    /** `set_unicode_input_mode(mode)`. */
    method SetUnicodeInputMode(mode: UnicodeMode)
      modifies this
      ensures inputMode == mode
      ensures status == old(status) && matrix == old(matrix) && writes == old(writes)
    {
      inputMode := mode;
    }

    /** `set_led_for_input_mode`: LEDs 4 to 6 are cleared, then lit for the mode. */
    method SetLedForInputMode(mode: UnicodeMode)
      requires Valid()
      modifies this
      ensures Valid() && status == old(status)[..3] + ModeLeds(mode)
      ensures matrix == old(matrix) && writes == old(writes) && inputMode == old(inputMode)
    {
      SetStatusLed(4, false);
      SetStatusLed(5, false);
      SetStatusLed(6, false);
      match mode {
        case ModeLinux =>
          SetStatusLed(4, true);
        case ModeWinCompose | ModeWindows =>
          SetStatusLed(5, true);
        case ModeMacos =>
          SetStatusLed(6, true);
        case _ =>
          SetStatusLed(4, true);
          SetStatusLed(5, true);
          SetStatusLed(6, true);
      }
    }

    /** `init_led_for_input_mode`: the mode for the detected host goes to the firmware and to LEDs 4 to 6. */
    method InitLedForInputMode(os: HostOs)
      requires Valid()
      modifies this
      ensures Valid() && inputMode == InputModeFor(os) && status == old(status)[..3] + ModeLeds(InputModeFor(os))
      ensures matrix == old(matrix) && writes == old(writes)
    {
      var mode: UnicodeMode;
      match os {
        case OsUnsure | OsLinux =>
          mode := ModeLinux;
        case OsWindows =>
          mode := ModeWinCompose;
        case OsMacos | OsIos =>
          mode := ModeMacos;
      }
      SetUnicodeInputMode(mode);
      SetLedForInputMode(mode);
    }

    /** The loop of `set_layer_color`: LED `i` gets the colour of entry `i`, for every index in order. */
    method PaintLayer(colors: seq<Hsv>)
      requires Valid() && |colors| == LedCount
      modifies this
      ensures Valid() && forall j :: 0 <= j < LedCount ==> matrix[j] == ColorOf(colors[j])
      ensures writes == old(writes) + seq(LedCount, j => j)
      ensures status == old(status) && inputMode == old(inputMode)
    {
      for i := 0 to LedCount
        invariant Valid() && status == old(status) && inputMode == old(inputMode)
        invariant forall j :: 0 <= j < i ==> matrix[j] == ColorOf(colors[j])
        invariant writes == old(writes) + seq(i, j => j)
      {
        var hsv := colors[i];
        if hsv.h == 0 && hsv.s == 0 && hsv.v == 0 {
          SetColor(i, Off);
        } else {
          SetColor(i, Lit(hsv));
        }
        assert seq(i + 1, j => j) == seq(i, j => j) + [i];
      }
    }

    /**
     * `set_layer_color`: every LED gets its ledmap colour for the layer, in
     * index order; on the Fn layer LED 6 then shows whether autocorrect is on.
     */
    method SetLayerColor(layer: Layer, fnOn: bool, autocorrect: bool)
      requires Valid()
      modifies this
      ensures Valid() && Shows(matrix, layer, fnOn, autocorrect)
      ensures writes == old(writes) + LayerColorWrites(fnOn)
      ensures status == old(status) && inputMode == old(inputMode)
    {
      PaintLayer(Ledmap(layer));
      if fnOn {
        SetColor(6, AutocorrectColor(autocorrect));
      }
    }

    /** The `switch (layer)` of `rgb_matrix_indicators_user`: LEDs 1 to 3 are cleared, then lit for the layer. */
    method ShowLayerNumber(top: nat)
      requires Valid()
      modifies this
      ensures Valid() && status == LayerLeds(top) + old(status)[3..]
      ensures matrix == old(matrix) && writes == old(writes) && inputMode == old(inputMode)
    {
      SetStatusLed(1, false);
      SetStatusLed(2, false);
      SetStatusLed(3, false);
      match top {
        case 0 =>
          SetStatusLed(1, true);
        case 1 =>
          SetStatusLed(2, true);
        case 2 =>
          SetStatusLed(1, true);
          SetStatusLed(2, true);
        case 3 =>
          SetStatusLed(3, true);
        case 4 =>
          SetStatusLed(1, true);
          SetStatusLed(3, true);
        case 5 =>
          SetStatusLed(2, true);
          SetStatusLed(3, true);
        case 6 =>
          SetStatusLed(1, true);
          SetStatusLed(2, true);
          SetStatusLed(3, true);
        case _ =>
      }
    }

    /**
     * `rgb_matrix_indicators_user`: nothing when layer LEDs are disabled;
     * otherwise the matrix shows the top layer's colours and LEDs 1 to 3
     * show its number.
     */
    method RgbMatrixIndicatorsUser(kb: Keyboard, disabled: bool, autocorrect: bool) returns (r: bool)
      requires Valid() && Declared(kb.layers)
      modifies this
      ensures Valid() && inputMode == old(inputMode)
      ensures disabled ==> !r && status == old(status) && matrix == old(matrix) && writes == old(writes)
      ensures !disabled ==>
        var top := TopLayer(kb.layers);
        var fnOn := IsLayerOn(kb.layers, LayerIndex(Fn));
        top <= 7 && r && status == LayerLeds(top) + old(status)[3..]
        && Shows(matrix, LayerAt(top), fnOn, autocorrect) && writes == old(writes) + LayerColorWrites(fnOn)
    {
      if disabled {
        return false;
      }
      var top := TopLayer(kb.layers);
      TopLayerOfDeclared(kb.layers);
      SetLayerColor(LayerAt(top), IsLayerOn(kb.layers, LayerIndex(Fn)), autocorrect);
      ShowLayerNumber(top);
      return true;
    }
  }

  /** `housekeeping_task_user`, with `is_transport_connected()` as `connected`. */
  method HousekeepingTaskUser(kb: Keyboard, connected: bool)
    modifies kb
    ensures kb.layers == AfterHousekeeping(old(kb.layers), connected)
    ensures kb.mods == old(kb.mods) && kb.trace == old(kb.trace)
  {
    if !IsLayerOn(kb.layers, LayerIndex(Qwerty)) {
      if !connected {
        kb.LayerMove(LayerIndex(Qwerty));
      }
    }
  }
}
