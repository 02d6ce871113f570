/**
 * The firmware services the generated key handlers call: the modifier
 * state, key registration, unicode input and the layer state. The
 * firmware itself is not part of this model; its primitives are recorded
 * as actions on a trace, so that what a handler does can be read off the
 * trace it leaves.
 */
module Firmware {
  import opened Wrappers

  /** The eight modifier bits of a report, as `get_mods()` returns them. */
  type Mods = bv8

  /** `MOD_BIT(KC_LSFT)`. */
  const LeftShift: Mods := 0x02
  /** `MOD_MASK_SHIFT`: left shift or right shift. */
  const ModMaskShift: Mods := 0x22

  /** A 16-bit keycode, named by its C identifier (`KC_1`, `OSL(DK)`, `Base_EKC_1`). */
  type Keycode = string

  /** `(get_mods() & MOD_MASK_SHIFT) != 0`. */
  predicate Shifted(m: Mods) {
    m & ModMaskShift != 0
  }

  /** One call into the firmware that a handler makes. */
  datatype Action =
    | Register(kc: Keycode)                  // register_code16
    | Unregister(kc: Keycode)                // unregister_code16
    | SendUnicode(idx: nat, held: Mods)      // register_unicode(unicodemap_get_code_point(idx)), with the modifiers held then
    | WeakMods(weak: Mods)                   // add_weak_mods

  /**
   * `IS_LAYER_ON(l)`: the firmware compares against the layer state, and an
   * empty state counts as layer 0 being on.
   */
  predicate IsLayerOn(layers: set<nat>, l: nat) {
    if layers == {} then l == 0 else l in layers
  }

  /**
   * The keycode a handler is called with: one of the keymap's own
   * `custom_keycodes`, or any other keycode, named by its C identifier.
   */
  datatype KeyInput<C> = CustomKey(c: C) | OtherKey(code: Keycode)

  /**
   * What the `switch (keycode)` of a generated `process_record_user` does
   * with a keycode: `default: return true`, a `CKC_LMOVE_*` layer move, or
   * a custom key with its unshifted keycode `kc` and the `unicode_names`
   * enumerator `skc_idx` it sends when shifted.
   */
  datatype Intercept<L, U> = PassThrough | Move(layer: L) | Custom(kc: Keycode, skcIdx: U)

  /** The keys a trace leaves registered. */
  function Held(acts: seq<Action>): multiset<Keycode> {
    if acts == [] then multiset{}
    else
      var h := Held(acts[..|acts| - 1]);
      match acts[|acts| - 1]
      case Register(kc) => h + multiset{kc}
      case Unregister(kc) => h - multiset{kc}
      case _ => h
  }

  /** An action that is not a key registration leaves the held keys alone. */
  lemma HeldOfNoKey(acts: seq<Action>, a: Action)
    requires !a.Register? && !a.Unregister?
    ensures Held(acts + [a]) == Held(acts)
  {
    assert (acts + [a])[..|acts|] == acts;
  }

  /** Registering a key and unregistering it again leaves the held keys as they were. */
  lemma HeldRegisterUnregister(acts: seq<Action>, kc: Keycode)
    ensures Held(acts + [Register(kc), Unregister(kc)]) == Held(acts)
  {
    assert (acts + [Register(kc), Unregister(kc)])[..|acts| + 1] == acts + [Register(kc)];
    assert (acts + [Register(kc)])[..|acts|] == acts;
  }

  /**
   * What a handler returned (`true`: let the firmware go on processing the
   * key) and what it did.
   */
  datatype Effect = Effect(passOn: bool, actions: seq<Action>)

  /**
   * The tail every generated `process_record_user` shares, once the
   * switch has chosen `kc` and `skc_idx`: a shifted press sends the code
   * point at `skc_idx` with the modifiers cleared, a shifted release does
   * nothing, an unshifted press or release registers or unregisters `kc`.
   */
  function CustomKeyEffect(kc: Keycode, idx: nat, pressed: bool, shifted: bool): Effect {
    if shifted then
      if pressed then Effect(false, [SendUnicode(idx, 0)]) else Effect(true, [])
    else if pressed then Effect(true, [Register(kc)])
    else Effect(true, [Unregister(kc)])
  }

  /**
   * A shifted press stops the firmware, and the code point is sent while no
   * modifier is held, so that shift does not reach the host with it.
   */
  lemma ShiftedPressSendsBare(kc: Keycode, idx: nat)
    ensures var e := CustomKeyEffect(kc, idx, true, true);
      !e.passOn && (forall a :: a in e.actions ==> a.SendUnicode? && a.held == 0)
      && Held(e.actions) == multiset{}
  {
    assert CustomKeyEffect(kc, idx, true, true).actions == [SendUnicode(idx, 0)];
  }

  /**
   * A release registers nothing, and when the shift state is the same at
   * press and release, the release unregisters exactly the keys the press
   * left registered.
   */
  lemma CustomKeyBalanced(kc: Keycode, idx: nat, shifted: bool)
    ensures var press := CustomKeyEffect(kc, idx, true, shifted).actions;
      var release := CustomKeyEffect(kc, idx, false, shifted).actions;
      Held(press) == (if shifted then multiset{} else multiset{kc})
      && Held(press + release) == multiset{}
  {
    var press := CustomKeyEffect(kc, idx, true, shifted).actions;
    var release := CustomKeyEffect(kc, idx, false, shifted).actions;
    if shifted {
      assert press + release == [] + [SendUnicode(idx, 0)];
      HeldOfNoKey([], SendUnicode(idx, 0));
    } else {
      assert press + release == [] + [Register(kc), Unregister(kc)];
      HeldRegisterUnregister([], kc);
      assert press == [] + [Register(kc)];
    }
  }

  /**
   * The shift state is read again at release: a custom key pressed without
   * shift and released with shift held takes the shifted release path,
   * which does nothing, so its keycode stays registered.
   */
  lemma ShiftChangeLeavesKeyHeld(kc: Keycode, idx: nat)
    ensures var press := CustomKeyEffect(kc, idx, true, false).actions;
      var release := CustomKeyEffect(kc, idx, false, true).actions;
      release == [] && Held(press + release) == multiset{kc}
  {
    var press := CustomKeyEffect(kc, idx, true, false).actions;
    assert press + [] == [] + [Register(kc)];
  }

  /** The keyboard state the handlers read and change. */
  class Keyboard {
    /** The modifiers currently held. */
    var mods: Mods
    /** The layers currently on (`layer_state`). */
    var layers: set<nat>
    /** Every firmware call made so far. */
    var trace: seq<Action>

    constructor (mods0: Mods, layers0: set<nat>)
      ensures mods == mods0 && layers == layers0 && trace == []
    {
      mods := mods0;
      layers := layers0;
      trace := [];
    }

    method GetMods() returns (m: Mods)
      ensures m == mods
    {
      m := mods;
    }

    method ClearMods()
      modifies this
      ensures mods == 0 && layers == old(layers) && trace == old(trace)
    {
      mods := 0;
    }

    method SetMods(m: Mods)
      modifies this
      ensures mods == m && layers == old(layers) && trace == old(trace)
    {
      mods := m;
    }

    method AddWeakMods(m: Mods)
      modifies this
      ensures mods == old(mods) && layers == old(layers) && trace == old(trace) + [WeakMods(m)]
    {
      trace := trace + [WeakMods(m)];
    }

    method RegisterCode16(kc: Keycode)
      modifies this
      ensures mods == old(mods) && layers == old(layers) && trace == old(trace) + [Register(kc)]
    {
      trace := trace + [Register(kc)];
    }

    method UnregisterCode16(kc: Keycode)
      modifies this
      ensures mods == old(mods) && layers == old(layers) && trace == old(trace) + [Unregister(kc)]
    {
      trace := trace + [Unregister(kc)];
    }

    /** `register_unicode(unicodemap_get_code_point(idx))`. */
    method RegisterUnicodeAt(idx: nat)
      modifies this
      ensures mods == old(mods) && layers == old(layers) && trace == old(trace) + [SendUnicode(idx, mods)]
    {
      trace := trace + [SendUnicode(idx, mods)];
    }

    /** `layer_move(l)`: layer `l` becomes the only layer on. */
    method LayerMove(l: nat)
      modifies this
      ensures mods == old(mods) && layers == {l} && trace == old(trace)
    {
      layers := {l};
    }

    /**
     * The modifiers are saved, cleared, the code point is sent, and the
     * saved modifiers are put back.
     */
    method TapUnicode(idx: nat)
      modifies this
      ensures mods == old(mods) && layers == old(layers)
      ensures trace == old(trace) + [SendUnicode(idx, 0)]
    {
      var tempMod := GetMods();
      ClearMods();
      RegisterUnicodeAt(idx);
      SetMods(tempMod);
    }

    /** The `if (shifted) … else …` tail of a generated `process_record_user`. */
    method CustomKeyTail(kc: Keycode, idx: nat, pressed: bool, shifted: bool) returns (r: bool)
      modifies this
      ensures mods == old(mods) && layers == old(layers)
      ensures var e := CustomKeyEffect(kc, idx, pressed, shifted);
        r == e.passOn && trace == old(trace) + e.actions
    {
      if shifted {
        if pressed {
          TapUnicode(idx);
          return false;
        }
      } else {
        if pressed {
          RegisterCode16(kc);
        } else {
          UnregisterCode16(kc);
        }
      }
      return true;
    }
  }
}
