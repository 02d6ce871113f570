/**
 * What each step of the generator of scripts/gen_keymap.py does to its
 * tables (aliases, key overrides, custom keys) and to the layer being
 * filled: the state transitions the methods of class `Gen` are proved
 * against, and what they keep.
 */
module GenRules {
  import opened Wrappers
  import opened Text
  import opened KeyCodes
  import opened Layers

  /** A key override: in mode m, shift turns kc into skc (`Override`). */
  datatype KeyOverride = KeyOverride(m: Mode, n: string, kc: KeyCode, skc: KeyCode)

  /**
   * The fields of `Gen` that the generation fills: `unicode_to_idx`, the
   * entries of the unicode map, `override`, `aliases` and `custom_keys`.
   */
  datatype Tables = Tables(
    unicodeToIdx: map<int, string>,
    unicodeMap: seq<(string, int)>,
    overrides: map<Mode, map<string, KeyOverride>>,
    aliases: map<string, KeyCode>,
    customKeys: map<Mode, map<string, (KeyCode, KeyCode)>>)

  /** The exceptions the generator raises, by their messages. */
  const ConflictForAlias: Error := Raised("conflict for alias")
  const CustomKeyNotUnicode: Error := Raised("a custom key must be mapped to an unicode keycode")
  const CustomKeyWithFunction: Error :=
    Raised("custom keycode cannot be created with keycode using special function")

  /** `d[m][name] = v` on a `defaultdict(dict)`. */
  function Put<V>(d: map<Mode, map<string, V>>, m: Mode, name: string, v: V): map<Mode, map<string, V>> {
    d[m := (if m in d then d[m] else map[])[name := v]]
  }

  /** The name a mode gives to what it derives from a key: `f"{m.name}_{name}"`. */
  function ModeKeyName(m: Mode, name: string): string {
    ModeName(m) + "_" + name
  }

  /** `unicode_to_idx[k]`: the index name of a code-point keycode, a KeyError otherwise. */
  function IdxOf(t: Tables, k: KeyCode): Result<string> {
    match Kc(k)
    case Int(i) => if i in t.unicodeToIdx then Ok(t.unicodeToIdx[i]) else Err(KeyError)
    case Str(_) => Err(KeyError)
  }

  /** `KeyCode(f"UM({unicode_to_idx[k]})")`. */
  function UnicodeKey(t: Tables, k: KeyCode): Result<KeyCode> {
    match IdxOf(t, k)
    case Err(e) => Err(e)
    case Ok(i) => MakeKeyCode(Str("UM(" + i + ")"))
  }

  /** `KeyCode("UP({}, {})".format(unicode_to_idx[kc], unicode_to_idx[skc]))`. */
  function UnicodePairKey(t: Tables, kc: KeyCode, skc: KeyCode): Result<KeyCode> {
    match IdxOf(t, kc)
    case Err(e) => Err(e)
    case Ok(a) =>
      match IdxOf(t, skc)
      case Err(e) => Err(e)
      case Ok(b) => MakeKeyCode(Str("UP(" + a + ", " + b + ")"))
  }

  // ---------------------------------------------------------------------
  // `_alias`

  /**
   * `Gen._alias`: an existing alias is looked up first; its truth value is
   * its length, which a code point does not have.  A present, non-empty
   * alias must be equal to the new value, and the keycode of the name is
   * returned; any other case records the value under the name.
   */
  function AliasOn(t: Tables, name: string, value: KeyCode): (Tables, Result<KeyCode>) {
    var stored := (t.(aliases := t.aliases[name := value]), MakeKeyCode(Str(name)));
    if name !in t.aliases then stored
    else
      match Len(t.aliases[name])
      case Err(e) => (t, Err(e))
      case Ok(n) =>
        if n == 0 then stored
        else if !Same(t.aliases[name], value) then (t, Err(ConflictForAlias))
        else (t, MakeKeyCode(Str(name)))
  }

  /** The first registration of a name stores it and returns the keycode of the name. */
  lemma AliasFirst(t: Tables, name: string, value: KeyCode)
    requires name !in t.aliases
    ensures AliasOn(t, name, value) == (t.(aliases := t.aliases[name := value]), MakeKeyCode(Str(name)))
  {
  }

  /** Registering an equal value again changes nothing and returns the keycode of the name. */
  lemma AliasAgain(t: Tables, name: string, value: KeyCode)
    requires name in t.aliases && Same(t.aliases[name], value) && Rendered(value) && Width(value) > 0
    ensures AliasOn(t, name, value) == (t, MakeKeyCode(Str(name)))
  {
  }

  /** Registering a different value raises and changes nothing. */
  lemma AliasConflict(t: Tables, name: string, value: KeyCode)
    requires name in t.aliases && Rendered(t.aliases[name]) && Width(t.aliases[name]) > 0
    requires !Same(t.aliases[name], value)
    ensures AliasOn(t, name, value) == (t, Err(ConflictForAlias))
  {
  }

  /**
   * A registered non-empty alias is never redefined, and nothing but the
   * alias table ever changes.
   */
  lemma AliasKeeps(t: Tables, name: string, value: KeyCode, a: string)
    requires a in t.aliases && Rendered(t.aliases[a]) && Width(t.aliases[a]) > 0
    ensures var t1 := AliasOn(t, name, value).0;
      a in t1.aliases && t1.aliases[a] == t.aliases[a] && t1.(aliases := t.aliases) == t
  {
  }

  // ---------------------------------------------------------------------
  // `_create_override` and `_create_custom_key`

  /**
   * `Gen._create_override`: a code-point shifted key is replaced by its
   * `UM(...)` keycode, a transparent one by the key itself; the override is
   * recorded under the mode and the name.
   */
  function CreateOverrideOn(t: Tables, m: Mode, name: string, kc: KeyCode, skc: KeyCode): (Tables, Result<KeyOverride>) {
    var shifted := if skc.raw.Int? then UnicodeKey(t, skc) else Ok(skc);
    match shifted
    case Err(e) => (t, Err(e))
    case Ok(s) =>
      var o := KeyOverride(m, name, kc, if IsTransparent(s) then kc else s);
      (t.(overrides := Put(t.overrides, m, name, o)), Ok(o))
  }

  /**
   * A created override is recorded under its mode and name, keeps kc, and
   * shifts to a key that is transparent only when kc is; a keycode-name
   * shifted key never fails.  Only the override table changes.
   */
  lemma CreateOverrideRecords(t: Tables, m: Mode, name: string, kc: KeyCode, skc: KeyCode)
    ensures var (t1, r) := CreateOverrideOn(t, m, name, kc, skc);
      (skc.raw.Str? ==> r.Ok?)
      && (r.Ok? ==>
            r.value.m == m && r.value.n == name && r.value.kc == kc
            && (IsTransparent(r.value.skc) ==> IsTransparent(kc))
            && (skc.raw.Str? && !IsTransparent(skc) ==> r.value.skc == skc)
            && m in t1.overrides && name in t1.overrides[m] && t1.overrides[m][name] == r.value
            && t1.(overrides := t.overrides) == t)
      && (r.Err? ==> t1 == t)
  {
  }

  /**
   * `Gen._create_custom_key`: only a code point can be the shifted side and
   * neither side may carry a function; the pair is recorded under
   * `<mode>_<name>`, whose keycode is returned (`KeyCode(custom_key_name)`,
   * a plain keycode by `ModeKeyNamePlain`).
   */
  function CreateCustomKeyOn(t: Tables, m: Mode, name: string, kc: KeyCode, skc: KeyCode): (Tables, Result<KeyCode>) {
    if !skc.raw.Int? then (t, Err(CustomKeyNotUnicode))
    else if kc.fn.Some? || skc.fn.Some? then
      (t, Err(CustomKeyWithFunction))
    else
      var cname := ModeKeyName(m, name);
      (t.(customKeys := Put(t.customKeys, m, cname, (kc, skc))), Ok(Plain(cname)))
  }

  /** The name a mode derives from a key is a plain keycode name. */
  lemma ModeKeyNamePlain(m: Mode, name: string)
    ensures MakeKeyCode(Str(ModeKeyName(m, name))) == Ok(Plain(ModeKeyName(m, name)))
  {
    var s := ModeKeyName(m, name);
    assert s[..|ModeName(m)|] == ModeName(m);
    assert s[0] == ModeName(m)[0] && s[1] == (ModeName(m) + "_")[1];
    MakePlain(s);
  }

  /**
   * A custom key is created exactly when the shifted side is a code point
   * and neither side carries a function; it is then recorded under
   * `<mode>_<name>` and that plain name is returned.
   */
  lemma CreateCustomKeyRecords(t: Tables, m: Mode, name: string, kc: KeyCode, skc: KeyCode)
    ensures var (t1, r) := CreateCustomKeyOn(t, m, name, kc, skc);
      (r.Ok? <==> skc.raw.Int? && kc.fn.None? && skc.fn.None?)
      && (r.Ok? ==>
            var cname := ModeKeyName(m, name);
            r.value == Plain(cname)
            && m in t1.customKeys && cname in t1.customKeys[m] && t1.customKeys[m][cname] == (kc, skc)
            && t1.(customKeys := t.customKeys) == t)
      && (r.Err? ==> t1 == t)
  {
    ModeKeyNamePlain(m, name);
  }

  // ---------------------------------------------------------------------
  // `_gen_kc`

  /**
   * `Gen._gen_kc`: the keycode a mode's layer gets for a (kc, skc) pair.
   * Default keeps kc, except that a code point becomes an alias of its
   * `UM(...)` keycode; a custom key is created for CustomKey; Override
   * records a key override and keeps kc; UnicodeMap aliases the `UP(...)`
   * pair.
   */
  function GenKcOn(t: Tables, m: Mode, name: string, kc: KeyCode, skc: KeyCode): (Tables, Result<KeyCode>) {
    match GetShiftMode(kc, skc)
    case Default =>
      if kc.raw.Int? then
        match UnicodeKey(t, kc)
        case Err(e) => (t, Err(e))
        case Ok(v) => AliasOn(t, ModeKeyName(m, name), v)
      else (t, Ok(kc))
    case CustomKey => CreateCustomKeyOn(t, m, name, kc, skc)
    case Override =>
      var (t1, o) := CreateOverrideOn(t, m, name, kc, skc);
      (t1, if o.Err? then Err(o.error) else Ok(kc))
    case UnicodeMap =>
      match UnicodePairKey(t, kc, skc)
      case Err(e) => (t, Err(e))
      case Ok(v) => AliasOn(t, ModeKeyName(m, name), v)
  }

  /**
   * The keycode `_gen_kc` places: kc itself unless shift needs something
   * the firmware cannot do with a key override; for Override the override
   * maps exactly kc to skc.
   */
  lemma GenKcResult(t: Tables, m: Mode, name: string, kc: KeyCode, skc: KeyCode)
    ensures var (t1, r) := GenKcOn(t, m, name, kc, skc);
      (GetShiftMode(kc, skc) == Default && kc.raw.Str? ==> t1 == t && r == Ok(kc))
      && (GetShiftMode(kc, skc) == Override ==>
            r == Ok(kc) && m in t1.overrides && name in t1.overrides[m]
            && t1.overrides[m][name] == KeyOverride(m, name, kc, if IsTransparent(skc) then kc else skc))
      && (GetShiftMode(kc, skc) == CustomKey && r.Ok? ==> r.value == Plain(ModeKeyName(m, name)))
  {
    if GetShiftMode(kc, skc) == Override {
      CreateOverrideRecords(t, m, name, kc, skc);
    }
    if GetShiftMode(kc, skc) == CustomKey {
      CreateCustomKeyRecords(t, m, name, kc, skc);
    }
  }

  /** What a step of the generation keeps: the unicode tables and the non-empty alias a. */
  predicate KeepsTables(t: Tables, t1: Tables, a: string)
    requires a in t.aliases
  {
    t1.unicodeToIdx == t.unicodeToIdx && t1.unicodeMap == t.unicodeMap
    && a in t1.aliases && t1.aliases[a] == t.aliases[a]
  }

  /** `_gen_kc` never changes the unicode index or the unicode map, and keeps every non-empty alias. */
  lemma GenKcKeeps(t: Tables, m: Mode, name: string, kc: KeyCode, skc: KeyCode, a: string)
    requires a in t.aliases && Rendered(t.aliases[a]) && Width(t.aliases[a]) > 0
    ensures KeepsTables(t, GenKcOn(t, m, name, kc, skc).0, a)
  {
    var t1 := GenKcOn(t, m, name, kc, skc).0;
    match GetShiftMode(kc, skc)
    case Default =>
      if kc.raw.Int? && UnicodeKey(t, kc).Ok? {
        assert t1 == AliasOn(t, ModeKeyName(m, name), UnicodeKey(t, kc).value).0;
        AliasKeeps(t, ModeKeyName(m, name), UnicodeKey(t, kc).value, a);
      } else {
        assert t1 == t;
      }
    case CustomKey =>
      assert t1 == CreateCustomKeyOn(t, m, name, kc, skc).0;
      CreateCustomKeyRecords(t, m, name, kc, skc);
    case Override =>
      assert t1 == CreateOverrideOn(t, m, name, kc, skc).0;
      CreateOverrideRecords(t, m, name, kc, skc);
    case UnicodeMap =>
      if UnicodePairKey(t, kc, skc).Ok? {
        assert t1 == AliasOn(t, ModeKeyName(m, name), UnicodePairKey(t, kc, skc).value).0;
        AliasKeeps(t, ModeKeyName(m, name), UnicodePairKey(t, kc, skc).value, a);
      } else {
        assert t1 == t;
      }
  }

  // ---------------------------------------------------------------------
  // `_gen`

  /** `self.keys.get(name)` on the key table, in table order. */
  function Lookup(keys: seq<(string, Key)>, name: string): Option<Key> {
    if keys == [] then None
    else if keys[0].0 == name then Some(keys[0].1)
    else Lookup(keys[1..], name)
  }

  /** The table entry of a base-layer keycode, looked up by its raw keycode. */
  function EntryOf(keys: seq<(string, Key)>, n: KeyCode): Option<Key> {
    if n.raw.Str? then Lookup(keys, n.raw.s) else None
  }

  /**
   * The keycode `_gen` derives from a base key with a table entry: the
   * base keycode, without its function outside the base mode, with the
   * mode's unshifted raw keycode in place of its own.
   */
  function Derived(n: KeyCode, m: Mode, rkc: Raw): KeyCode {
    var kc := if m != Base && n.fn.Some? then n.(fn := None) else n;
    kc.(raw := rkc)
  }

  /**
   * One iteration of `_gen`: a base key without a table entry is copied into
   * the base layer only; one with an entry gets the keycode `_gen_kc`
   * derives, set at its position.
   */
  function GenStep(keys: seq<(string, Key)>, t: Tables, st: LayerState, m: Mode, e: (KeyCode, Coord))
    : (Tables, LayerState, Outcome)
  {
    var (n, coord) := e;
    match EntryOf(keys, n)
    case None =>
      if m == Base then
        var (st1, o) := SetKeyOn(st, coord, n);
        (t, st1, o)
      else (t, st, Pass)
    case Some(key) =>
      var (rkc, rskc) := GetKc(key, m);
      match MakeKeyCode(rskc)
      case Err(e) => (t, st, Fail(e))
      case Ok(skc) =>
        var (t1, f) := GenKcOn(t, m, n.raw.s, Derived(n, m, rkc), skc);
        match f
        case Err(e) => (t1, st, Fail(e))
        case Ok(k) =>
          var (st1, o) := SetKeyOn(st, coord, k);
          (t1, st1, o)
  }

  /** The loop of `_gen` over the base keys, stopping at the first exception. */
  function GenSteps(keys: seq<(string, Key)>, t: Tables, st: LayerState, m: Mode, es: seq<(KeyCode, Coord)>)
    : (Tables, LayerState, Outcome)
  {
    if es == [] then (t, st, Pass)
    else
      var (t1, st1, o1) := GenSteps(keys, t, st, m, es[..|es| - 1]);
      if o1.Fail? then (t1, st1, o1) else GenStep(keys, t1, st1, m, es[|es| - 1])
  }

  /** One iteration keeps the layer's invariant, the unicode tables and every non-empty alias. */
  lemma GenStepKeeps(keys: seq<(string, Key)>, t: Tables, st: LayerState, m: Mode, e: (KeyCode, Coord), a: string)
    requires Valid(st)
    requires a in t.aliases && Rendered(t.aliases[a]) && Width(t.aliases[a]) > 0
    ensures var (t1, st1, _) := GenStep(keys, t, st, m, e);
      Valid(st1) && t1.unicodeToIdx == t.unicodeToIdx && t1.unicodeMap == t.unicodeMap
      && a in t1.aliases && t1.aliases[a] == t.aliases[a]
  {
    var (n, coord) := e;
    match EntryOf(keys, n)
    case None =>
      SetKeyValid(st, coord, n);
    case Some(key) =>
      var (rkc, rskc) := GetKc(key, m);
      if MakeKeyCode(rskc).Ok? {
        var skc := MakeKeyCode(rskc).value;
        GenKcKeeps(t, m, n.raw.s, Derived(n, m, rkc), skc, a);
        var f := GenKcOn(t, m, n.raw.s, Derived(n, m, rkc), skc).1;
        if f.Ok? {
          SetKeyValid(st, coord, f.value);
        }
      }
  }

  /**
   * Filling a layer keeps its invariant (every cell fits `max_length`, a
   * layer without keys is transparent), never touches the unicode tables
   * and never redefines an alias.
   */
  lemma {:induction false} GenStepsKeep(keys: seq<(string, Key)>, t: Tables, st: LayerState, m: Mode,
                                        es: seq<(KeyCode, Coord)>, a: string)
    requires Valid(st)
    requires a in t.aliases && Rendered(t.aliases[a]) && Width(t.aliases[a]) > 0
    ensures var (t1, st1, _) := GenSteps(keys, t, st, m, es);
      Valid(st1) && t1.unicodeToIdx == t.unicodeToIdx && t1.unicodeMap == t.unicodeMap
      && a in t1.aliases && t1.aliases[a] == t.aliases[a]
  {
    if es != [] {
      GenStepsKeep(keys, t, st, m, es[..|es| - 1], a);
      var (t1, st1, o1) := GenSteps(keys, t, st, m, es[..|es| - 1]);
      if o1.Pass? {
        GenStepKeeps(keys, t1, st1, m, es[|es| - 1], a);
      }
    }
  }

  /** Outside the base mode, a base key without a table entry leaves everything as it is. */
  lemma GenStepSkips(keys: seq<(string, Key)>, t: Tables, st: LayerState, m: Mode, e: (KeyCode, Coord))
    requires m != Base && EntryOf(keys, e.0).None?
    ensures GenStep(keys, t, st, m, e) == (t, st, Pass)
  {
  }

  /** The loop so far, one more base key done. */
  lemma GenStepsSnoc(keys: seq<(string, Key)>, t: Tables, st: LayerState, m: Mode, es: seq<(KeyCode, Coord)>, i: nat)
    requires i < |es|
    ensures var (t1, st1, o1) := GenSteps(keys, t, st, m, es[..i]);
      GenSteps(keys, t, st, m, es[..i + 1]) == if o1.Fail? then (t1, st1, o1) else GenStep(keys, t1, st1, m, es[i])
  {
    assert es[..i + 1][..i] == es[..i];
  }

  /** Once an iteration raises, the rest of the loop does not run. */
  lemma {:induction false} GenStepsStops(keys: seq<(string, Key)>, t: Tables, st: LayerState, m: Mode,
                                         es: seq<(KeyCode, Coord)>, n: nat)
    requires n <= |es| && GenSteps(keys, t, st, m, es[..n]).2.Fail?
    ensures GenSteps(keys, t, st, m, es) == GenSteps(keys, t, st, m, es[..n])
    decreases |es| - n
  {
    if n < |es| {
      GenStepsSnoc(keys, t, st, m, es, n);
      GenStepsStops(keys, t, st, m, es, n + 1);
    } else {
      assert es[..n] == es;
    }
  }
}
