/**
 * The generator of scripts/gen_keymap.py (class `Gen`): the unicode table,
 * the aliases, key overrides and custom keys, and the filling of each mode's
 * layer from the base layout and the key table.
 */
module Generator {
  import opened Wrappers
  import opened KeyCodes
  import opened Layers
  import opened LayoutText
  import opened Keymaps
  import opened UnicodeTable
  import opened GenRules

  const BaseNotBasic: Error := Raised("At the moment base keymaps need to be basic")

  /** `_check`: every entry of the key table is a keycode name in the base mode. */
  predicate BasicKeys(keys: seq<(string, Key)>) {
    forall i :: 0 <= i < |keys| ==> IsBasicIn(keys[i].1, Base)
  }

  /** `Gen._check`. */
  method CheckKeys(keys: seq<(string, Key)>) returns (r: Outcome)
    ensures r == Pass <==> BasicKeys(keys)
    ensures r.Fail? ==> r.error == BaseNotBasic
  {
    var i := 0;
    while i < |keys|
      invariant 0 <= i <= |keys|
      invariant forall k :: 0 <= k < i ==> IsBasicIn(keys[k].1, Base)
    {
      if !GetKc(keys[i].1, Base).0.Str? {
        return Fail(BaseNotBasic);
      }
      i := i + 1;
    }
    return Pass;
  }

  /**
   * `_gen(m)` on values: the mode's layer state (a transparent one when
   * the mode has none yet) filled over the base keys; no other mode's
   * layer changes.
   */
  function ModeStep(keys: seq<(string, Key)>, t: Tables, sts: map<Mode, LayerState>, blank: Grid, base: Grid, m: Mode)
    : (Tables, map<Mode, LayerState>, Outcome)
  {
    var st0 := if m in sts then sts[m] else InitialState(blank);
    var (t1, st1, o) := GenSteps(keys, t, st0, m, BaseKeys(base));
    (t1, sts[m := st1], o)
  }

  /** `for m in ms: self._gen(m)` on values; the first exception stops the loop. */
  function ModeSteps(keys: seq<(string, Key)>, t: Tables, sts: map<Mode, LayerState>, blank: Grid, base: Grid,
                     ms: seq<Mode>): (Tables, map<Mode, LayerState>, Outcome)
  {
    if ms == [] then (t, sts, Pass)
    else
      var (t1, sts1, o1) := ModeSteps(keys, t, sts, blank, base, ms[..|ms| - 1]);
      if o1.Fail? then (t1, sts1, o1) else ModeStep(keys, t1, sts1, blank, base, ms[|ms| - 1])
  }

  /**
   * The loop gives layers only to the modes it visits, leaves the layer
   * of every mode it does not visit as it was, and on success has given
   * every visited mode a layer.
   */
  lemma {:induction false} ModeStepsFrame(keys: seq<(string, Key)>, t: Tables, sts: map<Mode, LayerState>,
                                          blank: Grid, base: Grid, ms: seq<Mode>)
    ensures var (_, sts1, o) := ModeSteps(keys, t, sts, blank, base, ms);
      && sts.Keys <= sts1.Keys <= sts.Keys + (set m | m in ms)
      && (forall k :: k in sts && k !in ms ==> sts1[k] == sts[k])
      && (o.Pass? ==> (set m | m in ms) <= sts1.Keys)
  {
    if ms != [] {
      var front := ms[..|ms| - 1];
      ModeStepsFrame(keys, t, sts, blank, base, front);
      assert ms == front + [ms[|ms| - 1]];
      assert forall k :: k in ms <==> k in front || k == ms[|ms| - 1];
    }
  }

  /** The loop so far, one more mode done. */
  lemma ModeStepsSnoc(keys: seq<(string, Key)>, t: Tables, sts: map<Mode, LayerState>, blank: Grid, base: Grid,
                      ms: seq<Mode>, i: nat)
    requires i < |ms|
    ensures var (t1, sts1, o1) := ModeSteps(keys, t, sts, blank, base, ms[..i]);
      ModeSteps(keys, t, sts, blank, base, ms[..i + 1])
      == if o1.Fail? then (t1, sts1, o1) else ModeStep(keys, t1, sts1, blank, base, ms[i])
  {
    assert ms[..i + 1][..i] == ms[..i];
  }

  /** One mode's step in terms of its layer's fill. */
  lemma ModeStepOf(keys: seq<(string, Key)>, t: Tables, sts: map<Mode, LayerState>, blank: Grid, base: Grid, m: Mode,
                   t1: Tables, st1: LayerState, o: Outcome)
    requires GenSteps(keys, t, if m in sts then sts[m] else InitialState(blank), m, BaseKeys(base)) == (t1, st1, o)
    ensures ModeStep(keys, t, sts, blank, base, m) == (t1, sts[m := st1], o)
  {
  }

  /** After the modes before i passed, mode i's step is the loop's next step. */
  lemma ModeStepsNext(keys: seq<(string, Key)>, t: Tables, sts: map<Mode, LayerState>, blank: Grid, base: Grid,
                      ms: seq<Mode>, i: nat, t1: Tables, sts1: map<Mode, LayerState>)
    requires i < |ms| && ModeSteps(keys, t, sts, blank, base, ms[..i]) == (t1, sts1, Pass)
    ensures ModeSteps(keys, t, sts, blank, base, ms[..i + 1]) == ModeStep(keys, t1, sts1, blank, base, ms[i])
  {
    ModeStepsSnoc(keys, t, sts, blank, base, ms, i);
  }

  /** Once a mode's generation raises, no later mode is generated. */
  lemma {:induction false} ModeStepsStops(keys: seq<(string, Key)>, t: Tables, sts: map<Mode, LayerState>,
                                          blank: Grid, base: Grid, ms: seq<Mode>, n: nat)
    requires n <= |ms| && ModeSteps(keys, t, sts, blank, base, ms[..n]).2.Fail?
    ensures ModeSteps(keys, t, sts, blank, base, ms) == ModeSteps(keys, t, sts, blank, base, ms[..n])
    decreases |ms| - n
  {
    if n < |ms| {
      ModeStepsSnoc(keys, t, sts, blank, base, ms, n);
      ModeStepsStops(keys, t, sts, blank, base, ms, n + 1);
    } else {
      assert ms[..n] == ms;
    }
  }

  /**
   * A generator for a key table (a dictionary, in the order of its
   * entries) and the layers of a keyboard.  `unicodeName` stands for
   * `unicodedata.name`.
   */
  class Gen {
    const keys: seq<(string, Key)>
    const keymaps: Keymaps
    const unicodeName: NameOf
    var unicodeToIdx: map<int, string>
    var unicodeMap: seq<(string, int)>
    var overrides: map<Mode, map<string, KeyOverride>>
    var aliases: map<string, KeyCode>
    var customKeys: map<Mode, map<string, (KeyCode, KeyCode)>>

    function Current(): Tables
      reads this
    {
      Tables(unicodeToIdx, unicodeMap, overrides, aliases, customKeys)
    }

    /** `Gen.__init__` once `_check` has passed: every table starts empty. */
    constructor (keys0: seq<(string, Key)>, kms: Keymaps, name: NameOf)
      requires BasicKeys(keys0)
      ensures keys == keys0 && keymaps == kms && unicodeName == name
      ensures Current() == Tables(map[], [], map[], map[], map[])
    {
      keys := keys0;
      keymaps := kms;
      unicodeName := name;
      unicodeToIdx := map[];
      unicodeMap := [];
      overrides := map[];
      aliases := map[];
      customKeys := map[];
    }

    /** `Gen.__init__`, which raises when `_check` does. */
    static method New(keys0: seq<(string, Key)>, kms: Keymaps, name: NameOf) returns (r: Result<Gen>)
      ensures r.Ok? <==> BasicKeys(keys0)
      ensures r.Ok? ==> fresh(r.value) && r.value.keys == keys0 && r.value.keymaps == kms
                        && r.value.unicodeName == name && r.value.Current() == Tables(map[], [], map[], map[], map[])
    {
      var c := CheckKeys(keys0);
      if c.Fail? {
        return Err(c.error);
      }
      var g := new Gen(keys0, kms, name);
      return Ok(g);
    }

    // -------------------------------------------------------------------
    // `_gen_unicode_map`

    /** The body of `for k in (kc, skc)`, on the loop's `already_gen` and entries. */
    method Record(seen0: set<int>, entries0: seq<(string, int)>, k: KeyCode)
      returns (seen: set<int>, entries: seq<(string, int)>, o: Outcome)
      modifies this
      ensures (UState(seen, entries, unicodeToIdx), o)
              == Visit(UState(seen0, entries0, old(unicodeToIdx)), k, unicodeName)
      ensures unicodeMap == old(unicodeMap) && overrides == old(overrides)
              && aliases == old(aliases) && customKeys == old(customKeys)
    {
      seen, entries, o := seen0, entries0, Pass;
      if !k.raw.Int? || k.raw.i in seen {
        return;
      }
      var cp := k.raw.i;
      seen := seen + {cp};
      var n := unicodeName(cp);
      if n.None? {
        o := Fail(ValueError);
        return;
      }
      var ix := Sanitize(n.value);
      unicodeToIdx := unicodeToIdx[cp := ix];
      entries := entries + [(ix, cp)];
    }

    /** One (kc, skc) pair: both keycodes are built, then visited in turn. */
    method RecordPair(seen0: set<int>, entries0: seq<(string, int)>, p: (Raw, Raw))
      returns (seen: set<int>, entries: seq<(string, int)>, o: Outcome)
      modifies this
      ensures (UState(seen, entries, unicodeToIdx), o)
              == VisitPair(UState(seen0, entries0, old(unicodeToIdx)), p, unicodeName)
      ensures unicodeMap == old(unicodeMap) && overrides == old(overrides)
              && aliases == old(aliases) && customKeys == old(customKeys)
    {
      seen, entries := seen0, entries0;
      var kc := MakeKeyCode(p.0);
      if kc.Err? {
        return seen, entries, Fail(kc.error);
      }
      var skc := MakeKeyCode(p.1);
      if skc.Err? {
        return seen, entries, Fail(skc.error);
      }
      seen, entries, o := Record(seen, entries, kc.value);
      if o.Pass? {
        seen, entries, o := Record(seen, entries, skc.value);
      }
    }

    /** `for m in Mode` for one key. */
    method RecordModes(seen0: set<int>, entries0: seq<(string, int)>, key: Key)
      returns (seen: set<int>, entries: seq<(string, int)>, o: Outcome)
      modifies this
      ensures (UState(seen, entries, unicodeToIdx), o)
              == Walk(UState(seen0, entries0, old(unicodeToIdx)), ModePairs(key, AllModes), unicodeName)
      ensures unicodeMap == old(unicodeMap) && overrides == old(overrides)
              && aliases == old(aliases) && customKeys == old(customKeys)
    {
      seen, entries := seen0, entries0;
      ghost var st0 := UState(seen0, entries0, unicodeToIdx);
      var j := 0;
      while j < |AllModes|
        invariant 0 <= j <= |AllModes|
        invariant Walk(st0, ModePairs(key, AllModes[..j]), unicodeName) == (UState(seen, entries, unicodeToIdx), Pass)
        invariant unicodeMap == old(unicodeMap) && overrides == old(overrides)
                  && aliases == old(aliases) && customKeys == old(customKeys)
      {
        ModeWalkStep(st0, key, j, unicodeName);
        seen, entries, o := RecordPair(seen, entries, GetKc(key, AllModes[j]));
        if o.Fail? {
          ModeWalkStops(st0, key, j, unicodeName);
          return;
        }
        j := j + 1;
      }
      assert AllModes[..j] == AllModes;
      o := Pass;
    }

    /**
     * `Gen._gen_unicode_map`: visits every (kc, skc) pair of every key in
     * every mode.  The index is updated as code points are met; the table
     * is kept only when the whole walk completes.
     */
    method GenUnicodeMap() returns (r: Outcome)
      modifies this
      ensures var (st, o) := Walk(UState({}, [], old(unicodeToIdx)), KeyPairs(keys), unicodeName);
        r == o && unicodeToIdx == st.idx && unicodeMap == (if o.Pass? then st.entries else old(unicodeMap))
      ensures overrides == old(overrides) && aliases == old(aliases) && customKeys == old(customKeys)
    {
      var seen: set<int> := {};
      var entries: seq<(string, int)> := [];
      ghost var st0 := UState({}, [], unicodeToIdx);
      var i := 0;
      while i < |keys|
        invariant 0 <= i <= |keys|
        invariant Walk(st0, KeyPairs(keys[..i]), unicodeName) == (UState(seen, entries, unicodeToIdx), Pass)
        invariant unicodeMap == old(unicodeMap) && overrides == old(overrides)
                  && aliases == old(aliases) && customKeys == old(customKeys)
      {
        KeyWalkStep(st0, keys, i, unicodeName);
        var o;
        seen, entries, o := RecordModes(seen, entries, keys[i].1);
        if o.Fail? {
          KeyWalkStops(st0, keys, i, unicodeName);
          return o;
        }
        i := i + 1;
      }
      assert keys[..i] == keys;
      unicodeMap := entries;
      return Pass;
    }

    // -------------------------------------------------------------------
    // Aliases, overrides and custom keys.

    /** `Gen._alias`, returning the keycode of the name. */
    method Alias(name: string, value: KeyCode) returns (r: Result<KeyCode>)
      modifies this
      ensures (Current(), r) == AliasOn(old(Current()), name, value)
    {
      if name in aliases {
        var v := aliases[name];
        var n := Len(v);
        if n.Err? {
          return Err(n.error);
        }
        if n.value != 0 {
          if !Same(v, value) {
            return Err(ConflictForAlias);
          }
          return MakeKeyCode(Str(name));
        }
      }
      aliases := aliases[name := value];
      return MakeKeyCode(Str(name));
    }

    /** `Gen._create_override`. */
    method CreateOverride(m: Mode, name: string, kc: KeyCode, skc: KeyCode) returns (r: Result<KeyOverride>)
      modifies this
      ensures (Current(), r) == CreateOverrideOn(old(Current()), m, name, kc, skc)
    {
      var s := skc;
      if s.raw.Int? {
        var u := UnicodeKey(Current(), s);
        if u.Err? {
          return Err(u.error);
        }
        s := u.value;
      }
      if IsTransparent(s) {
        s := kc;
      }
      var o := KeyOverride(m, name, kc, s);
      overrides := Put(overrides, m, name, o);
      return Ok(o);
    }

    /** `Gen._create_custom_key`. */
    method CreateCustomKey(m: Mode, name: string, kc: KeyCode, skc: KeyCode) returns (r: Result<KeyCode>)
      modifies this
      ensures (Current(), r) == CreateCustomKeyOn(old(Current()), m, name, kc, skc)
    {
      if !skc.raw.Int? {
        return Err(CustomKeyNotUnicode);
      }
      if kc.fn.Some? || skc.fn.Some? {
        return Err(CustomKeyWithFunction);
      }
      var cname := ModeKeyName(m, name);
      customKeys := Put(customKeys, m, cname, (kc, skc));
      ModeKeyNamePlain(m, name);
      return MakeKeyCode(Str(cname));
    }

    /** `Gen._gen_kc`. */
    method GenKc(m: Mode, name: string, kc: KeyCode, skc: KeyCode) returns (r: Result<KeyCode>)
      modifies this
      ensures (Current(), r) == GenKcOn(old(Current()), m, name, kc, skc)
    {
      var aliasName := ModeKeyName(m, name);
      match GetShiftMode(kc, skc)
      case Default =>
        if kc.raw.Int? {
          var u := UnicodeKey(Current(), kc);
          if u.Err? {
            return Err(u.error);
          }
          r := Alias(aliasName, u.value);
        } else {
          r := Ok(kc);
        }
      case CustomKey =>
        r := CreateCustomKey(m, name, kc, skc);
      case Override =>
        var o := CreateOverride(m, name, kc, skc);
        r := if o.Err? then Err(o.error) else Ok(kc);
      case UnicodeMap =>
        var u := UnicodePairKey(Current(), kc, skc);
        if u.Err? {
          return Err(u.error);
        }
        r := Alias(aliasName, u.value);
    }

    // -------------------------------------------------------------------
    // `_gen`

    /** One iteration of the loop of `_gen`, on the mode's layer l. */
    method GenKey(l: Layer, m: Mode, e: (KeyCode, Coord)) returns (o: Outcome)
      modifies this, l
      ensures (Current(), l.State(), o) == GenStep(keys, old(Current()), old(l.State()), m, e)
    {
      var (n, coord) := e;
      var key := EntryOf(keys, n);
      if key.None? {
        o := Pass;
        if m == Base {
          o := l.SetKey(coord, n);
        }
        return;
      }
      var kc := n;
      if m != Base && kc.fn.Some? {
        kc := kc.(fn := None);
      }
      var (rkc, rskc) := GetKc(key.value, m);
      kc := kc.(raw := rkc);
      var skc := MakeKeyCode(rskc);
      if skc.Err? {
        return Fail(skc.error);
      }
      var f := GenKc(m, n.raw.s, kc, skc.value);
      if f.Err? {
        return Fail(f.error);
      }
      o := l.SetKey(coord, f.value);
    }

    /** The loop of `_gen` over the base keys es, on the mode's layer l. */
    method FillLayer(l: Layer, m: Mode, es: seq<(KeyCode, Coord)>) returns (r: Outcome)
      modifies this, l
      ensures (Current(), l.State(), r) == GenSteps(keys, old(Current()), old(l.State()), m, es)
    {
      ghost var t0, st0 := Current(), l.State();
      var i := 0;
      while i < |es|
        invariant 0 <= i <= |es|
        invariant (Current(), l.State(), Pass) == GenSteps(keys, t0, st0, m, es[..i])
      {
        GenStepsSnoc(keys, t0, st0, m, es, i);
        var o := GenKey(l, m, es[i]);
        if o.Fail? {
          GenStepsStops(keys, t0, st0, m, es, i + 1);
          return o;
        }
        i := i + 1;
      }
      assert es[..i] == es;
      return Pass;
    }

    /**
     * `Gen._gen`: gets (or creates, transparent) the mode's layer and sets
     * in it, for each base key in layout order, the keycode the mode
     * derives; the first exception stops the loop.  Only that layer
     * changes.
     */
    method GenLayer(m: Mode) returns (r: Outcome)
      requires WellParsed(keymaps.transparentLayer) && keymaps.Distinct()
      modifies this, keymaps, if m in keymaps.finalLayers then {keymaps.finalLayers[m]} else {}
      ensures keymaps.Distinct() && m in keymaps.finalLayers
      ensures keymaps.finalLayers == old(keymaps.finalLayers)[m := keymaps.finalLayers[m]]
      ensures keymaps.baseLayer == old(keymaps.baseLayer)
      ensures m in old(keymaps.finalLayers) ==> keymaps.finalLayers[m] == old(keymaps.finalLayers[m])
      ensures m !in old(keymaps.finalLayers) ==> fresh(keymaps.finalLayers[m])
      ensures forall l :: l in keymaps.finalLayers.Values ==> l in old(keymaps.finalLayers.Values) || fresh(l)
      ensures keymaps.States() == old(keymaps.States())[m := keymaps.finalLayers[m].State()]
      ensures var st0 := if m in old(keymaps.States()) then old(keymaps.States())[m]
                         else InitialState(keymaps.transparentLayer);
        (Current(), keymaps.finalLayers[m].State(), r)
        == GenSteps(keys, old(Current()), st0, m, BaseKeys(keymaps.baseLayer))
    {
      var a := keymaps.AddLayer(m, None);
      r := FillLayer(a.value, m, BaseKeys(keymaps.baseLayer));
      keymaps.StatesFrame(m, a.value);
    }

    // -------------------------------------------------------------------
    // `gen`

    /**
     * The modes listed in `enum layers` and in the keymap: those whose
     * layer has keys, in mode order (a layer's position in this list is
     * its number in the firmware).
     */
    function LayerNames(ms: seq<Mode>): (r: seq<Mode>)
      requires forall m :: m in ms ==> m in keymaps.finalLayers
      reads keymaps, keymaps.finalLayers.Values
    {
      if ms == [] then []
      else
        var m := ms[|ms| - 1];
        LayerNames(ms[..|ms| - 1]) + (if keymaps.finalLayers[m].hasKeys then [m] else [])
    }

    /** A mode is listed exactly when its layer has keys. */
    lemma {:induction false} LayerNamesListed(ms: seq<Mode>, m: Mode)
      requires forall m :: m in ms ==> m in keymaps.finalLayers
      ensures m in LayerNames(ms) <==> m in ms && keymaps.finalLayers[m].hasKeys
    {
      if ms != [] {
        LayerNamesListed(ms[..|ms| - 1], m);
        assert m in ms <==> m in ms[..|ms| - 1] || m == ms[|ms| - 1] by {
          assert ms == ms[..|ms| - 1] + [ms[|ms| - 1]];
        }
      }
    }

    /** `_gen` on the layer states of all modes, as `gen` relies on it. */
    method GenMode(m: Mode) returns (r: Outcome)
      requires WellParsed(keymaps.transparentLayer) && keymaps.Distinct()
      modifies this, keymaps, if m in keymaps.finalLayers then {keymaps.finalLayers[m]} else {}
      ensures keymaps.Distinct() && keymaps.baseLayer == old(keymaps.baseLayer)
      ensures keymaps.finalLayers.Keys == old(keymaps.finalLayers.Keys) + {m}
      ensures forall l :: l in keymaps.finalLayers.Values ==> l in old(keymaps.finalLayers.Values) || fresh(l)
      ensures (Current(), keymaps.States(), r)
              == ModeStep(keys, old(Current()), old(keymaps.States()), keymaps.transparentLayer, keymaps.baseLayer, m)
    {
      ghost var t0, sts0 := Current(), keymaps.States();
      r := GenLayer(m);
      ModeStepOf(keys, t0, sts0, keymaps.transparentLayer, keymaps.baseLayer, m,
                 Current(), keymaps.finalLayers[m].State(), r);
    }

    /**
     * The generation steps of `Gen.gen`: the unicode table, then each
     * mode's layer in mode order; on success every mode has a layer, the
     * layers are those the loop over the modes computes from the tables
     * the unicode step left, and the listed layers are those with keys.
     * The C text assembled from the tables is not part of this model.
     */
    method Generate() returns (r: Result<seq<Mode>>)
      requires WellParsed(keymaps.transparentLayer) && keymaps.Distinct()
      modifies this, keymaps, keymaps.finalLayers.Values
      ensures r.Ok? ==> (forall m :: m in AllModes ==> m in keymaps.finalLayers) && r.value == LayerNames(AllModes)
      ensures r.Ok? ==>
        var (u, _) := Walk(UState({}, [], old(unicodeToIdx)), KeyPairs(keys), unicodeName);
        (Current(), keymaps.States(), Pass)
        == ModeSteps(keys, old(Current()).(unicodeToIdx := u.idx, unicodeMap := u.entries), old(keymaps.States()),
                     keymaps.transparentLayer, keymaps.baseLayer, AllModes)
    {
      ghost var t0 := Current();
      var u := GenUnicodeMap();
      if u.Fail? {
        return Err(u.error);
      }
      ghost var w := Walk(UState({}, [], t0.unicodeToIdx), KeyPairs(keys), unicodeName).0;
      assert Current() == t0.(unicodeToIdx := w.idx, unicodeMap := w.entries);
      var o := GenModes();
      if o.Fail? {
        return Err(o.error);
      }
      return Ok(LayerNames(AllModes));
    }

    /**
     * The loop `for m in Mode: self._gen(m)` of `gen`: the layer states
     * are those the loop computes on values, and on success every mode
     * has a layer.
     */
    method GenModes() returns (r: Outcome)
      requires WellParsed(keymaps.transparentLayer) && keymaps.Distinct()
      modifies this, keymaps, keymaps.finalLayers.Values
      ensures keymaps.Distinct() && keymaps.baseLayer == old(keymaps.baseLayer)
      ensures (Current(), keymaps.States(), r)
              == ModeSteps(keys, old(Current()), old(keymaps.States()), keymaps.transparentLayer, keymaps.baseLayer, AllModes)
      ensures r.Pass? ==> forall m :: m in AllModes ==> m in keymaps.finalLayers
    {
      ghost var t0, sts0 := Current(), keymaps.States();
      var i := 0;
      while i < |AllModes|
        invariant 0 <= i <= |AllModes|
        invariant keymaps.Distinct() && keymaps.baseLayer == old(keymaps.baseLayer)
        invariant (Current(), keymaps.States(), Pass)
                  == ModeSteps(keys, t0, sts0, keymaps.transparentLayer, keymaps.baseLayer, AllModes[..i])
        invariant forall l :: l in keymaps.finalLayers.Values ==> l in old(keymaps.finalLayers.Values) || fresh(l)
      {
        ModeStepsNext(keys, t0, sts0, keymaps.transparentLayer, keymaps.baseLayer, AllModes, i,
                      Current(), keymaps.States());
        var o := GenMode(AllModes[i]);
        if o.Fail? {
          ModeStepsStops(keys, t0, sts0, keymaps.transparentLayer, keymaps.baseLayer, AllModes, i + 1);
          return o;
        }
        i := i + 1;
      }
      assert AllModes[..i] == AllModes;
      ModeStepsFrame(keys, t0, sts0, keymaps.transparentLayer, keymaps.baseLayer, AllModes);
      forall m | m in AllModes
        ensures m in keymaps.finalLayers
      {
        assert m in (set x | x in AllModes);
        assert m in keymaps.States();
      }
      return Pass;
    }
  }
}
