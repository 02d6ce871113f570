/**
 * Parsing a layout text into rows of keycodes and the set of generated
 * layers (class `Keymaps` of scripts/gen_keymap.py).
 */
module Keymaps {
  import opened Wrappers
  import opened Text
  import opened KeyCodes
  import opened Layers
  import opened LayoutText
  import opened LayoutFacts
  import opened LayoutParser

  // ---------------------------------------------------------------------

  /** The generated layers and the base layout (class `Keymaps`). */
  class Keymaps {
    /** The layout filled with transparent keys. */
    const transparentLayer: Grid
    var baseLayer: Grid
    var finalLayers: map<Mode, Layer>

    /** The state of each mode's layer. */
    function States(): map<Mode, LayerState>
      reads this, finalLayers.Values
    {
      map m | m in finalLayers :: finalLayers[m].State()
    }

    /** No two modes share a layer object (`add_layer` makes a new one each time). */
    predicate Distinct()
      reads this
    {
      forall j, k :: j in finalLayers && k in finalLayers && j != k ==> finalLayers[j] != finalLayers[k]
    }

    /**
     * `Keymaps.__init__`, given the layout template already filled with
     * transparent keys.
     */
    constructor (filled: string)
      requires ParseLayout(filled).Ok?
      ensures transparentLayer == ParseLayout(filled).value && WellParsed(transparentLayer)
      ensures baseLayer == [] && finalLayers == map[] && Distinct()
    {
      ParseLinesWellParsed(Split(filled, '\n'));
      transparentLayer := ParseLayout(filled).value;
      baseLayer := [];
      finalLayers := map[];
    }

    /** `Keymaps.set_base`. */
    method SetBase(layout: string) returns (r: Outcome)
      modifies this
      ensures var p := ParseLayout(layout);
        if p.Ok? then r == Pass && baseLayer == p.value else r == Fail(p.error) && baseLayer == old(baseLayer)
      ensures finalLayers == old(finalLayers)
    {
      var p := Parse(layout);
      match p
      case Err(e) =>
        r := Fail(e);
      case Ok(g) =>
        baseLayer := g;
        r := Pass;
    }

    /**
     * `Keymaps.add_layer`: the existing layer of a mode (an error if a preset
     * is given for it), or a new layer from the preset or the transparent
     * layout, recorded for the mode.
     */
    method AddLayer(m: Mode, preset: Option<string>) returns (r: Result<Layer>)
      requires WellParsed(transparentLayer)
      modifies this
      ensures baseLayer == old(baseLayer)
      ensures old(Distinct()) ==> Distinct()
      ensures forall l :: l in finalLayers.Values ==> l in old(finalLayers.Values) || fresh(l)
      ensures m in old(finalLayers) && preset.Some? ==>
                r == Err(Raised("there is already a layer for mode")) && finalLayers == old(finalLayers)
      ensures m in old(finalLayers) && preset.None? ==>
                r == Ok(old(finalLayers)[m]) && finalLayers == old(finalLayers)
      ensures m !in old(finalLayers) && preset.Some? && ParseLayout(preset.value).Err? ==>
                r == Err(ParseLayout(preset.value).error) && finalLayers == old(finalLayers)
      ensures m !in old(finalLayers) && preset.Some? && ParseLayout(preset.value).Ok? ==>
                r.Ok? && fresh(r.value) && r.value.State() == InitialState(ParseLayout(preset.value).value)
                && finalLayers == old(finalLayers)[m := r.value]
      ensures m !in old(finalLayers) && preset.None? ==>
                r.Ok? && fresh(r.value) && r.value.State() == InitialState(transparentLayer)
                && finalLayers == old(finalLayers)[m := r.value]
    {
      if m in finalLayers {
        if preset.Some? {
          return Err(Raised("there is already a layer for mode"));
        }
        return Ok(finalLayers[m]);
      }
      var rows := transparentLayer;
      if preset.Some? {
        var p := Parse(preset.value);
        if p.Err? {
          return Err(p.error);
        }
        rows := p.value;
      }
      WellParsedCells(rows);
      var l := new Layer(rows);
      finalLayers := finalLayers[m := l];
      return Ok(l);
    }

    /**
     * When mode m's entry is now l and no other mode's layer changed, only
     * m's entry of the layer states changed.
     */
    twostate lemma StatesFrame(m: Mode, new l: Layer)
      requires finalLayers == old(finalLayers)[m := l]
      requires forall k :: k in old(finalLayers) && k != m ==> unchanged(old(finalLayers)[k])
      ensures States() == old(States())[m := l.State()]
    {
      var s0, s1 := old(States()), States();
      forall k | k in finalLayers && k != m
        ensures s1[k] == s0[k]
      {
        assert unchanged(old(finalLayers)[k]);
      }
      assert s1 == s0[m := l.State()];
    }

    /** `Keymaps.has_keys`: a mode without a layer is a missing key. */
    function HasKeys(m: Mode): (r: Result<bool>)
      reads this, finalLayers.Values
      ensures r.Ok? <==> m in finalLayers
      ensures r.Ok? ==> r.value == finalLayers[m].hasKeys
    {
      if m in finalLayers then Ok(finalLayers[m].hasKeys) else Err(KeyError)
    }
  }
}
