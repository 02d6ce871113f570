/**
 * Two places where scripts/gen_keymap.py hands a `str` to code that expects
 * a `KeyCode`, modelled as written next to the behaviour the rest of this
 * model uses.
 */
module Findings {
  import opened Wrappers
  import opened KeyCodes
  import opened Layers
  import opened GenRules

  /** A Python value that is either a `KeyCode` object or a bare `str`/`int`. */
  datatype Value = Object(k: KeyCode) | Bare(r: Raw)

  // ---------------------------------------------------------------------
  // `_alias` returns the alias name itself when it is already registered.

  /**
   * `Gen._alias` as written: a registered, equal alias returns `name`, a
   * `str`, where every other path returns `KeyCode(name)`.
   */
  function AliasAsWritten(t: Tables, name: string, value: KeyCode): (Tables, Result<Value>) {
    var made := MakeKeyCode(Str(name));
    if name !in t.aliases || Len(t.aliases[name]) == Ok(0) then
      (t.(aliases := t.aliases[name := value]), if made.Err? then Err(made.error) else Ok(Object(made.value)))
    else if Len(t.aliases[name]).Err? then (t, Err(Len(t.aliases[name]).error))
    else if !Same(t.aliases[name], value) then (t, Err(ConflictForAlias))
    else (t, Ok(Bare(Str(name))))
  }

  /**
   * `layer.set_key(coord, final_kc)`: the first thing it does is read
   * `key.is_transparent`, which a `str` does not have.
   */
  function SetValueOn(st: LayerState, c: Coord, v: Value): (LayerState, Outcome) {
    match v
    case Bare(_) => (st, Fail(AttributeError))
    case Object(k) => SetKeyOn(st, c, k)
  }

  /**
   * As written, the second base key that derives an already registered
   * alias (the same table key twice in a base layout, in a mode where it
   * maps to a code point) makes `_gen` raise AttributeError.
   */
  lemma AliasAsWrittenBreaksGen(t: Tables, name: string, value: KeyCode, st: LayerState, c: Coord)
    requires name in t.aliases && Rendered(t.aliases[name]) && Width(t.aliases[name]) > 0
    requires Same(t.aliases[name], value)
    ensures AliasAsWritten(t, name, value).1 == Ok(Bare(Str(name)))
    ensures SetValueOn(st, c, AliasAsWritten(t, name, value).1.value).1 == Fail(AttributeError)
  {
  }

  /** A concrete case: `DK_EKC_SPC` registered for a code point's `UM(...)`, then met again. */
  lemma AliasAsWrittenExample()
    ensures var t := Tables(map[], [], map[], map["DK_EKC_SPC" := Plain("UM(NBSP)")], map[]);
      var r := AliasAsWritten(t, "DK_EKC_SPC", Plain("UM(NBSP)")).1;
      r == Ok(Bare(Str("DK_EKC_SPC")))
      && SetValueOn(InitialState([]), Coord(0, 0), r.value).1 == Fail(AttributeError)
  {
    var t := Tables(map[], [], map[], map["DK_EKC_SPC" := Plain("UM(NBSP)")], map[]);
    AliasAsWrittenBreaksGen(t, "DK_EKC_SPC", Plain("UM(NBSP)"), InitialState([]), Coord(0, 0));
  }

  /**
   * Corrected (`AliasOn`, which returns `KeyCode(name)` on every path):
   * registering the same alias again returns what the first registration
   * returned and changes nothing.
   */
  lemma AliasRepeatable(t: Tables, name: string, value: KeyCode)
    requires Rendered(value) && Width(value) > 0
    requires name in t.aliases ==> Rendered(t.aliases[name]) && (Width(t.aliases[name]) == 0 || Same(t.aliases[name], value))
    ensures var (t1, r1) := AliasOn(t, name, value);
      AliasOn(t1, name, value) == (t1, r1)
  {
  }

  // ---------------------------------------------------------------------
  // `set_key` stores `key.kc`, which is a `str` (or an `int`).

  /** The rows of a layer as written: parsed `KeyCode` objects, then `key.kc` values. */
  type Cells = seq<seq<Value>>

  function IsTransparentValue(v: Value): Result<bool> {
    match v
    case Object(k) => Ok(IsTransparent(k))
    case Bare(_) => Err(AttributeError)
  }

  /**
   * `Layer.set_key` as written, on the rows only: the cell receives
   * `key.kc`, and the check of the previous cell reads `prev.is_transparent`.
   */
  function SetKeyAsWritten(rows: Cells, c: Coord, key: KeyCode): (Cells, Outcome) {
    if IsTransparent(key) then (rows, Pass)
    else if !(c.row < |rows| && c.col < |rows[c.row]|) then (rows, Fail(IndexError))
    else
      match IsTransparentValue(rows[c.row][c.col])
      case Err(e) => (rows, Fail(e))
      case Ok(tr) =>
        if !tr && !Same(key, rows[c.row][c.col].k) then (rows, Fail(Raised("key is not transparent")))
        else
          var rows1 := rows[c.row := rows[c.row][c.col := Bare(Kc(key))]];
          if Len(key).Err? then (rows1, Fail(Len(key).error)) else (rows1, Pass)
  }

  /**
   * As written, setting a key a second time on a cell raises
   * AttributeError, although the comparison `key != prev` that follows is
   * written to accept a `str` and would find the keys equal.
   */
  lemma SetKeyTwiceAsWritten(rows: Cells, c: Coord, key: KeyCode)
    requires !IsTransparent(key) && SetKeyAsWritten(rows, c, key).1 == Pass
    ensures var rows1 := SetKeyAsWritten(rows, c, key).0;
      SetKeyAsWritten(rows1, c, key).1 == Fail(AttributeError)
  {
    var rows1 := SetKeyAsWritten(rows, c, key).0;
    assert rows1[c.row][c.col] == Bare(Kc(key));
  }

  /** A concrete case: `KC_A` set twice on a one-cell transparent layer. */
  lemma SetKeyTwiceExample()
    ensures var rows1 := SetKeyAsWritten([[Object(Plain(Trns))]], Coord(0, 0), Plain("KC_A")).0;
      SetKeyAsWritten(rows1, Coord(0, 0), Plain("KC_A")).1 == Fail(AttributeError)
  {
    SetKeyTwiceAsWritten([[Object(Plain(Trns))]], Coord(0, 0), Plain("KC_A"));
  }
}
