/**
 * A generated layer (class `Layer` of scripts/gen_keymap.py): a grid of
 * keycodes that starts transparent and is filled key by key, together with
 * the widest rendered keycode (for alignment) and whether any key is set.
 */
module Layers {
  import opened Wrappers
  import opened Text
  import opened KeyCodes

  /** A position in the layout; the generator only builds non-negative ones. */
  datatype Coord = Coord(row: nat, col: nat)

  type Grid = seq<seq<KeyCode>>

  predicate InGrid(g: Grid, c: Coord) {
    c.row < |g| && c.col < |g[c.row]|
  }

  /** `itertools.chain(*rows)`: the cells row after row. */
  function Cells(g: Grid): (r: seq<KeyCode>)
    ensures g == [] ==> r == []
  {
    if g == [] then [] else Cells(g[..|g| - 1]) + g[|g| - 1]
  }

  lemma {:induction false} CellsContain(g: Grid, c: Coord)
    requires InGrid(g, c)
    ensures g[c.row][c.col] in Cells(g)
  {
    if c.row < |g| - 1 {
      CellsContain(g[..|g| - 1], c);
    }
  }

  /** A keycode whose rendering is a string, so that `len` accepts it. */
  predicate Rendered(k: KeyCode) {
    Kc(k).Str?
  }

  /** `len(k)` for a rendered keycode. */
  function Width(k: KeyCode): nat {
    match Kc(k)
    case Str(s) => |s|
    case Int(_) => 0
  }

  function Max(a: nat, b: nat): nat {
    if a < b then b else a
  }

  /** The widest cell, as the running `max` of `Layer.__init__` ends. */
  function MaxWidth(cs: seq<KeyCode>): nat {
    if cs == [] then 0 else Max(MaxWidth(cs[..|cs| - 1]), Width(cs[|cs| - 1]))
  }

  /** `max_length` bounds every cell and is attained by one (or is 0). */
  lemma {:induction false} MaxWidthIsMax(cs: seq<KeyCode>)
    ensures forall i :: 0 <= i < |cs| ==> Width(cs[i]) <= MaxWidth(cs)
    ensures MaxWidth(cs) == 0 || exists i :: 0 <= i < |cs| && MaxWidth(cs) == Width(cs[i])
  {
    if cs != [] {
      var front := cs[..|cs| - 1];
      MaxWidthIsMax(front);
      assert forall i :: 0 <= i < |front| ==> front[i] == cs[i];
    }
  }

  /** The running `has_keys` of `Layer.__init__`. */
  function AnyKey(cs: seq<KeyCode>): bool {
    if cs == [] then false else AnyKey(cs[..|cs| - 1]) || !IsTransparent(cs[|cs| - 1])
  }

  /** `has_keys` holds exactly when some cell is not transparent. */
  lemma {:induction false} AnyKeyIsExists(cs: seq<KeyCode>)
    ensures AnyKey(cs) <==> exists i :: 0 <= i < |cs| && !IsTransparent(cs[i])
  {
    if cs != [] {
      var front := cs[..|cs| - 1];
      AnyKeyIsExists(front);
      assert forall i :: 0 <= i < |front| ==> front[i] == cs[i];
    }
  }

  lemma AnyKeyStep(a: seq<KeyCode>, k: KeyCode)
    ensures AnyKey(a + [k]) == (AnyKey(a) || !IsTransparent(k))
    ensures MaxWidth(a + [k]) == Max(MaxWidth(a), Width(k))
  {
    assert (a + [k])[..|a|] == a;
  }

  /** Scanning two runs of cells one after the other is scanning each and combining. */
  lemma {:induction false} AnyKeyAppend(a: seq<KeyCode>, b: seq<KeyCode>)
    ensures AnyKey(a + b) == (AnyKey(a) || AnyKey(b))
    ensures MaxWidth(a + b) == Max(MaxWidth(a), MaxWidth(b))
  {
    if b == [] {
      assert a + b == a;
    } else {
      var front, last := b[..|b| - 1], b[|b| - 1];
      AnyKeyAppend(a, front);
      SnocSplit(a, b);
      AnyKeyStep(a + front, last);
      AnyKeyStep(front, last);
    }
  }

  lemma CellsStep(g: Grid, i: nat)
    requires i < |g|
    ensures Cells(g[..i + 1]) == Cells(g[..i]) + g[i]
  {
    assert g[..i + 1][..i] == g[..i];
  }

  /** The state of a layer as a value. */
  datatype LayerState = LayerState(rows: Grid, maxLength: nat, hasKeys: bool)

  /**
   * What the layer keeps true: `max_length` bounds every rendered cell and a
   * layer without keys is entirely transparent.
   */
  predicate Valid(st: LayerState) {
    (forall r, c :: 0 <= r < |st.rows| && 0 <= c < |st.rows[r]| ==> Width(st.rows[r][c]) <= st.maxLength)
    && (!st.hasKeys ==> forall r, c :: 0 <= r < |st.rows| && 0 <= c < |st.rows[r]| ==> IsTransparent(st.rows[r][c]))
  }

  /** The fresh state `Layer.__init__` computes for some rows. */
  function InitialState(g: Grid): LayerState {
    LayerState(g, MaxWidth(Cells(g)), AnyKey(Cells(g)))
  }

  lemma InitialValid(g: Grid)
    ensures Valid(InitialState(g))
  {
    forall r, c | 0 <= r < |g| && 0 <= c < |g[r]|
      ensures Width(g[r][c]) <= MaxWidth(Cells(g))
      ensures !AnyKey(Cells(g)) ==> IsTransparent(g[r][c])
    {
      CellsContain(g, Coord(r, c));
      MaxWidthIsMax(Cells(g));
      AnyKeyIsExists(Cells(g));
    }
  }

  /** What `rows[r][c] = key.kc` stores: the rendered keycode, with no function. */
  function Stored(key: KeyCode): (r: KeyCode)
    ensures r.fn.None? && Kc(r) == Kc(key) && Same(r, key)
  {
    KeyCode(Kc(key), None)
  }

  /**
   * `Layer.set_key`: a transparent key changes nothing; otherwise the layer
   * has keys from then on (even when the call then raises), the target must
   * be transparent or hold the same keycode, the cell receives the rendered
   * keycode and `max_length` grows to fit it (`len` fails on a code point,
   * after the cell has been written).
   */
  function SetKeyOn(st: LayerState, c: Coord, key: KeyCode): (LayerState, Outcome) {
    if IsTransparent(key) then (st, Pass)
    else
      var st1 := st.(hasKeys := true);
      if !InGrid(st.rows, c) then (st1, Fail(IndexError))
      else
        var prev := st.rows[c.row][c.col];
        if !IsTransparent(prev) && !Same(key, prev) then (st1, Fail(Raised("key is not transparent")))
        else
          var st2 := st1.(rows := st.rows[c.row := st.rows[c.row][c.col := Stored(key)]]);
          match Len(key)
          case Err(e) => (st2, Fail(e))
          case Ok(n) => (st2.(maxLength := Max(st.maxLength, n)), Pass)
  }

  /** A transparent key is never written and never fails. */
  lemma SetKeyTransparent(st: LayerState, c: Coord, key: KeyCode)
    requires IsTransparent(key)
    ensures SetKeyOn(st, c, key) == (st, Pass)
  {
  }

  /**
   * Failure conditions of `set_key`, both directions: it raises exactly when
   * the position is outside the layout, the target holds a different
   * non-transparent key, or the key is a bare code point.
   */
  lemma SetKeyFails(st: LayerState, c: Coord, key: KeyCode)
    ensures SetKeyOn(st, c, key).1.Fail? <==>
              !IsTransparent(key)
              && (!InGrid(st.rows, c)
                  || (!IsTransparent(st.rows[c.row][c.col]) && !Same(key, st.rows[c.row][c.col]))
                  || !Rendered(key))
    ensures SetKeyOn(st, c, key).1 == Fail(Raised("key is not transparent")) <==>
              !IsTransparent(key) && InGrid(st.rows, c)
              && !IsTransparent(st.rows[c.row][c.col]) && !Same(key, st.rows[c.row][c.col])
  {
  }

  /**
   * A successful non-transparent write changes exactly the target cell, to
   * the rendered key, sets `has_keys` and makes `max_length` the larger of
   * its old value and the key's length.
   */
  lemma SetKeyWrites(st: LayerState, c: Coord, key: KeyCode)
    requires !IsTransparent(key) && SetKeyOn(st, c, key).1 == Pass
    ensures var st' := SetKeyOn(st, c, key).0;
      && InGrid(st.rows, c)
      && |st'.rows| == |st.rows|
      && (forall r :: 0 <= r < |st.rows| ==> |st'.rows[r]| == |st.rows[r]|)
      && (forall r, k :: 0 <= r < |st.rows| && 0 <= k < |st.rows[r]| && (r, k) != (c.row, c.col) ==>
            st'.rows[r][k] == st.rows[r][k])
      && Kc(st'.rows[c.row][c.col]) == Kc(key)
      && st'.hasKeys
      && st'.maxLength == Max(st.maxLength, Width(key))
  {
  }

  /** Every call, failing or not, keeps the layer's invariant. */
  lemma SetKeyValid(st: LayerState, c: Coord, key: KeyCode)
    requires Valid(st)
    ensures Valid(SetKeyOn(st, c, key).0)
  {
    var st' := SetKeyOn(st, c, key).0;
    if !IsTransparent(key) && InGrid(st.rows, c) && st'.rows != st.rows {
      forall r, k | 0 <= r < |st'.rows| && 0 <= k < |st'.rows[r]|
        ensures Width(st'.rows[r][k]) <= st'.maxLength
      {
        if (r, k) == (c.row, c.col) {
          assert Width(st'.rows[r][k]) == Width(key);
        } else {
          assert st'.rows[r][k] == st.rows[r][k];
        }
      }
    }
  }

  /** Setting the same key twice is the same as setting it once. */
  lemma SetKeyIdempotent(st: LayerState, c: Coord, key: KeyCode)
    requires SetKeyOn(st, c, key).1 == Pass
    ensures var st' := SetKeyOn(st, c, key).0; SetKeyOn(st', c, key) == (st', Pass)
  {
    var st' := SetKeyOn(st, c, key).0;
    if !IsTransparent(key) {
      assert st'.rows[c.row] == st.rows[c.row][c.col := Stored(key)];
      assert st'.rows[c.row][c.col] == Stored(key);
      assert st'.rows[c.row][c.col := Stored(key)] == st'.rows[c.row];
      assert st'.rows[c.row := st'.rows[c.row]] == st'.rows;
    }
  }

  /** `format(s, "^w")`: centred, the extra space going to the right. */
  function Center(s: string, w: nat): (r: string)
    ensures |r| == Max(w, |s|)
    ensures var left := if w <= |s| then 0 else (w - |s|) / 2;
      && r[left..left + |s|] == s
      && AllSpace(r[..left]) && AllSpace(r[left + |s|..])
      && |r[left + |s|..]| - left in {0, 1}
  {
    if w <= |s| then s
    else
      var left := (w - |s|) / 2;
      var pad := Spaces(left) + s + Spaces(w - |s| - left);
      assert pad[left..left + |s|] == s;
      assert pad[..left] == Spaces(left);
      assert pad[left + |s|..] == Spaces(w - |s| - left);
      pad
  }

  function Spaces(n: nat): (r: string)
    ensures |r| == n && AllSpace(r)
  {
    if n == 0 then "" else " " + Spaces(n - 1)
  }

  /**
   * `KeyCode.__format__` with the centring spec: a keycode under a function
   * is rendered unpadded, every other one is centred.
   */
  function FormatCell(k: KeyCode, w: nat): string {
    match k.fn
    case Some(f) => Apply(f, RawText(k.raw))
    case None => Center(RawText(k.raw), w)
  }

  /** `Layer.format` with a layout template: the padded cells, row after row. */
  function FormatCells(st: LayerState): (r: seq<string>)
    ensures |r| == |Cells(st.rows)|
  {
    var cs := Cells(st.rows);
    seq(|cs|, i requires 0 <= i < |cs| => FormatCell(cs[i], st.maxLength))
  }

  /** On a valid layer every cell without a function is exactly `max_length` wide. */
  lemma FormatAligned(st: LayerState, i: nat)
    requires Valid(st) && forall k :: k in Cells(st.rows) ==> Rendered(k)
    requires i < |Cells(st.rows)| && Cells(st.rows)[i].fn.None?
    ensures |FormatCells(st)[i]| == st.maxLength
  {
    var k := Cells(st.rows)[i];
    CellsBounded(st);
    assert k in Cells(st.rows);
    assert Width(k) == |RawText(k.raw)|;
  }

  lemma CellsBounded(st: LayerState)
    requires Valid(st)
    ensures forall k :: k in Cells(st.rows) ==> Width(k) <= st.maxLength
  {
    forall k | k in Cells(st.rows) ensures Width(k) <= st.maxLength {
      var c := CellOf(st.rows, k);
    }
  }

  /** Every cell of the flattened rows comes from some position. */
  lemma {:induction false} CellOf(g: Grid, k: KeyCode) returns (c: Coord)
    requires k in Cells(g)
    ensures InGrid(g, c) && g[c.row][c.col] == k
  {
    var last := g[|g| - 1];
    if k in Cells(g[..|g| - 1]) {
      c := CellOf(g[..|g| - 1], k);
    } else {
      assert k in last;
      var j :| 0 <= j < |last| && last[j] == k;
      c := Coord(|g| - 1, j);
    }
  }

  /** Taking one more element of `b` appends it after the shorter prefix. */
  lemma PrefixStep<T>(a: seq<T>, b: seq<T>, j: nat)
    requires j < |b|
    ensures a + b[..j + 1] == (a + b[..j]) + [b[j]]
  {
    assert b[..j + 1] == b[..j] + [b[j]];
  }

  /**
   * The inner loop of `Layer.__init__`: folds one row into the running
   * `has_keys` and `max_length` of the cells scanned before it.
   */
  method ScanRow(ghost done: seq<KeyCode>, hasKeys0: bool, maxLength0: nat, cols: seq<KeyCode>)
    returns (hasKeys: bool, maxLength: nat)
    requires hasKeys0 == AnyKey(done) && maxLength0 == MaxWidth(done)
    ensures hasKeys == AnyKey(done + cols) && maxLength == MaxWidth(done + cols)
  {
    hasKeys, maxLength := hasKeys0, maxLength0;
    var j := 0;
    while j < |cols|
      invariant 0 <= j <= |cols|
      invariant hasKeys == (hasKeys0 || AnyKey(cols[..j]))
      invariant maxLength == Max(maxLength0, MaxWidth(cols[..j]))
    {
      AnyKeyStep(cols[..j], cols[j]);
      assert cols[..j + 1] == cols[..j] + [cols[j]];
      hasKeys := hasKeys || !IsTransparent(cols[j]);
      maxLength := Max(maxLength, Width(cols[j]));
      j := j + 1;
    }
    assert cols[..j] == cols;
    AnyKeyAppend(done, cols);
  }

  /** A layer of the generated keymap (class `Layer`). */
  class Layer {
    var rows: Grid
    var maxLength: nat
    var hasKeys: bool

    function State(): LayerState
      reads this
    {
      LayerState(rows, maxLength, hasKeys)
    }

    /** `Layer.__init__`: scans the rows for keys and for the widest cell. */
    constructor (rows0: Grid)
      requires forall k :: k in Cells(rows0) ==> Rendered(k)
      ensures State() == InitialState(rows0)
    {
      rows := rows0;
      maxLength := 0;
      hasKeys := false;
      new;
      var i := 0;
      while i < |rows0|
        invariant 0 <= i <= |rows0| && rows == rows0
        invariant hasKeys == AnyKey(Cells(rows0[..i]))
        invariant maxLength == MaxWidth(Cells(rows0[..i]))
      {
        hasKeys, maxLength := ScanRow(Cells(rows0[..i]), hasKeys, maxLength, rows0[i]);
        CellsStep(rows0, i);
        i := i + 1;
      }
      assert rows0[..i] == rows0;
    }

    /** `Layer.set_key`. */
    method SetKey(c: Coord, key: KeyCode) returns (r: Outcome)
      modifies this
      ensures (State(), r) == SetKeyOn(old(State()), c, key)
    {
      if IsTransparent(key) {
        return Pass;
      }
      hasKeys := true;
      if !(c.row < |rows| && c.col < |rows[c.row]|) {
        return Fail(IndexError);
      }
      var prev := rows[c.row][c.col];
      if !IsTransparent(prev) && !Same(key, prev) {
        return Fail(Raised("key is not transparent"));
      }
      rows := rows[c.row := rows[c.row][c.col := Stored(key)]];
      var n := Len(key);
      if n.Err? {
        return Fail(n.error);
      }
      maxLength := Max(maxLength, n.value);
      return Pass;
    }
  }
}
