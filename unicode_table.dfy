/**
 * The unicode table of scripts/gen_keymap.py (`Gen._gen_unicode_map`): every
 * code point met in the key table, once, in the order first met, with an
 * index name derived from its Unicode character name.
 */
module UnicodeTable {
  import opened Wrappers
  import opened KeyCodes

  /** `unicodedata.name(chr(cp))`; None where `chr` or `name` raises. */
  type NameOf = int -> Option<string>

  /** `name.replace(" ", "_").replace("-", "_")`. */
  function Sanitize(s: string): string {
    if s == [] then [] else [if s[0] == ' ' || s[0] == '-' then '_' else s[0]] + Sanitize(s[1..])
  }

  /** Sanitizing replaces exactly the spaces and hyphens, position by position. */
  lemma {:induction false} SanitizeSpec(s: string)
    ensures |Sanitize(s)| == |s|
    ensures forall i :: 0 <= i < |s| ==> Sanitize(s)[i] == (if s[i] == ' ' || s[i] == '-' then '_' else s[i])
  {
    if s != [] {
      SanitizeSpec(s[1..]);
      var r := Sanitize(s);
      forall i | 0 <= i < |s| ensures r[i] == (if s[i] == ' ' || s[i] == '-' then '_' else s[i]) {
        if i > 0 {
          assert r[i] == Sanitize(s[1..])[i - 1];
        }
      }
    }
  }

  /** An index name holds neither a space nor a hyphen, so sanitizing it again changes nothing. */
  lemma SanitizeIdempotent(s: string)
    ensures ' ' !in Sanitize(s) && '-' !in Sanitize(s)
    ensures Sanitize(Sanitize(s)) == Sanitize(s)
  {
    var r := Sanitize(s);
    SanitizeSpec(s);
    SanitizeSpec(r);
    forall i | 0 <= i < |r| ensures r[i] != ' ' && r[i] != '-' {
    }
    assert Sanitize(r) == r;
  }

  // ---------------------------------------------------------------------
  // The walk over the key table.

  /** The (kc, skc) pairs of one key for the given modes, in order. */
  function ModePairs(key: Key, ms: seq<Mode>): seq<(Raw, Raw)> {
    if ms == [] then [] else ModePairs(key, ms[..|ms| - 1]) + [GetKc(key, ms[|ms| - 1])]
  }

  /** The pairs the nested loops visit: every key of the table, every mode. */
  function KeyPairs(keys: seq<(string, Key)>): seq<(Raw, Raw)> {
    if keys == [] then [] else KeyPairs(keys[..|keys| - 1]) + ModePairs(keys[|keys| - 1].1, AllModes)
  }

  /** The code points a sequence of pairs contains, unshifted before shifted. */
  function CodePoints(ps: seq<(Raw, Raw)>): seq<int> {
    if ps == [] then []
    else CodePoints(ps[..|ps| - 1]) + Points(ps[|ps| - 1].0) + Points(ps[|ps| - 1].1)
  }

  function Points(r: Raw): seq<int> {
    if r.Int? then [r.i] else []
  }

  /** Each element once, in the order first met. */
  function Dedup(xs: seq<int>): seq<int> {
    if xs == [] then []
    else
      var d := Dedup(xs[..|xs| - 1]);
      if xs[|xs| - 1] in d then d else d + [xs[|xs| - 1]]
  }

  function Elems(xs: seq<int>): set<int> {
    set x | x in xs
  }

  /** `Dedup` keeps every element and no other. */
  lemma {:induction false} DedupElems(xs: seq<int>)
    ensures Elems(Dedup(xs)) == Elems(xs)
  {
    if xs != [] {
      var front := xs[..|xs| - 1];
      var x := xs[|xs| - 1];
      DedupElems(front);
      assert xs == front + [x];
      ElemsSnoc(front, x);
      var d := Dedup(front);
      if x !in d {
        ElemsSnoc(d, x);
      }
    }
  }

  lemma ElemsSnoc(xs: seq<int>, x: int)
    ensures Elems(xs + [x]) == Elems(xs) + {x}
  {
  }

  /** `Dedup` never repeats an element. */
  lemma {:induction false} DedupDistinct(xs: seq<int>)
    ensures forall i, j :: 0 <= i < j < |Dedup(xs)| ==> Dedup(xs)[i] != Dedup(xs)[j]
  {
    if xs != [] {
      DedupDistinct(xs[..|xs| - 1]);
    }
  }

  /** The first element met is the first kept. */
  lemma {:induction false} DedupFirst(xs: seq<int>)
    requires xs != []
    ensures Dedup(xs) != [] && Dedup(xs)[0] == xs[0]
  {
    var front := xs[..|xs| - 1];
    if front != [] {
      DedupFirst(front);
      assert front[0] == xs[0];
    }
  }

  /** Appending an element already met changes nothing; a new one goes last. */
  lemma DedupSnoc(xs: seq<int>, x: int)
    ensures Dedup(xs + [x]) == if x in Elems(xs) then Dedup(xs) else Dedup(xs) + [x]
  {
    assert (xs + [x])[..|xs|] == xs;
    DedupElems(xs);
  }

  // ---------------------------------------------------------------------
  // One step of the loop.

  /**
   * The loop's state: `already_gen`, the entries of the enum and of the map
   * (index name and code point), and the field `unicode_to_idx`.
   */
  datatype UState = UState(seen: set<int>, entries: seq<(string, int)>, idx: map<int, string>)

  /**
   * The body of `for k in (kc, skc)`: a code point not met yet is marked
   * met, named (which can raise) and recorded.
   */
  function Visit(st: UState, k: KeyCode, name: NameOf): (UState, Outcome) {
    if !k.raw.Int? || k.raw.i in st.seen then (st, Pass)
    else
      var cp := k.raw.i;
      var seen := st.seen + {cp};
      match name(cp)
      case None => (st.(seen := seen), Fail(ValueError))
      case Some(n) =>
        var ix := Sanitize(n);
        (UState(seen, st.entries + [(ix, cp)], st.idx[cp := ix]), Pass)
  }

  /** One (kc, skc) pair: both keycodes are built first, then visited in turn. */
  function VisitPair(st: UState, p: (Raw, Raw), name: NameOf): (UState, Outcome) {
    match MakeKeyCode(p.0)
    case Err(e) => (st, Fail(e))
    case Ok(kc) =>
      match MakeKeyCode(p.1)
      case Err(e) => (st, Fail(e))
      case Ok(skc) =>
        var (st1, o1) := Visit(st, kc, name);
        if o1.Fail? then (st1, o1) else Visit(st1, skc, name)
  }

  /** The loop over a sequence of pairs, stopping at the first exception. */
  function Walk(st: UState, ps: seq<(Raw, Raw)>, name: NameOf): (UState, Outcome) {
    if ps == [] then (st, Pass)
    else
      var (st1, o1) := Walk(st, ps[..|ps| - 1], name);
      if o1.Fail? then (st1, o1) else VisitPair(st1, ps[|ps| - 1], name)
  }

  function Seconds(es: seq<(string, int)>): seq<int> {
    seq(|es|, i requires 0 <= i < |es| => es[i].1)
  }

  /**
   * What the state holds after visiting the code points xs: the entries list
   * each of them once in first-met order, the set of met code points is
   * theirs, and each entry's index name is its character's sanitized name,
   * also recorded in `unicode_to_idx`.
   */
  predicate Tracks(st: UState, xs: seq<int>, name: NameOf) {
    Seconds(st.entries) == Dedup(xs)
    && st.seen == Elems(xs)
    && forall i :: 0 <= i < |st.entries| ==>
         var cp := st.entries[i].1;
         name(cp).Some? && st.entries[i].0 == Sanitize(name(cp).value)
         && cp in st.idx && st.idx[cp] == st.entries[i].0
  }

  lemma VisitTracks(st: UState, xs: seq<int>, k: KeyCode, name: NameOf)
    requires Tracks(st, xs, name)
    ensures var (st1, o) := Visit(st, k, name);
      o == Pass ==> Tracks(st1, xs + Points(k.raw), name)
  {
    if !k.raw.Int? {
      assert xs + Points(k.raw) == xs;
    } else if k.raw.i in st.seen {
      VisitSeen(st, xs, k.raw.i, name);
    } else if name(k.raw.i).Some? {
      VisitNew(st, xs, k.raw.i, name);
    }
  }

  /** A code point met before leaves the state as it is. */
  lemma VisitSeen(st: UState, xs: seq<int>, cp: int, name: NameOf)
    requires Tracks(st, xs, name) && cp in st.seen
    ensures Tracks(st, xs + [cp], name)
  {
    DedupSnoc(xs, cp);
    ElemsSnoc(xs, cp);
  }

  /** A new code point is appended to the entries and recorded under its name. */
  lemma VisitNew(st: UState, xs: seq<int>, cp: int, name: NameOf)
    requires Tracks(st, xs, name) && cp !in st.seen && name(cp).Some?
    ensures var ix := Sanitize(name(cp).value);
      Tracks(UState(st.seen + {cp}, st.entries + [(ix, cp)], st.idx[cp := ix]), xs + [cp], name)
  {
    var ix := Sanitize(name(cp).value);
    var es := st.entries + [(ix, cp)];
    DedupSnoc(xs, cp);
    ElemsSnoc(xs, cp);
    assert Seconds(es) == Seconds(st.entries) + [cp];
    forall i | 0 <= i < |st.entries| ensures st.entries[i].1 != cp {
      assert st.entries[i].1 == Dedup(xs)[i];
      DedupElems(xs);
      assert Dedup(xs)[i] in Elems(Dedup(xs));
    }
  }

  lemma VisitPairTracks(st: UState, xs: seq<int>, p: (Raw, Raw), name: NameOf)
    requires Tracks(st, xs, name)
    ensures var (st1, o) := VisitPair(st, p, name);
      o == Pass ==> Tracks(st1, xs + Points(p.0) + Points(p.1), name)
  {
    var (st1, o) := VisitPair(st, p, name);
    if MakeKeyCode(p.0).Ok? && MakeKeyCode(p.1).Ok? {
      var kc := MakeKeyCode(p.0).value;
      var skc := MakeKeyCode(p.1).value;
      PlainPoints(p.0);
      PlainPoints(p.1);
      VisitTracks(st, xs, kc, name);
      var (sa, oa) := Visit(st, kc, name);
      if oa == Pass {
        VisitTracks(sa, xs + Points(p.0), skc, name);
      }
    }
  }

  /** A built keycode has a code point exactly when its raw value is one, and it is unchanged. */
  lemma PlainPoints(r: Raw)
    requires MakeKeyCode(r).Ok?
    ensures Points(MakeKeyCode(r).value.raw) == Points(r)
  {
  }

  /**
   * `_gen_unicode_map`, when it completes: the enum and the map list each
   * code point of the key table once, in the order first met, named after
   * its character, and `unicode_to_idx` maps each of them to its index name.
   */
  lemma {:induction false} WalkTracks(ps: seq<(Raw, Raw)>, idx0: map<int, string>, name: NameOf)
    ensures var (st, o) := Walk(UState({}, [], idx0), ps, name);
      o == Pass ==> Tracks(st, CodePoints(ps), name)
  {
    if ps != [] {
      var front := ps[..|ps| - 1];
      WalkTracks(front, idx0, name);
      var (st1, o1) := Walk(UState({}, [], idx0), front, name);
      if o1 == Pass {
        VisitPairTracks(st1, CodePoints(front), ps[|ps| - 1], name);
      }
    } else {
      assert Seconds([]) == [];
    }
  }

  // ---------------------------------------------------------------------
  // How the walk decomposes, for the loops that compute it.

  /** One more pair visited. */
  lemma WalkSnoc(st: UState, ps: seq<(Raw, Raw)>, p: (Raw, Raw), name: NameOf)
    ensures var (st1, o1) := Walk(st, ps, name);
      Walk(st, ps + [p], name) == if o1.Fail? then (st1, o1) else VisitPair(st1, p, name)
  {
    assert (ps + [p])[..|ps|] == ps;
  }

  /**
   * Walking two sequences in turn: the second is walked from where the
   * first left off, unless the first raised.
   */
  lemma {:induction false} WalkAppend(st: UState, ps: seq<(Raw, Raw)>, qs: seq<(Raw, Raw)>, name: NameOf)
    ensures var (st1, o1) := Walk(st, ps, name);
      Walk(st, ps + qs, name) == if o1.Fail? then (st1, o1) else Walk(st1, qs, name)
  {
    if qs != [] {
      var front, q := qs[..|qs| - 1], qs[|qs| - 1];
      WalkAppend(st, ps, front, name);
      SnocSplit(ps, qs);
      WalkSnoc(st, ps + front, q, name);
      var (st1, o1) := Walk(st, ps, name);
      WalkSnoc(st1, front, q, name);
    } else {
      assert ps + qs == ps;
    }
  }

  /** One more mode of a key. */
  lemma ModePairsSnoc(key: Key, j: nat)
    requires j < |AllModes|
    ensures ModePairs(key, AllModes[..j + 1]) == ModePairs(key, AllModes[..j]) + [GetKc(key, AllModes[j])]
  {
    assert AllModes[..j + 1][..j] == AllModes[..j];
  }

  lemma {:induction false} ModePairsAppend(key: Key, a: seq<Mode>, b: seq<Mode>)
    ensures ModePairs(key, a + b) == ModePairs(key, a) + ModePairs(key, b)
  {
    if b != [] {
      var front := b[..|b| - 1];
      ModePairsAppend(key, a, front);
      assert (a + b)[..|a + b| - 1] == a + front;
    } else {
      assert a + b == a;
    }
  }

  /** One more key of the table, all its modes. */
  lemma KeyPairsSnoc(keys: seq<(string, Key)>, i: nat)
    requires i < |keys|
    ensures KeyPairs(keys[..i + 1]) == KeyPairs(keys[..i]) + ModePairs(keys[i].1, AllModes)
  {
    assert keys[..i + 1][..i] == keys[..i];
  }

  /** A mode whose pair raises ends the walk over the key's modes, as it is. */
  lemma ModeWalkStops(st: UState, key: Key, j: nat, name: NameOf)
    requires j < |AllModes| && Walk(st, ModePairs(key, AllModes[..j + 1]), name).1.Fail?
    ensures Walk(st, ModePairs(key, AllModes), name) == Walk(st, ModePairs(key, AllModes[..j + 1]), name)
  {
    ModePairsAppend(key, AllModes[..j + 1], AllModes[j + 1..]);
    assert AllModes[..j + 1] + AllModes[j + 1..] == AllModes;
    WalkAppend(st, ModePairs(key, AllModes[..j + 1]), ModePairs(key, AllModes[j + 1..]), name);
  }

  /** One more mode visited, unless an earlier one raised. */
  lemma ModeWalkStep(st: UState, key: Key, j: nat, name: NameOf)
    requires j < |AllModes|
    ensures var (st1, o1) := Walk(st, ModePairs(key, AllModes[..j]), name);
      Walk(st, ModePairs(key, AllModes[..j + 1]), name)
      == if o1.Fail? then (st1, o1) else VisitPair(st1, GetKc(key, AllModes[j]), name)
  {
    ModePairsSnoc(key, j);
    WalkSnoc(st, ModePairs(key, AllModes[..j]), GetKc(key, AllModes[j]), name);
  }

  /** A key whose modes raise ends the walk over the table, as it is. */
  lemma KeyWalkStops(st: UState, keys: seq<(string, Key)>, i: nat, name: NameOf)
    requires i < |keys| && Walk(st, KeyPairs(keys[..i + 1]), name).1.Fail?
    ensures Walk(st, KeyPairs(keys), name) == Walk(st, KeyPairs(keys[..i + 1]), name)
  {
    KeyPairsAppend(keys[..i + 1], keys[i + 1..]);
    assert keys[..i + 1] + keys[i + 1..] == keys;
    WalkAppend(st, KeyPairs(keys[..i + 1]), KeyPairs(keys[i + 1..]), name);
  }

  /** One more key: its modes are walked from where the earlier keys left off. */
  lemma KeyWalkStep(st: UState, keys: seq<(string, Key)>, i: nat, name: NameOf)
    requires i < |keys|
    ensures var (st1, o1) := Walk(st, KeyPairs(keys[..i]), name);
      Walk(st, KeyPairs(keys[..i + 1]), name)
      == if o1.Fail? then (st1, o1) else Walk(st1, ModePairs(keys[i].1, AllModes), name)
  {
    KeyPairsSnoc(keys, i);
    WalkAppend(st, KeyPairs(keys[..i]), ModePairs(keys[i].1, AllModes), name);
  }

  lemma {:induction false} KeyPairsAppend(a: seq<(string, Key)>, b: seq<(string, Key)>)
    ensures KeyPairs(a + b) == KeyPairs(a) + KeyPairs(b)
  {
    if b != [] {
      var front := b[..|b| - 1];
      KeyPairsAppend(a, front);
      assert (a + b)[..|a + b| - 1] == a + front;
    } else {
      assert a + b == a;
    }
  }
}
