/**
 * The keycode values of the keymap generator (scripts/gen_keymap.py): the
 * modes, the shift modes, keycodes wrapped in an `LT(...)` or mod-tap
 * function, the per-key table entries and the classification of a
 * (base, shifted) pair.
 */
module KeyCodes {
  import opened Wrappers
  import opened Text

  /** The layers the generator knows, in declaration (iteration) order. */
  datatype Mode = Base | Qwerty | DK | Sym | SymQwerty | Nav | Num | Media | Fn

  const AllModes: seq<Mode> := [Base, Qwerty, DK, Sym, SymQwerty, Nav, Num, Media, Fn]

  /** `Mode.name`. */
  function ModeName(m: Mode): (r: string)
    ensures r != [] && IsWord(r)
  {
    match m
    case Base => "Base"
    case Qwerty => "Qwerty"
    case DK => "DK"
    case Sym => "Sym"
    case SymQwerty => "SymQwerty"
    case Nav => "Nav"
    case Num => "Num"
    case Media => "Media"
    case Fn => "Fn"
  }

  /** How the shifted output of a key is produced. */
  datatype ShiftMode = Default | Override | CustomKey | UnicodeMap

  /** A raw keycode is a QMK keycode name (`str`) or a code point (`int`). */
  datatype Raw = Str(s: string) | Int(i: int)

  /** The wrapper function a keycode carries, if any. */
  datatype Function = LTFn(layer: string) | UnaryFn(name: string)

  /** A keycode: the raw keycode and the function around it. */
  datatype KeyCode = KeyCode(raw: Raw, fn: Option<Function>)

  /** A keycode with no function, as the generator builds for names it invents. */
  function Plain(s: string): KeyCode {
    KeyCode(Str(s), None)
  }

  const Trns: string := "_______"

  /** `is_transparent`, applied to the raw keycode. */
  predicate IsTransparentRaw(r: Raw) {
    r == Str("KC_TRNS") || r == Str(Trns)
  }

  predicate IsTransparent(k: KeyCode) {
    IsTransparentRaw(k.raw)
  }

  /** A raw keycode formatted into an f-string. */
  function RawText(r: Raw): string {
    match r
    case Str(s) => s
    case Int(i) => if i < 0 then "-" + NatText(-i) else NatText(i)
  }

  /** Calling the function object on a keycode: the C text it renders. */
  function Apply(f: Function, kc: string): string {
    match f
    case LTFn(layer) => "LT(" + layer + ", " + kc + ")"
    case UnaryFn(name) => name + "(" + kc + ")"
  }

  /** The `kc` property: the rendered keycode. */
  function Kc(k: KeyCode): (r: Raw)
    ensures k.fn.None? ==> r == k.raw
    ensures k.fn.Some? ==> r.Str? && |r.s| > |RawText(k.raw)|
  {
    match k.fn
    case None => k.raw
    case Some(f) => Str(Apply(f, RawText(k.raw)))
  }

  /** `len(k)`: the length of the rendered keycode; a code point has none. */
  function Len(k: KeyCode): (r: Result<nat>)
    ensures r.Ok? <==> Kc(k).Str?
    ensures r.Ok? ==> r.value == |Kc(k).s|
  {
    match Kc(k)
    case Str(s) => Ok(|s|)
    case Int(_) => Err(TypeError)
  }

  /** Keycodes compare by their rendered form (`KeyCode.__eq__`). */
  predicate Same(a: KeyCode, b: KeyCode) {
    Kc(a) == Kc(b)
  }

  // ---------------------------------------------------------------------
  // Parsing: the two regular expressions of LTFunction and UnaryKCFunction.

  /** The longest prefix of word characters (what a greedy `\w+` consumes). */
  function WordPrefix(s: string): (r: string)
    ensures |r| <= |s| && r == s[..|r|]
    ensures forall i :: 0 <= i < |r| ==> IsWordChar(r[i])
    ensures |r| == |s| || !IsWordChar(s[|r|])
  {
    if s != [] && IsWordChar(s[0]) then [s[0]] + WordPrefix(s[1..]) else []
  }

  /** The longest prefix of whitespace (what a greedy `\s*` consumes). */
  function SpacePrefix(s: string): (r: string)
    ensures |r| <= |s| && r == s[..|r|]
    ensures AllSpace(r)
    ensures |r| == |s| || !IsSpace(s[|r|])
  {
    if s != [] && IsSpace(s[0]) then [s[0]] + SpacePrefix(s[1..]) else []
  }

  lemma {:induction false} WordPrefixOf(w: string, rest: string)
    requires forall i :: 0 <= i < |w| ==> IsWordChar(w[i])
    requires rest == [] || !IsWordChar(rest[0])
    ensures WordPrefix(w + rest) == w
  {
    if w != [] {
      assert (w + rest)[1..] == w[1..] + rest;
      WordPrefixOf(w[1..], rest);
    }
  }

  lemma {:induction false} SpacePrefixOf(w: string, rest: string)
    requires AllSpace(w)
    requires rest == [] || !IsSpace(rest[0])
    ensures SpacePrefix(w + rest) == w
  {
    if w != [] {
      assert (w + rest)[1..] == w[1..] + rest;
      SpacePrefixOf(w[1..], rest);
    }
  }

  /** What `^LT\((?P<layer>\w+)\|\s*(?P<keycode>\w+)\)$` captures. */
  datatype LTMatch = LTMatch(layer: string, gap: string, keycode: string, newline: bool)

  /** The text an LT match covers; `$` also matches before a final newline. */
  function LTText(m: LTMatch): string {
    "LT(" + (m.layer + ("|" + (m.gap + (m.keycode + LTEnd(m.newline)))))
  }

  /** `)`, then the newline `$` lets through. */
  function LTEnd(newline: bool): string {
    if newline then ")\n" else ")"
  }

  /** A non-empty sequence is its front with its last element appended, after any prefix. */
  lemma SnocSplit<T>(a: seq<T>, b: seq<T>)
    requires b != []
    ensures a + b == (a + b[..|b| - 1]) + [b[|b| - 1]] && b == b[..|b| - 1] + [b[|b| - 1]]
  {
  }

  /** Dropping a prefix leaves what followed it. */
  lemma DropPrefix<T>(a: seq<T>, b: seq<T>)
    ensures (a + b)[|a|..] == b
  {
  }

  predicate WellFormedLT(m: LTMatch) {
    IsWord(m.layer) && AllSpace(m.gap) && IsWord(m.keycode)
  }

  /**
   * `LTFunction.parse`: the pattern is anchored at both ends and its parts
   * are separated by characters the neighbouring classes cannot match, so
   * the greedy scan below finds the only possible decomposition; the text
   * matches exactly when it is that decomposition.
   */
  function ParseLT(s: string): (r: Option<LTMatch>)
    ensures r.Some? ==> WellFormedLT(r.value) && s == LTText(r.value)
  {
    match LTCandidate(s)
    case None => None
    case Some(m) => if WellFormedLT(m) && s == LTText(m) then Some(m) else None
  }

  /** The only decomposition the greedy scan of the LT pattern can find. */
  function LTCandidate(s: string): Option<LTMatch> {
    if |s| < 3 then None
    else
      match LayerParts(s[3..])
      case None => None
      case Some((layer, gap, kc)) => Some(LTMatch(layer, gap, kc, s[|s| - 1] == '\n'))
  }

  /** The scan after `LT(`: the layer word, then `|` and the gap and keycode. */
  function LayerParts(t: string): Option<(string, string, string)> {
    var layer := WordPrefix(t);
    var rest := t[|layer|..];
    if rest == [] then None
    else
      var (gap, kc) := GapParts(rest[1..]);
      Some((layer, gap, kc))
  }

  /** The scan after `|`: the whitespace gap, then the keycode word. */
  function GapParts(u: string): (string, string) {
    var gap := SpacePrefix(u);
    (gap, WordPrefix(u[|gap|..]))
  }

  lemma GapPartsOf(gap: string, kc: string, tail: string)
    requires AllSpace(gap) && IsWord(kc)
    requires tail == [] || !IsWordChar(tail[0])
    ensures GapParts(gap + (kc + tail)) == (gap, kc)
  {
    SpacePrefixOf(gap, kc + tail);
    DropPrefix(gap, kc + tail);
    WordPrefixOf(kc, tail);
  }

  lemma LayerPartsOf(layer: string, gap: string, kc: string, tail: string)
    requires IsWord(layer) && AllSpace(gap) && IsWord(kc)
    requires tail == [] || !IsWordChar(tail[0])
    ensures LayerParts(layer + ("|" + (gap + (kc + tail)))) == Some((layer, gap, kc))
  {
    var u := gap + (kc + tail);
    WordPrefixOf(layer, "|" + u);
    DropPrefix(layer, "|" + u);
    DropPrefix("|", u);
    GapPartsOf(gap, kc, tail);
  }

  lemma LTCandidateOf(m: LTMatch)
    requires WellFormedLT(m)
    ensures LTCandidate(LTText(m)) == Some(m)
  {
    var tail := LTEnd(m.newline);
    var body := m.layer + ("|" + (m.gap + (m.keycode + tail)));
    DropPrefix("LT(", body);
    LayerPartsOf(m.layer, m.gap, m.keycode, tail);
    LTTextLast(m);
  }

  lemma LTTextLast(m: LTMatch)
    ensures |LTText(m)| > 3 && LTText(m)[|LTText(m)| - 1] == (if m.newline then '\n' else ')')
  {
    var tail := LTEnd(m.newline);
    LastOfAppend(m.keycode, tail);
    LastOfAppend(m.gap, m.keycode + tail);
    LastOfAppend("|", m.gap + (m.keycode + tail));
    LastOfAppend(m.layer, "|" + (m.gap + (m.keycode + tail)));
    LastOfAppend("LT(", m.layer + ("|" + (m.gap + (m.keycode + tail))));
  }

  lemma LastOfAppend<T>(a: seq<T>, b: seq<T>)
    requires b != []
    ensures (a + b)[|a + b| - 1] == b[|b| - 1]
  {
  }

  /** Every well-formed LT text is recognised, with exactly its parts. */
  lemma ParseLTComplete(m: LTMatch)
    requires WellFormedLT(m)
    ensures ParseLT(LTText(m)) == Some(m)
  {
    LTCandidateOf(m);
  }

  /** `(?P<fn>\w+)\((?P<keycode>\w+)\)` matched at the start (`re.match`). */
  function MatchCall(s: string): (r: Option<(string, string)>)
    ensures r.Some? ==>
              IsWord(r.value.0) && IsWord(r.value.1) && StartsWith(s, r.value.0 + "(" + r.value.1 + ")")
  {
    var fn := WordPrefix(s);
    if fn == [] || |fn| == |s| || s[|fn|] != '(' then None
    else
      var t := s[|fn| + 1..];
      var kc := WordPrefix(t);
      if kc == [] || |kc| == |t| || t[|kc|] != ')' then None
      else
        assert s[..|fn + "(" + kc + ")"|] == fn + "(" + kc + ")" by {
          assert s == fn + "(" + t && t == kc + ")" + t[|kc| + 1..];
        }
        Some((fn, kc))
  }

  lemma MatchCallComplete(fn: string, kc: string, tail: string)
    requires IsWord(fn) && IsWord(kc)
    ensures MatchCall(fn + "(" + kc + ")" + tail) == Some((fn, kc))
  {
    var s := fn + "(" + kc + ")" + tail;
    assert s == fn + ("(" + kc + ")" + tail);
    WordPrefixOf(fn, "(" + kc + ")" + tail);
    var t := s[|fn| + 1..];
    assert t == kc + (")" + tail);
    WordPrefixOf(kc, ")" + tail);
  }

  /** `UnaryKCFunction._known_functions`, the mod-tap functions. */
  const KnownFunctions: set<string> := {
    "ALGR_T", "ALL_T", "ALT_T", "CMD_T", "CTL_T", "C_S_T", "GUI_T", "HYPR_T",
    "LAG_T", "LALT_T", "LCAG_T", "LCA_T", "LCMD_T", "LCTL_T", "LOPT_T", "LSA_T",
    "LSFT_T", "LSG_T", "LWIN_T", "MEH_T", "OPT_T", "RALT_T", "RCAG_T", "RCMD_T",
    "RGUI_T", "ROPT_T", "RSA_T", "RSG_T", "RWIN_T", "SAGR_T", "SCMD_T", "SFT_T",
    "SGUI_T", "SWIN_T", "WIN_T"
  }

  /** The known names by first letter, for proofs by cases. */
  const KnownAtoH: set<string> := {"ALGR_T", "ALL_T", "ALT_T", "CMD_T", "CTL_T", "C_S_T", "GUI_T", "HYPR_T"}
  const KnownL: set<string> := {
    "LAG_T", "LALT_T", "LCAG_T", "LCA_T", "LCMD_T", "LCTL_T", "LOPT_T", "LSA_T", "LSFT_T", "LSG_T", "LWIN_T"
  }
  const KnownMtoR: set<string> := {
    "MEH_T", "OPT_T", "RALT_T", "RCAG_T", "RCMD_T", "RGUI_T", "ROPT_T", "RSA_T", "RSG_T", "RWIN_T"
  }
  const KnownStoW: set<string> := {"SAGR_T", "SCMD_T", "SFT_T", "SGUI_T", "SWIN_T", "WIN_T"}

  predicate HasKnownPrefix(s: string) {
    exists f :: f in KnownFunctions && StartsWith(s, f)
  }

  /**
   * The first two characters of the known function names.  None of them is
   * `LT`, `UM`, `UP` or the start of a mode name.
   */
  predicate KnownHead(a: char, b: char) {
    (a == 'A' && b == 'L') || (a == 'C' && b in "MT_") || (a == 'G' && b == 'U')
    || (a == 'H' && b == 'Y') || (a == 'L' && b in "ACOSW") || (a == 'M' && b == 'E')
    || (a == 'O' && b == 'P') || (a == 'R' && b in "ACGOSW") || (a == 'S' && b in "ACFGW")
    || (a == 'W' && b == 'I')
  }

  lemma KnownFunctionShape(f: string)
    requires f in KnownFunctions
    ensures |f| >= 5 && KnownHead(f[0], f[1]) && '(' !in f
  {
    KnownGroups(f);
    if f in KnownAtoH {
      KnownShapeAtoH(f);
    } else if f in KnownL {
      KnownShapeL(f);
    } else if f in KnownMtoR {
      KnownShapeMtoR(f);
    } else {
      KnownShapeStoW(f);
    }
  }

  lemma KnownGroups(f: string)
    requires f in KnownFunctions
    ensures f in KnownAtoH || f in KnownL || f in KnownMtoR || f in KnownStoW
  {
  }

  lemma KnownShapeAtoH(f: string)
    requires f in KnownAtoH
    ensures |f| >= 5 && KnownHead(f[0], f[1]) && '(' !in f
  {
  }

  lemma KnownShapeL(f: string)
    requires f in KnownL
    ensures |f| >= 5 && KnownHead(f[0], f[1]) && '(' !in f
  {
  }

  lemma KnownShapeMtoR(f: string)
    requires f in KnownMtoR
    ensures |f| >= 5 && KnownHead(f[0], f[1]) && '(' !in f
  {
  }

  lemma KnownShapeStoW(f: string)
    requires f in KnownStoW
    ensures |f| >= 5 && KnownHead(f[0], f[1]) && '(' !in f
  {
  }

  /** The outcome of `UnaryKCFunction.parse`. */
  datatype UnaryParse = NoFunction | Unary(fn: string, keycode: string)

  /**
   * `UnaryKCFunction.parse`: no function unless the text starts with a known
   * function name; when it does but the call pattern fails, `match.group` is
   * looked up on None.
   */
  function ParseUnary(s: string): (r: Result<UnaryParse>)
    ensures r == Ok(NoFunction) <==> !HasKnownPrefix(s)
    ensures r.Err? <==> (HasKnownPrefix(s) && MatchCall(s).None?)
    ensures r.Ok? && r.value.Unary? ==>
              HasKnownPrefix(s) && StartsWith(s, r.value.fn + "(" + r.value.keycode + ")")
  {
    if !HasKnownPrefix(s) then Ok(NoFunction)
    else
      match MatchCall(s)
      case None => Err(AttributeError)
      case Some((fn, kc)) => Ok(Unary(fn, kc))
  }

  /** The `KeyCode(...)` constructor. */
  function MakeKeyCode(r: Raw): (k: Result<KeyCode>)
    ensures r.Int? ==> k == Ok(KeyCode(r, None))
    ensures k.Ok? && k.value.fn.None? ==> k.value.raw == r
    ensures k.Ok? ==> (k.value.raw.Str? <==> r.Str?)
  {
    match r
    case Int(_) => Ok(KeyCode(r, None))
    case Str(s) =>
      match ParseLT(s)
      case Some(m) => Ok(KeyCode(Str(m.keycode), Some(LTFn(m.layer))))
      case None =>
        match ParseUnary(s)
        case Err(e) => Err(e)
        case Ok(NoFunction) => Ok(KeyCode(r, None))
        case Ok(Unary(fn, kc)) => Ok(KeyCode(Str(kc), Some(UnaryFn(fn))))
  }

  /** A written `LT(layer|kc)` becomes kc under LT, rendered `LT(layer, kc)`. */
  lemma MakeLT(layer: string, kc: string)
    requires IsWord(layer) && IsWord(kc)
    ensures MakeKeyCode(Str("LT(" + layer + "|" + kc + ")")) == Ok(KeyCode(Str(kc), Some(LTFn(layer))))
    ensures Kc(KeyCode(Str(kc), Some(LTFn(layer)))) == Str("LT(" + layer + ", " + kc + ")")
  {
    var m := LTMatch(layer, "", kc, false);
    assert LTText(m) == "LT(" + layer + "|" + kc + ")";
    ParseLTComplete(m);
  }

  /** Where the fixed characters of an LT text sit. */
  lemma LTTextShape()
    ensures forall m: LTMatch {:trigger LTText(m)} ::
              var s := LTText(m);
              |s| > 3 + |m.layer| && s[0] == 'L' && s[1] == 'T' && s[2] == '(' && s[3 + |m.layer|] == '|'
  {
    forall m: LTMatch
      ensures var s := LTText(m);
              |s| > 3 + |m.layer| && s[0] == 'L' && s[1] == 'T' && s[2] == '(' && s[3 + |m.layer|] == '|'
    {
      assert LTText(m) == "LT(" + (m.layer + ("|" + (m.gap + (m.keycode + LTEnd(m.newline)))));
    }
  }

  /** A text that does not start with `LT(` is not an LT call. */
  lemma NotLT(s: string)
    requires |s| >= 3 && !(s[0] == 'L' && s[1] == 'T' && s[2] == '(')
    ensures ParseLT(s).None?
  {
    LTTextShape();
  }

  /** Nothing that starts with another known function's head has one. */
  lemma NoKnownPrefix(s: string)
    requires |s| >= 2 && !KnownHead(s[0], s[1])
    ensures !HasKnownPrefix(s)
  {
    forall f | f in KnownFunctions ensures !StartsWith(s, f) {
      KnownFunctionShape(f);
    }
  }

  /** A written `FN(kc)` with a known FN becomes kc under FN. */
  lemma MakeUnary(fn: string, kc: string)
    requires fn in KnownFunctions && IsWord(kc)
    ensures MakeKeyCode(Str(fn + "(" + kc + ")")) == Ok(KeyCode(Str(kc), Some(UnaryFn(fn))))
  {
    var s := fn + "(" + kc + ")";
    KnownFunctionShape(fn);
    assert s[0] == fn[0] && s[1] == fn[1] && s[2] == fn[2];
    NotLT(s);
    assert StartsWith(s, fn);
    assert IsWord(fn) by {
      forall i | 0 <= i < |fn| ensures IsWordChar(fn[i]) {
        FunctionNameChars(fn, i);
      }
    }
    MatchCallComplete(fn, kc, "");
    assert s + "" == s;
  }

  /** The known function names consist of word characters. */
  lemma FunctionNameChars(f: string, i: int)
    requires f in KnownFunctions && 0 <= i < |f|
    ensures IsWordChar(f[i])
  {
  }

  /**
   * A name whose first two characters are neither `LT` nor the head of a
   * known function parses to itself, with no function.  This covers every
   * name the generator builds: `UM(...)`, `UP(...)` and `<Mode>_<name>`.
   */
  lemma MakePlain(s: string)
    requires |s| >= 3 && !(s[0] == 'L' && s[1] == 'T') && !KnownHead(s[0], s[1])
    ensures MakeKeyCode(Str(s)) == Ok(Plain(s))
  {
    NotLT(s);
    NoKnownPrefix(s);
  }

  /** Re-parsing the rendering of an LT keycode gives the rendering back. */
  lemma RenderReparseLT(layer: string, kc: string)
    requires IsWord(layer)
    ensures var text := "LT(" + layer + ", " + kc + ")";
      MakeKeyCode(Str(text)) == Ok(Plain(text))
  {
    var text := "LT(" + layer + ", " + kc + ")";
    var tail := ", " + kc + ")";
    assert text[3..] == layer + tail;
    WordPrefixOf(layer, tail);
    // the rendered text has `, ` where the pattern wants `|`
    LTTextShape();
    assert text[3 + |layer|] == ',';
    assert text[0] == 'L' && text[1] == 'T';
    NoKnownPrefix(text);
  }

  /** Re-parsing the rendering of a mod-tap keycode gives the same keycode. */
  lemma RenderReparseUnary(s: string)
    requires ParseLT(s).None? && ParseUnary(s).Ok? && ParseUnary(s).value.Unary?
    ensures var u := ParseUnary(s).value;
      MakeKeyCode(Str(u.fn + "(" + u.keycode + ")")) == Ok(KeyCode(Str(u.keycode), Some(UnaryFn(u.fn))))
  {
    var u := ParseUnary(s).value;
    var fn, arg := u.fn, u.keycode;
    assert MatchCall(s) == Some((fn, arg));
    var text := fn + "(" + arg + ")";
    var kf :| kf in KnownFunctions && StartsWith(s, kf);
    KnownFunctionShape(kf);
    // the function name is the longest word prefix, so it extends kf
    assert |fn| >= |kf|;
    assert StartsWith(text, kf) by {
      assert s[..|text|] == text;
      assert text[..|kf|] == s[..|kf|];
    }
    assert HasKnownPrefix(text);
    assert text[0] == kf[0] && text[1] == kf[1];
    NotLT(text);
    MatchCallComplete(fn, arg, "");
    assert text + "" == text;
  }

  /**
   * Rendering and re-parsing a parsed keycode gives back the same rendered
   * text: `KeyCode(k.kc) == k` for every keycode built from a string.
   */
  lemma RenderReparse(s: string)
    requires MakeKeyCode(Str(s)).Ok?
    ensures var k := MakeKeyCode(Str(s)).value;
      MakeKeyCode(Kc(k)).Ok? && Kc(MakeKeyCode(Kc(k)).value) == Kc(k)
  {
    var k := MakeKeyCode(Str(s)).value;
    match k.fn
    case None =>
    case Some(LTFn(layer)) =>
      var m := ParseLT(s).value;
      RenderReparseLT(layer, m.keycode);
    case Some(UnaryFn(fn)) =>
      RenderReparseUnary(s);
  }

  // ---------------------------------------------------------------------
  // The per-key table and the shift-mode classification.

  /**
   * One entry of the key table: the base-layer pair, the dead-key layer
   * pair and the symbol layer pair (a missing shifted value is None).
   */
  datatype Key = Key(base: Raw, shifted: Option<Raw>,
                     dkBase: Raw, dkShifted: Raw,
                     symBase: Raw, symShifted: Raw)

  /** Python truthiness of a table value: None, "" and 0 are false. */
  predicate Truthy(v: Option<Raw>) {
    match v
    case None => false
    case Some(Str(s)) => s != []
    case Some(Int(i)) => i != 0
  }

  /** `Key.get_kc`: the pair for a mode, a falsy shifted value replaced by the base. */
  function GetKc(key: Key, m: Mode): (r: (Raw, Raw))
    ensures m !in {Base, DK, Sym} ==> r == (Str(Trns), Str(Trns))
    ensures m == Base ==>
              r.0 == key.base
              && r.1 == (if Truthy(key.shifted) then key.shifted.value else key.base)
    ensures m == DK ==>
              r.0 == key.dkBase
              && r.1 == (if Truthy(Some(key.dkShifted)) then key.dkShifted else key.dkBase)
    ensures m == Sym ==>
              r.0 == key.symBase
              && r.1 == (if Truthy(Some(key.symShifted)) then key.symShifted else key.symBase)
  {
    var (kc, skc) :=
      match m
      case Base => (Some(key.base), key.shifted)
      case DK => (Some(key.dkBase), Some(key.dkShifted))
      case Sym => (Some(key.symBase), Some(key.symShifted))
      case _ => (Some(Str(Trns)), Some(Str(Trns)));
    (kc.value, if Truthy(skc) then skc.value else kc.value)
  }

  /** `Key.is_basic`: the mode's unshifted value is a keycode name. */
  predicate IsBasicIn(key: Key, m: Mode) {
    GetKc(key, m).0.Str?
  }

  /**
   * `get_shift_mod`: how shifting the key is produced.  Default when shift
   * adds nothing (the same key, the same key under its function, or a
   * transparent shifted code point); Override when both are keycode names;
   * UnicodeMap when both are code points; CustomKey for a mixed pair.
   */
  function GetShiftMode(kc: KeyCode, skc: KeyCode): (r: ShiftMode)
    ensures r == UnicodeMap <==> kc.raw.Int? && skc.raw.Int?
    ensures r == Override <==>
              (kc.raw.Str? && skc.raw.Str? && !Same(kc, skc) && !(kc.fn.Some? && kc.raw == skc.raw))
    ensures r == Override ==> Kc(kc) != Kc(skc)
    ensures r == CustomKey <==>
              ((kc.raw.Str? && skc.raw.Int? && !Same(kc, skc))
               || (kc.raw.Int? && skc.raw.Str? && !IsTransparent(skc)))
    ensures r == Default ==>
              (Same(kc, skc) || kc.raw == skc.raw || (kc.raw.Int? && IsTransparent(skc)))
  {
    if kc.raw.Str? && (Same(kc, skc) || (kc.fn.Some? && kc.raw == skc.raw)) then Default
    else if kc.raw.Str? && skc.raw.Str? then Override
    else if kc.raw.Int? && skc.raw.Int? then UnicodeMap
    else if kc.raw.Int? && IsTransparent(skc) then Default
    else CustomKey
  }
}
