# Moonlander keymaps: generator, key handlers and LED indicators

This project models the core of a QMK userspace for the ZSA Moonlander keyboard and proves properties of the model. It covers four parts.

- **The keymap generator**, `scripts/gen_keymap.py`:
  - It parses keycode strings, including the `LT(layer|kc)` layer-tap form and the unary mod-tap forms such as `LSFT_T(kc)`.
  - It classifies each (unshifted, shifted) pair of the Ergo-L key table into one of four shift strategies: default, key override, custom key, or unicode pair.
  - It builds the generated tables:
    - the unicode index, deduplicated in first-met order;
    - the alias table, where a conflicting redefinition raises;
    - the key overrides and the custom keys;
    - one layer grid per mode, where "a non-transparent key cannot be overwritten".
- **The generated key handlers** of the four keymaps `daedric`, `daedric_34`, `ergol` and `ergolfr`. These are each keymap's `process_record_user`, plus `daedric`'s autoshift hooks. The firmware calls they make are recorded as actions on a trace. From the trace, the registered keys, the modifiers held while a code point is sent and the layer moves can be read off.
- **The LED indicator logic** of `daedric_34/daedric.c`:
  - the unicode input mode chosen for the detected host, shown on status LEDs 4 to 6;
  - the top layer on LEDs 1 to 3, which read `layer + 1` in binary (LED 1 the low bit) for layers 0 to 6 and light none for a higher layer;
  - the per-layer colours of the 72-LED matrix, with LED 6 showing autocorrect on the Fn layer;
  - the tri-layer rule and the fallback to Qwerty when no host is connected.
- **The LED permutation**:
  - `LED_LAYOUT` and `LED_LAYOUT_ALL` of `daedric/config.h`;
  - the script `scripts/moonlander_leds.py`, which prints the parameter order of `LED_LAYOUT` from a drawing of the board. The macros in config.h were then edited by hand: the body wraps every parameter as `DEPAREN(l0), DEPAREN(l1), …` where the script prints a bare `l0, l1, …`, and `LED_LAYOUT_ALL` passes `color` where the script prints `(color)`.

The Python code that mutates objects in place is modelled as classes or methods over the same state:

| Python state | model |
|---|---|
| `Layer.rows`/`has_keys`/`max_length` | `Layers.Layer` |
| `Keymaps.final_layers` | `Keymaps.Keymaps` |
| the tables of `Gen` | `Generator.Gen` |

Each of these methods is proved equal to a pure specification function, and the lemmas about that function state what the source promises.

The firmware's mutable state is modelled the same way:

| firmware state | model |
|---|---|
| modifiers, layer state and the trace | `Firmware.Keyboard` |
| status LEDs, matrix colours and input mode | `DaedricLeds.Board` |

Modules:

- `Wrappers` (`wrappers.dfy`): holds Option, Result and Outcome, with the Python exceptions as errors.
- `Text` (`text.dfy`): holds the string methods `split`, `str.split()`, `strip`, `lstrip`, `join` and `str(int)`.
- `KeyCodes` (`keycode.dfy`): holds `Mode`, `KeyCode`, the two parsers, `get_shift_mod` and `Key.get_kc`.
- `Layers` (`layer.dfy`): holds class `Layer`.
- The layout parser `Keymaps._parse` is split three ways:
  - `LayoutText` holds the specification;
  - `LayoutFacts` holds the lemmas;
  - `LayoutParser` holds the loops.
- `Keymaps` (`keymaps.dfy`): holds class `Keymaps`.
- `UnicodeTable` (`unicode_table.dfy`): holds `_gen_unicode_map` as a function, with its lemmas.
- `GenRules` (`gen_rules.dfy`): holds `_alias`, `_create_*`, `_gen_kc` and `_gen`'s loop body as functions, with their lemmas.
- `Generator` (`gen.dfy`): holds class `Gen`.
- `Firmware` (`firmware.dfy`): holds the firmware primitives as trace actions, and the shared tail of `process_record_user`.
- The key handlers have one module per keymap:
  - `DaedricKeymap`, `Daedric34Keymap`, `ErgolKeymap` and `ErgolFrKeymap` (`keymap_*.dfy`);
  - `DaedricAutoshift` (`autoshift_daedric.dfy`).
- `LedLayout` (`led_layout.dfy`): holds the config.h macros.
- `MoonlanderLeds` (`moonlander_leds.dfy`): holds the script.
- `DaedricLeds` (`leds.dfy`): holds daedric.c.
- `Findings` (`findings.dfy`): holds two generator paths as written.

**Source over description.** Where the repository's description and its code differ, the model follows the code:

- In `daedric/keymap.c`, `_autoshift_press_user` returns true after it sends a shifted code point (line 915). `_autoshift_release_user` returns true on a shifted unicode release (line 1232). The generator's template returns false on both paths. `DaedricAutoshift` follows `keymap.c`.
- `LED_LAYOUT_ALL` in config.h passes `color` in every slot. The script would print `(color)`. The `HSV_C` colours are already parenthesised and `DEPAREN` strips one level, so both expand to the same list. The model takes a slot's argument to be the colour itself.

## Model

| member | source | states |
|---|---|---|
| KeyCodes.ModeName | scripts/gen_keymap.py:35-47 | a mode's name is a non-empty word, so `<Mode>_<name>` and `CKC_LMOVE_<Mode>` are identifiers |
| KeyCodes.Kc | scripts/gen_keymap.py:193-197 | the `kc` property: without a function it is the raw keycode, under a function it is a longer string that wraps the raw text |
| KeyCodes.Len | scripts/gen_keymap.py:220-221 | `len(k)` exists exactly when the rendering is a string, and is its length; a bare code point has no length |
| KeyCodes.WordPrefix | scripts/gen_keymap.py:72 | greedy `\w+`: the longest prefix of (ASCII) word characters |
| KeyCodes.SpacePrefix | scripts/gen_keymap.py:72 | greedy `\s*`: the longest prefix of (ASCII) whitespace |
| KeyCodes.ParseLT | scripts/gen_keymap.py:71-76 | a match is well formed and covers the whole text (`^…$`, with `$` allowed before a final newline) |
| KeyCodes.ParseLTComplete | scripts/gen_keymap.py:71-76 | every text `LT(word\|spaces word)` is matched, with exactly its layer, gap and keycode; with ParseLT this is both directions |
| KeyCodes.LTTextShape | scripts/gen_keymap.py:72 | where `LT(` and `\|` sit in a matched text |
| KeyCodes.NotLT | scripts/gen_keymap.py:71-76 | a text not starting with `LT(` gives None |
| KeyCodes.MatchCall | scripts/gen_keymap.py:136-137 | `re.match` of `(\w+)\((\w+)\)`: a match is a word, `(`, a word, `)` at the start of the text |
| KeyCodes.MatchCallComplete | scripts/gen_keymap.py:136-137 | every `fn(kc)` with word parts is matched, whatever follows |
| KeyCodes.KnownFunctionShape | scripts/gen_keymap.py:83-123 | every known mod-tap name has at least five characters, a head no other generated name starts with, and no `(` |
| KeyCodes.FunctionNameChars | scripts/gen_keymap.py:83-123 | the known names consist of word characters |
| KeyCodes.NoKnownPrefix | scripts/gen_keymap.py:131-135 | a text with a foreign two-letter head has no known prefix |
| KeyCodes.ParseUnary | scripts/gen_keymap.py:130-138 | None exactly when no known name prefixes the text; an error (`match.group` on None) exactly when one does but the call pattern fails; otherwise the matched `fn(kc)` starts the text |
| KeyCodes.MakeKeyCode | scripts/gen_keymap.py:150-160 | a code point is kept as is with no function; without a function the raw keycode is the input; a string stays a string |
| KeyCodes.MakeLT | scripts/gen_keymap.py:150-160 | `KeyCode("LT(l\|kc)")` holds kc under `LT(l)` and renders `LT(l, kc)` |
| KeyCodes.MakeUnary | scripts/gen_keymap.py:125-141 | `KeyCode("FN(kc)")` for a known FN holds kc under FN |
| KeyCodes.MakePlain | scripts/gen_keymap.py:150-160 | a name with neither head, such as `UM(…)`, `UP(…)` and `<Mode>_<name>`, is a plain keycode of itself |
| KeyCodes.RenderReparseLT | scripts/gen_keymap.py:71-79 | the rendering `LT(l, kc)` no longer matches the LT pattern: it parses as a plain name |
| KeyCodes.RenderReparseUnary | scripts/gen_keymap.py:130-141 | re-parsing a rendered mod-tap gives the same function and keycode |
| KeyCodes.RenderReparse | scripts/gen_keymap.py:150-210 | for every keycode built from a string, `KeyCode(k.kc) == k` (same rendering) |
| KeyCodes.GetKc | scripts/gen_keymap.py:270-285 | Base, DK and Sym give their stored pair, a falsy shifted value replaced by the unshifted one; every other mode gives `(TRNS, TRNS)` |
| KeyCodes.GetShiftMode | scripts/gen_keymap.py:224-244 | each of UnicodeMap, Override and CustomKey exactly when its case of `get_shift_mod` applies; Default only when shift adds nothing; the two keycodes of an Override pair render differently (a transparent skc is then replaced by kc, see CreateOverrideRecords) |
| Text.NatText | scripts/moonlander_leds.py:2-7 | a number's decimal text is non-empty and all digits |
| Text.NatTextInjective | scripts/moonlander_leds.py:2-7 | different numbers are written differently |
| Text.LStripShape | scripts/gen_keymap.py:343 | `lstrip` drops exactly a leading run of (ASCII) whitespace |
| Text.RStripShape | scripts/gen_keymap.py:348 | `rstrip` drops exactly a trailing run of (ASCII) whitespace |
| Text.StripShape | scripts/gen_keymap.py:348 | `strip` leaves no (ASCII) whitespace at either end |
| Text.StripWord | scripts/moonlander_leds.py:14 | `strip` keeps a non-empty word as it is |
| Text.Split | scripts/gen_keymap.py:340 | `split(sep)` gives at least one piece |
| Text.SplitPieces | scripts/gen_keymap.py:340-348 | no piece contains the separator |
| Text.JoinSplit | scripts/gen_keymap.py:340 | joining the pieces gives the text back |
| Text.SplitJoin | scripts/gen_keymap.py:340 | separator-free pieces, joined and split, come back: `split` inverts `join` |
| Text.Words | scripts/moonlander_leds.py:13 | `str.split()` on (ASCII) whitespace: non-empty words without whitespace, the first starting where the text does |
| Text.WordsSeparated | scripts/moonlander_leds.py:13 | a whitespace character separates the words on either side |
| Text.WordsOfWord | scripts/moonlander_leds.py:13 | a text without whitespace is one word, or none if empty |
| Text.Spaces | scripts/moonlander_leds.py:2-7 | n blanks |
| Text.WordsAfterSpaces | scripts/moonlander_leds.py:13 | leading blanks add no word |
| Text.WordsOfBlank | scripts/moonlander_leds.py:13-16 | a blank line has no words |
| Text.WordsAppendWord | scripts/moonlander_leds.py:13 | a word after blanks is one more word, at the end |
| Text.WordsAcrossSpaces | scripts/moonlander_leds.py:13 | blanks separate the words before and after them |
| Layers.CellsContain | scripts/gen_keymap.py:325 | every cell of the grid is in `chain(*rows)` |
| Layers.CellOf | scripts/gen_keymap.py:325 | every cell of `chain(*rows)` comes from a position of the grid |
| Layers.MaxWidthIsMax | scripts/gen_keymap.py:302-307 | `max_length` bounds every cell's length and is attained by one (or is 0) |
| Layers.AnyKeyIsExists | scripts/gen_keymap.py:303-306 | `has_keys` iff some cell is not transparent |
| Layers.AnyKeyStep | scripts/gen_keymap.py:306-307 | one more cell updates `has_keys` and `max_length` as the loop body does |
| Layers.CellsStep | scripts/gen_keymap.py:304-305 | one more row appends its cells |
| Layers.AnyKeyAppend | scripts/gen_keymap.py:304-307 | scanning two runs of cells in turn gives `has_keys` as the or, and `max_length` as the max, of scanning each |
| Layers.ScanRow | scripts/gen_keymap.py:305-307 | the inner loop leaves `has_keys` and `max_length` as computed over all cells scanned so far |
| Layers.InitialValid | scripts/gen_keymap.py:299-307 | a fresh layer keeps the invariant: each cell fits `max_length`, and a layer without keys is all transparent |
| Layers.Layer.constructor | scripts/gen_keymap.py:299-307 | the fields are the rows and their `has_keys`/`max_length` |
| Layers.Stored | scripts/gen_keymap.py:317 | the stored cell has no function, the same rendering, and compares equal to the key |
| Layers.SetKeyTransparent | scripts/gen_keymap.py:310-311 | a transparent key changes nothing and never fails |
| Layers.SetKeyFails | scripts/gen_keymap.py:309-318 | both directions: it raises iff the key is not transparent and the position is off the grid, or the target holds a different non-transparent key, or the key is a bare code point; "not transparent" is raised exactly in the middle case |
| Layers.SetKeyWrites | scripts/gen_keymap.py:313-318 | a successful write changes only the target cell, to the key's rendering, sets `has_keys`, and makes `max_length` the max of the old value and the key's length |
| Layers.SetKeyValid | scripts/gen_keymap.py:309-318 | every call, failing or not, keeps the layer invariant |
| Layers.SetKeyIdempotent | scripts/gen_keymap.py:309-318 | setting the same key a second time succeeds and changes nothing |
| Layers.Layer.SetKey | scripts/gen_keymap.py:309-318 | the new rows, `has_keys`, `max_length` and the outcome are those of SetKeyOn |
| Layers.Center | scripts/gen_keymap.py:324-325 | `format(s, "^w")`: width `max(w, \|s\|)`, s in the middle, padding with blanks, the extra blank on the right |
| Layers.Spaces | scripts/gen_keymap.py:324-325 | n blanks of padding |
| Layers.FormatCells | scripts/gen_keymap.py:320-326 | one formatted cell per cell of the layer |
| Layers.FormatAligned | scripts/gen_keymap.py:320-326 | on a valid layer every cell without a function is formatted exactly `max_length` wide |
| Layers.CellsBounded | scripts/gen_keymap.py:302-318 | on a valid layer no cell is wider than `max_length` |
| LayoutText.FilterTruthy | scripts/gen_keymap.py:346-350 | `filter(None, …)` keeps at most the keycodes it is given |
| LayoutText.LayoutLines | scripts/gen_keymap.py:932-940 | the text of a layout is one comma-joined line per row |
| LayoutText.BaseKeys | scripts/gen_keymap.py:370-373 | `base_keys` yields one entry per cell of the base layout |
| LayoutText.BaseKeysPlaced | scripts/gen_keymap.py:370-373 | the i-th entry is the i-th cell in row-major order, paired with a position inside the grid that holds it |
| LayoutText.BaseKeysDistinct | scripts/gen_keymap.py:370-373 | no position is yielded twice |
| LayoutText.BaseKeysCells | scripts/gen_keymap.py:370-373 | `base_keys` yields each cell once, with its own position, row-major, no position twice |
| LayoutFacts.ParseTokensRendered | scripts/gen_keymap.py:348 | every keycode of a line renders as a non-empty string |
| LayoutFacts.RenderedOfString | scripts/gen_keymap.py:348 | a keycode built from a non-empty name renders non-empty |
| LayoutFacts.FilterKeepsParsed | scripts/gen_keymap.py:346-350 | the filter drops none of the parsed keycodes |
| LayoutFacts.ParseLineRendered | scripts/gen_keymap.py:343-350 | each cell of a parsed line renders non-empty |
| LayoutFacts.WellParsedAppend | scripts/gen_keymap.py:351-352 | appending a non-empty row of rendered keys keeps the grid well parsed |
| LayoutFacts.ParseLinesWellParsed | scripts/gen_keymap.py:339-353 | `_parse` only yields non-empty rows of non-empty keycodes |
| LayoutFacts.WellParsedCells | scripts/gen_keymap.py:339-353 | every cell of a parsed grid renders as a string, as `Layer.__init__` needs |
| LayoutFacts.ParseLinesSnoc | scripts/gen_keymap.py:342-352 | one more line: its failure fails the parse, an empty row is dropped, a non-empty one is appended in order |
| LayoutFacts.ParseLinesFails | scripts/gen_keymap.py:342-352 | the first failing line fails the whole layout, with its error |
| LayoutFacts.SkippedLine | scripts/gen_keymap.py:343-352 | a comment line or a blank line adds no row |
| LayoutFacts.BlankHeadDropped | scripts/gen_keymap.py:348 | a blank first piece is dropped |
| LayoutFacts.BlankPieceDropped | scripts/gen_keymap.py:348 | a blank piece anywhere is dropped and the other pieces keep their order |
| LayoutFacts.StripToken | scripts/gen_keymap.py:343-348 | stripping leaves a token as it is |
| LayoutFacts.ParseTokensOf | scripts/gen_keymap.py:348 | a row of tokens parses to their keycodes, one each |
| LayoutFacts.ParsesToCons | scripts/gen_keymap.py:348 | the parse of the first token and the rest combine |
| LayoutFacts.ParseLineOf | scripts/gen_keymap.py:343-350 | a line of tokens joined by commas parses to the tokens' keycodes |
| LayoutFacts.NotComment | scripts/gen_keymap.py:344 | a line whose first character is not `/` is no comment |
| LayoutFacts.LStripNonSpace | scripts/gen_keymap.py:343 | a line starting with a non-blank keeps its text under `lstrip` |
| LayoutFacts.JoinStartsWith | scripts/gen_keymap.py:343-344 | a joined line starts with its first token's first character |
| LayoutFacts.JoinNoNewline | scripts/gen_keymap.py:340 | a comma-joined row of tokens holds no newline |
| LayoutFacts.ParseLinesOf | scripts/gen_keymap.py:339-353 | rows of tokens, one per line, parse back to one row of keycodes per line |
| LayoutFacts.ParseLayoutOf | scripts/gen_keymap.py:339-353 | round trip: writing rows of tokens as comma-separated lines and parsing the text gives back exactly those rows |
| LayoutParser.Parse | scripts/gen_keymap.py:339-353 | the loop's result is ParseLayout's, and it is well parsed |
| LayoutParser.ParseEachLine | scripts/gen_keymap.py:342-353 | the loop over the lines computes ParseLines, well parsed |
| Keymaps.Keymaps.constructor | scripts/gen_keymap.py:332-336 | the transparent layer is the parse of the filled template; no layers yet |
| Keymaps.Keymaps.SetBase | scripts/gen_keymap.py:367-368 | the base layer becomes the parsed layout, or the parse error is returned and nothing changes |
| Keymaps.Keymaps.AddLayer | scripts/gen_keymap.py:355-365 | an existing layer is returned (an error if a preset is given); otherwise a fresh layer from the preset or the transparent layout is recorded for the mode; a preset that fails to parse changes nothing; no two modes ever share a layer |
| Keymaps.Keymaps.HasKeys | scripts/gen_keymap.py:375-376 | defined exactly for modes with a layer (a KeyError otherwise), and is that layer's `has_keys` |
| UnicodeTable.SanitizeSpec | scripts/gen_keymap.py:576 | the name keeps its length; exactly the spaces and hyphens become `_` |
| UnicodeTable.SanitizeIdempotent | scripts/gen_keymap.py:576 | an index name has no space or hyphen, so sanitizing again changes nothing |
| UnicodeTable.DedupElems | scripts/gen_keymap.py:569-572 | deduplication keeps every code point met, and no other |
| UnicodeTable.ElemsSnoc | scripts/gen_keymap.py:569-572 | one more code point met adds it to the set |
| UnicodeTable.DedupDistinct | scripts/gen_keymap.py:569-572 | no code point is listed twice |
| UnicodeTable.DedupFirst | scripts/gen_keymap.py:569-572 | the first code point met is listed first |
| UnicodeTable.DedupSnoc | scripts/gen_keymap.py:569-572 | a code point met before adds nothing; a new one goes last |
| UnicodeTable.VisitTracks | scripts/gen_keymap.py:568-582 | one visited keycode keeps the tracking invariant |
| UnicodeTable.VisitSeen | scripts/gen_keymap.py:570-571 | `continue` on a code point met before keeps the invariant |
| UnicodeTable.VisitNew | scripts/gen_keymap.py:572-582 | a new code point is appended and mapped to its sanitized character name |
| UnicodeTable.VisitPairTracks | scripts/gen_keymap.py:565-582 | one (kc, skc) pair keeps the invariant, kc before skc |
| UnicodeTable.PlainPoints | scripts/gen_keymap.py:566-568 | `KeyCode(raw)` is a code point exactly when raw is one, with the same value |
| UnicodeTable.WalkTracks | scripts/gen_keymap.py:547-582 | when the walk completes, the entries list each code point of the table once, in first-met order, each named after its sanitized character name, and `unicode_to_idx` maps each one to that index |
| UnicodeTable.WalkSnoc | scripts/gen_keymap.py:563-582 | the walk stops at the first exception and otherwise visits the next pair |
| UnicodeTable.WalkAppend | scripts/gen_keymap.py:563-582 | walking two runs of pairs in turn is walking their concatenation |
| UnicodeTable.ModePairsSnoc | scripts/gen_keymap.py:564-565 | `for m in Mode`: one more mode's pair |
| UnicodeTable.ModePairsAppend | scripts/gen_keymap.py:564-565 | the pairs of two runs of modes concatenate |
| UnicodeTable.KeyPairsSnoc | scripts/gen_keymap.py:563-565 | one more key of the table adds its pairs for every mode |
| UnicodeTable.KeyPairsAppend | scripts/gen_keymap.py:563-565 | the pairs of two runs of keys concatenate |
| GenRules.AliasFirst | scripts/gen_keymap.py:846-851 | the first registration stores name→value and returns `KeyCode(name)` |
| GenRules.AliasAgain | scripts/gen_keymap.py:846-849 | re-registering an equal value leaves every table unchanged |
| GenRules.AliasConflict | scripts/gen_keymap.py:846-848 | registering a different value raises and changes nothing |
| GenRules.AliasKeeps | scripts/gen_keymap.py:843-851 | a registered non-empty alias is never redefined, and only the alias table can change |
| GenRules.CreateOverrideRecords | scripts/gen_keymap.py:588-595 | the override records mode, name and kc under `override[m][name]`; `skc` becomes `UM(idx)` for a code point and kc when transparent; a keycode-name skc never fails; only the override table changes |
| GenRules.ModeKeyNamePlain | scripts/gen_keymap.py:633-635 | `KeyCode(f"{m.name}_{name}")` is a plain keycode of that name |
| GenRules.CreateCustomKeyRecords | scripts/gen_keymap.py:625-635 | both directions: a custom key is created iff skc is a code point and neither side has a function; then the pair is recorded under `<Mode>_<name>` and that plain name is returned; otherwise nothing changes |
| GenRules.GenKcResult | scripts/gen_keymap.py:853-877 | by shift mode: Default on a keycode name returns kc with no table changed; Override returns kc and records exactly kc→skc (kc if skc is transparent); a created CustomKey returns `<Mode>_<name>` |
| GenRules.GenKcKeeps | scripts/gen_keymap.py:853-877 | `_gen_kc` never changes the unicode index or map, and keeps every non-empty alias |
| GenRules.GenStepKeeps | scripts/gen_keymap.py:881-897 | one base key keeps the layer invariant, the unicode tables and every alias |
| GenRules.GenStepsKeep | scripts/gen_keymap.py:879-897 | filling a layer keeps its invariant, never touches the unicode tables and never redefines an alias |
| GenRules.GenStepSkips | scripts/gen_keymap.py:882-886 | outside Base, a base key without a table entry changes nothing |
| GenRules.GenStepsSnoc | scripts/gen_keymap.py:881-897 | the loop runs the next base key unless an earlier one raised |
| GenRules.GenStepsStops | scripts/gen_keymap.py:881-897 | once a step raises, the rest of the loop does not run |
| Generator.CheckKeys | scripts/gen_keymap.py:542-545 | passes iff every table entry is a keycode name in Base; otherwise raises "base keymaps need to be basic" |
| Generator.Gen.constructor | scripts/gen_keymap.py:527-540 | every table starts empty, for a checked key table |
| Generator.Gen.Record | scripts/gen_keymap.py:568-582 | the body of `for k in (kc, skc)` is Visit on the loop state and `unicode_to_idx`; no other table changes |
| Generator.Gen.RecordPair | scripts/gen_keymap.py:565-582 | one pair is VisitPair |
| Generator.Gen.RecordModes | scripts/gen_keymap.py:564-582 | one key over all modes is the Walk of its mode pairs |
| Generator.Gen.GenUnicodeMap | scripts/gen_keymap.py:547-586 | the whole nested loop is the Walk of every key's pairs; the map is kept only when it completes; no other table changes |
| Generator.Gen.Alias | scripts/gen_keymap.py:843-851 | the tables and result are AliasOn's (the `KeyCode(name)` return, see Findings) |
| Generator.Gen.CreateOverride | scripts/gen_keymap.py:588-595 | the tables and result are CreateOverrideOn's |
| Generator.Gen.CreateCustomKey | scripts/gen_keymap.py:625-635 | the tables and result are CreateCustomKeyOn's |
| Generator.Gen.GenKc | scripts/gen_keymap.py:853-877 | the tables and result are GenKcOn's |
| Generator.Gen.GenKey | scripts/gen_keymap.py:882-897 | one iteration of `_gen` is GenStep on the tables and the layer |
| Generator.Gen.FillLayer | scripts/gen_keymap.py:881-897 | the loop of `_gen` is GenSteps |
| Generator.Gen.GenLayer | scripts/gen_keymap.py:879-897 | `_gen` gets or makes (transparent) the mode's layer and fills it as GenSteps over `base_keys` says, starting from that mode's previous layer state; the layer states of all other modes are unchanged, and no two modes share a layer |
| Generator.Gen.LayerNamesListed | scripts/gen_keymap.py:915-925 | a mode is listed in `enum layers` and the keymap iff its layer has keys |
| Generator.Gen.GenMode | scripts/gen_keymap.py:879-897 | on the tables and every mode's layer state, `_gen(m)` is ModeStep: only mode m's entry changes, to its filled layer; afterwards the mode has a layer and no other mode gained one |
| Generator.ModeStepsFrame | scripts/gen_keymap.py:905-906 | the loop over modes gives layers only to the modes it visits, leaves the layer state of every mode it does not visit as it was, and on success every visited mode has a layer |
| Generator.ModeStepsSnoc | scripts/gen_keymap.py:905-906 | the loop over modes runs the next mode's `_gen` unless an earlier one raised |
| Generator.ModeStepsStops | scripts/gen_keymap.py:905-906 | once a mode's `_gen` raises, no later mode is generated |
| Generator.Gen.GenModes | scripts/gen_keymap.py:905-906 | the tables and every mode's layer state after `for m in Mode: self._gen(m)` are ModeSteps over all modes, so each mode's layer is its fill from the tables its turn found; on success every mode has a layer |
| Generator.Gen.Generate | scripts/gen_keymap.py:899-915 | on success every mode has a layer, the tables and layer states are ModeSteps over all modes from the tables the unicode step left, and the listed layers are exactly those with keys, in mode order |
| Firmware.HeldOfNoKey | keyboards/zsa/moonlander/keymaps/daedric/keymap.c:580-588 | a unicode send or weak mods register no key |
| Firmware.HeldRegisterUnregister | keyboards/zsa/moonlander/keymaps/daedric/keymap.c:590-596 | register then unregister leaves the held keys as they were |
| Firmware.ShiftedPressSendsBare | keyboards/zsa/moonlander/keymaps/daedric/keymap.c:580-588 | a shifted press returns false, registers no key, and sends the code point with no modifier held |
| Firmware.CustomKeyBalanced | keyboards/zsa/moonlander/keymaps/daedric/keymap.c:580-597 | with the same shift state at press and release, the release unregisters exactly what the press registered |
| Firmware.ShiftChangeLeavesKeyHeld | keyboards/zsa/moonlander/keymaps/daedric/keymap.c:580-597 | pressed unshifted and released shifted, a custom key's keycode stays registered (shift is read again at release) |
| Firmware.Keyboard.TapUnicode | keyboards/zsa/moonlander/keymaps/daedric/keymap.c:582-587 | mods are saved, cleared, the code point sent with none held, and the saved mods restored exactly; layers unchanged |
| Firmware.Keyboard.CustomKeyTail | keyboards/zsa/moonlander/keymaps/daedric/keymap.c:580-597 | the tail's return value and trace are CustomKeyEffect's; mods and layers unchanged |
| DaedricKeymap.Ordinal | keyboards/zsa/moonlander/keymaps/daedric/keymap.c:99-297 | every `unicode_names` enumerator is an index `unicode_map` has an entry for |
| DaedricKeymap.LayerMoveKey | keyboards/zsa/moonlander/keymaps/daedric/keymap.c:409-437 | each layer's `CKC_LMOVE_<layer>` moves to that layer |
| DaedricKeymap.Intercepts | keyboards/zsa/moonlander/keymaps/daedric/keymap.c:405-577 | the switch handles exactly the custom keycodes; a move happens only on a layer's move key |
| DaedricKeymap.ProcessRecordUser | keyboards/zsa/moonlander/keymaps/daedric/keymap.c:400-598 | an unhandled keycode returns true with no action; `CKC_LMOVE_X` makes X the only layer and returns false; a custom key does CustomKeyEffect with its kc and in-range index; mods always end as they began |
| DaedricAutoshift.UnicodeCasesStandAlone | keyboards/zsa/moonlander/keymaps/daedric/keymap.c:611-903 | a key with a unicode case on Base has none on DK or Sym, and DK's cases are all plain |
| DaedricAutoshift.ReleaseMatchesPress | keyboards/zsa/moonlander/keymaps/daedric/keymap.c:937-1229 | the release hook's three switches are the press hook's, case for case |
| DaedricAutoshift.PressDefaults | keyboards/zsa/moonlander/keymaps/daedric/keymap.c:600-614 | both directions: the hook returns false iff Qwerty, Media or Fn is on, or an active Base, DK or Sym switch has no case for the key |
| DaedricAutoshift.PressPrecedence | keyboards/zsa/moonlander/keymaps/daedric/keymap.c:611-903 | when it reaches its tail, the codes are those of the last switch that ran: Sym over DK over Base |
| DaedricAutoshift.PressSwitchesReady | keyboards/zsa/moonlander/keymaps/daedric/keymap.c:607-903 | at the tail `kc` and `skc_or_skc_idx` are assigned and `tap_unicode` is set iff the value is a unicode index |
| DaedricAutoshift.AutoshiftPressCore | keyboards/zsa/moonlander/keymaps/daedric/keymap.c:600-916 | the return value tells whether a switch case ran; the trace grows by the press tail; mods and layers unchanged |
| DaedricAutoshift.AutoshiftReleaseCore | keyboards/zsa/moonlander/keymaps/daedric/keymap.c:926-1237 | the same for release |
| DaedricAutoshift.AutoshiftPressUser | keyboards/zsa/moonlander/keymaps/daedric/keymap.c:917-924 | the trace is PressActions: the core's actions, or weak shift and the tap key when it returns false |
| DaedricAutoshift.AutoshiftReleaseUser | keyboards/zsa/moonlander/keymaps/daedric/keymap.c:1238-1241 | the trace is ReleaseActions: the core's actions, or the tap key's release |
| DaedricAutoshift.TailsBalanced | keyboards/zsa/moonlander/keymaps/daedric/keymap.c:905-915 | the release tail (lines 1231-1236) unregisters exactly what the press tail registered; a code point is sent with no modifier held; release only unregisters |
| DaedricAutoshift.ActionsBySwitches | keyboards/zsa/moonlander/keymaps/daedric/keymap.c:600-1241 | press and release take the same path: both reach their tails with the same assigned locals, or both fall back to the tap key |
| DaedricAutoshift.DefaultBalanced | keyboards/zsa/moonlander/keymaps/daedric/keymap.c:917-924 | the fallback press (weak shift when shifted, then the tap key) and its release (lines 1238-1241) leave no key held and send no code point |
| DaedricAutoshift.AutoshiftBalanced | keyboards/zsa/moonlander/keymaps/daedric/keymap.c:600-1241 | on the same layers and shift decision, press then release leaves no key held, a code point is sent bare, and release only unregisters |
| Daedric34Keymap.Ordinal | keyboards/zsa/moonlander/keymaps/daedric_34/keymap.c:79-277 | every `unicode_names` enumerator indexes `unicode_map` |
| Daedric34Keymap.LayerMoveKey | keyboards/zsa/moonlander/keymaps/daedric_34/keymap.c:405-443 | all eight move keys, SymQwerty and Nav included, move to their layer |
| Daedric34Keymap.Intercepts | keyboards/zsa/moonlander/keymaps/daedric_34/keymap.c:401-563 | only the 8 move keys and the 24 `Sym_EKC_*` keys are handled |
| Daedric34Keymap.ProcessRecordUser | keyboards/zsa/moonlander/keymaps/daedric_34/keymap.c:396-584 | as for daedric: pass-through, move, or the custom tail with its in-range index; mods restored |
| ErgolKeymap.Ordinal | keyboards/zsa/moonlander/keymaps/ergol/keymap.c:92-290 | every `unicode_names` enumerator indexes `unicode_map` |
| ErgolKeymap.LayerMoveKey | keyboards/zsa/moonlander/keymaps/ergol/keymap.c:378-396 | the four move keys move to Base, DK, Sym and Fn |
| ErgolKeymap.Intercepts | keyboards/zsa/moonlander/keymaps/ergol/keymap.c:374-531 | the switch handles exactly the custom keycodes |
| ErgolKeymap.ProcessRecordUser | keyboards/zsa/moonlander/keymaps/ergol/keymap.c:369-552 | pass-through, move, or the custom tail; mods restored |
| ErgolFrKeymap.Ordinal | keyboards/zsa/moonlander/keymaps/ergolfr/keymap.c:94-282 | every `unicode_names` enumerator indexes `unicode_map` |
| ErgolFrKeymap.LayerMoveKey | keyboards/zsa/moonlander/keymaps/ergolfr/keymap.c:371-389 | the four move keys move to their layer |
| ErgolFrKeymap.Intercepts | keyboards/zsa/moonlander/keymaps/ergolfr/keymap.c:367-544 | the switch handles exactly the custom keycodes |
| ErgolFrKeymap.ProcessRecordUser | keyboards/zsa/moonlander/keymaps/ergolfr/keymap.c:362-565 | pass-through, move, or the custom tail; mods restored |
| LedLayout.SlotOfParamRow0 | keyboards/zsa/moonlander/keymaps/daedric/config.h:115 | for the first 14 parameters, the slot of `l<Param(p)>` is p |
| LedLayout.SlotOfParamRow1 | keyboards/zsa/moonlander/keymaps/daedric/config.h:115 | the same for parameters 14-27 |
| LedLayout.SlotOfParamRow2 | keyboards/zsa/moonlander/keymaps/daedric/config.h:115 | the same for parameters 28-41 |
| LedLayout.SlotOfParamRow3 | keyboards/zsa/moonlander/keymaps/daedric/config.h:115 | the same for parameters 42-53 |
| LedLayout.SlotOfParamRow4 | keyboards/zsa/moonlander/keymaps/daedric/config.h:115 | the same for parameters 54-65 |
| LedLayout.SlotOfParamRow5 | keyboards/zsa/moonlander/keymaps/daedric/config.h:115 | the same for parameters 66-71 |
| LedLayout.ParamOfSlotBlock0 | keyboards/zsa/moonlander/keymaps/daedric/config.h:115 | for LEDs 0-11, the parameter at `Slot(i)` is named `l<i>` |
| LedLayout.ParamOfSlotBlock1 | keyboards/zsa/moonlander/keymaps/daedric/config.h:115 | the same for LEDs 12-23 |
| LedLayout.ParamOfSlotBlock2 | keyboards/zsa/moonlander/keymaps/daedric/config.h:115 | the same for LEDs 24-35 |
| LedLayout.ParamOfSlotBlock3 | keyboards/zsa/moonlander/keymaps/daedric/config.h:115 | the same for LEDs 36-47 |
| LedLayout.ParamOfSlotBlock4 | keyboards/zsa/moonlander/keymaps/daedric/config.h:115 | the same for LEDs 48-59 |
| LedLayout.ParamOfSlotBlock5 | keyboards/zsa/moonlander/keymaps/daedric/config.h:115 | the same for LEDs 60-71 |
| LedLayout.ParamBijective | keyboards/zsa/moonlander/keymaps/daedric/config.h:115-116 | the 72 parameters name each of l0…l71 exactly once: Param and Slot are inverse bijections of 0..71 |
| LedLayout.ParamInjective | keyboards/zsa/moonlander/keymaps/daedric/config.h:115 | no two parameters reach the same LED |
| LedLayout.Expand | keyboards/zsa/moonlander/keymaps/daedric/config.h:115-116 | 72 values out; the p-th argument reaches LED `Param(p)`, and LED i receives the argument in slot `Slot(i)` |
| LedLayout.ExpandAll | keyboards/zsa/moonlander/keymaps/daedric/config.h:118 | every one of the 72 LEDs gets the colour |
| MoonlanderLeds.LineTexts | scripts/moonlander_leds.py:1-8 | one line of text per row of the drawing |
| MoonlanderLeds.LayoutIndices | scripts/moonlander_leds.py:11-17 | the nested loop computes Indices of `layout.split("\n")` |
| MoonlanderLeds.AppendColumns | scripts/moonlander_leds.py:13-17 | the inner loop appends ColumnIndices of the line's columns |
| MoonlanderLeds.ColumnIndicesOfTokens | scripts/moonlander_leds.py:13-17 | strip and the empty test drop nothing from `split()`'s words: each becomes `l<word>`, in order |
| MoonlanderLeds.BlankLineAddsNothing | scripts/moonlander_leds.py:12-16 | a blank line contributes nothing |
| MoonlanderLeds.LineWords | scripts/moonlander_leds.py:2-13 | the words of a spaced line of the drawing are its numbers, in decimal, in order |
| MoonlanderLeds.LineHasNoNewline | scripts/moonlander_leds.py:2-7 | a line of the drawing contains no newline |
| MoonlanderLeds.RowIndices | scripts/moonlander_leds.py:17 | one index per number of the row |
| MoonlanderLeds.LineIndices | scripts/moonlander_leds.py:12-17 | a spaced line adds `l<n>` for each of its numbers, in order |
| MoonlanderLeds.Row0FollowsParams | scripts/moonlander_leds.py:2 | line 2 is spaced, has 14 numbers, and they are parameters 0-13 of `LED_LAYOUT` |
| MoonlanderLeds.Row1FollowsParams | scripts/moonlander_leds.py:3 | line 3: 14 numbers, parameters 14-27 |
| MoonlanderLeds.Row2FollowsParams | scripts/moonlander_leds.py:4 | line 4: 14 numbers, parameters 28-41 |
| MoonlanderLeds.Row3FollowsParams | scripts/moonlander_leds.py:5 | line 5: 12 numbers, parameters 42-53 |
| MoonlanderLeds.Row4FollowsParams | scripts/moonlander_leds.py:6 | line 6: 12 numbers, parameters 54-65 |
| MoonlanderLeds.Row5FollowsParams | scripts/moonlander_leds.py:7 | line 7: 6 numbers, parameters 66-71 |
| MoonlanderLeds.DrawingLines | scripts/moonlander_leds.py:1-12 | `layout.split("\n")` gives the drawing's lines between two empty ones |
| MoonlanderLeds.IndicesOfLines | scripts/moonlander_leds.py:11-17 | over the lines of a spaced drawing the loop collects the numbers' names in reading order |
| MoonlanderLeds.IndicesOfDrawing | scripts/moonlander_leds.py:1-17 | for any spaced drawing, `layout_indices` names its numbers in reading order |
| MoonlanderLeds.LayoutRows | scripts/moonlander_leds.py:1-8 | the script's six rows are spaced and read one after the other |
| MoonlanderLeds.RowsFollowParams | scripts/moonlander_leds.py:2-7 | read in order, the rows give 72 names, the p-th being `l<Param(p)>` |
| MoonlanderLeds.LayoutMatchesConfig | scripts/moonlander_leds.py:1-17 | the script's `layout_indices` are exactly config.h's `LED_LAYOUT` parameter list |
| MoonlanderLeds.LayoutIsPermutation | scripts/moonlander_leds.py:1-17 | 72 indices, `l<i>` at position `Slot(i)` for each LED i, no name twice: a permutation of l0…l71 |
| MoonlanderLeds.IndicesOrderedDistinct | scripts/moonlander_leds.py:30 | `indices_ordered` has n names, no two alike |
| MoonlanderLeds.EachColorArity | scripts/moonlander_leds.py:31 | `each_color` splits at its commas into exactly n arguments `(color)` |
| MoonlanderLeds.GeneratedArity | scripts/moonlander_leds.py:11-31 | for the script's layout, the parameter list, the body and `LED_LAYOUT_ALL`'s arguments all have 72 entries |
| DaedricLeds.ModeLeds | keyboards/zsa/moonlander/keymaps/daedric_34/daedric.c:208-229 | one value for each of LEDs 4-6 (what they show: HostShownOnLeds, ModeLedsTell) |
| DaedricLeds.HostShownOnLeds | keyboards/zsa/moonlander/keymaps/daedric_34/daedric.c:208-229 | every host lights exactly one of LEDs 4-6: LED 4 iff Linux or unknown, LED 5 iff Windows, LED 6 iff macOS or iOS |
| DaedricLeds.ModeLedsTell | keyboards/zsa/moonlander/keymaps/daedric_34/daedric.c:208-229 | both directions: two modes look alike iff equal, both Windows-like, or both outside the lit families (all three on) |
| DaedricLeds.LayerLeds | keyboards/zsa/moonlander/keymaps/daedric_34/daedric.c:172-203 | one value for each of LEDs 1-3 (what they show: LayerLedsRead) |
| DaedricLeds.LayerLedsRead | keyboards/zsa/moonlander/keymaps/daedric_34/daedric.c:172-203 | LEDs 1-3, LED 1 the low bit, read `layer + 1` for layers 0-6 and 0 for any other |
| DaedricLeds.HighestBelowIsHighest | keyboards/zsa/moonlander/keymaps/daedric_34/daedric.c:169 | `biton32`: the result is on and no layer above it is, or no layer is on and it is 0 |
| DaedricLeds.TopLayerOfDeclared | keyboards/zsa/moonlander/keymaps/daedric_34/daedric.c:50-59 | on declared layers the top layer is the highest on, at most Fn, or 0 when none is |
| DaedricLeds.LayerAt | keyboards/zsa/moonlander/keymaps/daedric_34/daedric.c:50-59 | the layer whose enumerator has value n |
| DaedricLeds.LayerStateSetUserEffect | keyboards/zsa/moonlander/keymaps/daedric_34/daedric.c:61-69 | only Fn can change, only when Base is off and Qwerty on; then Fn is on iff SymQwerty and Nav both are |
| DaedricLeds.LayerStateSetUserIdempotent | keyboards/zsa/moonlander/keymaps/daedric_34/daedric.c:61-69 | applying the hook to its result changes nothing |
| DaedricLeds.HousekeepingEffect | keyboards/zsa/moonlander/keymaps/daedric_34/daedric.c:235-241 | afterwards Qwerty is on iff it was or no host is connected; the state changes only to Qwerty alone; a second round changes nothing |
| DaedricLeds.HousekeepingTaskUser | keyboards/zsa/moonlander/keymaps/daedric_34/daedric.c:235-241 | the layer state becomes AfterHousekeeping's; mods and trace unchanged |
| DaedricLeds.Ledmap | keyboards/zsa/moonlander/keymaps/daedric_34/daedric.c:71-134 | every layer has a colour for each of the 72 LEDs |
| DaedricLeds.DarkLayers | keyboards/zsa/moonlander/keymaps/daedric_34/daedric.c:112-113 | DK and Sym (`LED_LAYOUT_ALL(BLACK)`) leave every LED black |
| DaedricLeds.ColorOf | keyboards/zsa/moonlander/keymaps/daedric_34/daedric.c:138-149 | an LED is off iff its entry is all zero; otherwise it is lit with that colour |
| DaedricLeds.Board.SetLedForInputMode | keyboards/zsa/moonlander/keymaps/daedric_34/daedric.c:208-229 | LEDs 4-6 become ModeLeds(mode), LEDs 1-3 and the matrix unchanged |
| DaedricLeds.Board.InitLedForInputMode | keyboards/zsa/moonlander/keymaps/daedric_34/daedric.c:20-38 | the host's mode goes both to the firmware and to LEDs 4-6 |
| DaedricLeds.Board.PaintLayer | keyboards/zsa/moonlander/keymaps/daedric_34/daedric.c:137-150 | every LED 0..71 gets ColorOf its entry, written once each in index order |
| DaedricLeds.Board.SetLayerColor | keyboards/zsa/moonlander/keymaps/daedric_34/daedric.c:136-162 | the matrix shows the layer's ledmap, LED 6 green/red for autocorrect on Fn; the writes are 0..71 once each, then 6 on Fn |
| DaedricLeds.Board.ShowLayerNumber | keyboards/zsa/moonlander/keymaps/daedric_34/daedric.c:172-203 | LEDs 1-3 become LayerLeds(top), LEDs 4-6 unchanged |
| DaedricLeds.Board.RgbMatrixIndicatorsUser | keyboards/zsa/moonlander/keymaps/daedric_34/daedric.c:164-206 | disabled: false and nothing changes; otherwise true, the top layer's colours on the matrix and its number on LEDs 1-3, LEDs 4-6 kept |
| Findings.AliasAsWrittenBreaksGen | scripts/gen_keymap.py:843-851 | as written, re-registering an equal alias returns a `str`, which `set_key` rejects with AttributeError |
| Findings.AliasAsWrittenExample | scripts/gen_keymap.py:843-851 | a concrete alias `DK_EKC_SPC` met twice |
| Findings.AliasRepeatable | scripts/gen_keymap.py:843-851 | corrected: registering the same alias again returns the same keycode and changes nothing |
| Findings.SetKeyTwiceAsWritten | scripts/gen_keymap.py:309-318 | as written, setting a key a second time on a cell raises AttributeError (`prev.is_transparent` on the stored `str`) |
| Findings.SetKeyTwiceExample | scripts/gen_keymap.py:309-318 | a concrete case: `KC_A` set twice on one cell |

## Left out

- Command-line and output plumbing is not modelled: argparse, the module-level driver and `print` in both scripts.
- The C text the generator assembles from its templates is not modelled. This covers `file_tpl`, `_gen_override`, `_gen_custom_keys`, `_gen_custom_autoshift` and the text of `Layer.format`'s result. The tables behind that text are modelled, and `Generate` stops after the layers.
- Layer.format without a template (`", ".join(cols)`) is not modelled. The generator only calls it with the layout template.
- `unicodedata.name` and `chr` are foreign calls. They are a parameter `NameOf`, an arbitrary function that may fail.
- The firmware primitives are abstract state changes on a trace or a board, not the firmware itself:
  - `register_code16`, `unregister_code16`, `register_unicode`/`unicodemap_get_code_point`, `layer_move`, `get_mods`/`clear_mods`/`set_mods` and `add_weak_mods`;
  - `ML_LED_*`, `rgb_matrix_set_color` and `set_unicode_input_mode`.
- `update_tri_layer_state` follows QMK's documented definition.
- `biton32` is modelled on a set of layers.
- `IS_RETRO(keycode) ? keycode & 0xFF : keycode` is a parameter `tap`, the keycode the firmware computes.
- `detected_host_os()`, `is_transport_connected()`, `autocorrect_is_enabled()` and `keyboard_config.disable_layer_led` are parameters.
- DaedricLeds.ColorOf: `hsv_to_rgb` and the float brightness scaling are not modelled. A lit LED carries the ledmap's HSV colour.
- `suspend_power_down_user` is a timing loop around `wait_ms` and is not modelled.
- `keyboard_post_init_user`, `unicode_input_mode_set_user` and `suspend_wakeup_init_user` are not modelled separately. They only call `init_led_for_input_mode`, `set_led_for_input_mode` and `rgb_matrix_indicators_user`, which are modelled.
- `autocorrect_data.h` is generated data. The trie walk that reads it belongs to the firmware's autocorrect feature, not to this repository.
- Some static tables are data and are not transcribed:
  - the `keymaps[]` `LAYOUT(...)` grids;
  - the `key_override_t` constants;
  - the `unicode_map` code-point values (`unicode_names` is transcribed, and a send carries the enumerator's index);
  - the `ergol_keys` table.

  The generator is modelled for any key table.
- The `ledmap` entries are transcribed. The `LED_LAYOUT(...)` argument lists are written in visual order and reordered through `LedLayout.Expand`.
- `keyboards/zsa/moonlander/keymaps/ergol-fr/config.h` and the non-LED defines of `daedric/config.h` are configuration. `DEPAREN`'s preprocessor mechanics are not modelled; a slot's argument is taken as its value.
- MoonlanderLeds.Layout: the layout literal is modelled as its six rows of (leading blanks, number) cells, and `Drawing` puts them back into the triple-quoted text. The text is not written out character by character.
- MoonlanderLeds.EachColorArity needs n ≥ 1. For n = 0, `",".join([])` is the empty string, which splits into one empty piece.
- LedLayout.Expand: the permutation is stated as a bijection between parameter slots and LEDs, not as a multiset equality.
- Text.IsSpace: only the ASCII characters Python counts as whitespace are modelled: blank, tab, newline, carriage return, vertical tab, form feed and the separators U+001C to U+001F. Python 3's `\s`, `str.isspace`, `strip()` and `split()` also treat Unicode spaces such as U+00A0 as whitespace. The key table and the layout texts in `scripts/gen_keymap.py` are ASCII.
- Text.IsWordChar: only ASCII letters, digits and `_` are modelled. Python 3's `\w` also matches Unicode letters and digits, so a text such as `LT(Fn|é)` matches the LT pattern in Python but not in the model. Every key name in `scripts/gen_keymap.py` is ASCII.
- KeyCodes.WordPrefix: `\w+` over ASCII word characters only, as for Text.IsWordChar.
- KeyCodes.SpacePrefix: `\s*` over ASCII whitespace only, as for Text.IsSpace.
- Text.LStripShape: `lstrip` is stated for ASCII whitespace only, as for Text.IsSpace.
- Text.RStripShape: `rstrip` is stated for ASCII whitespace only, as for Text.IsSpace.
- Text.StripShape: `strip` is stated for ASCII whitespace only, as for Text.IsSpace.
- Text.Words: `str.split()` is stated for ASCII whitespace only, as for Text.IsSpace.
- Generator.Gen.Alias, GenRules.AliasOn, Layers.Layer.SetKey and Layers.Stored follow the corrected behaviour of the two rows under "## Findings". When an alias is registered again, the model returns `KeyCode(name)` where the script returns the bare `name`. A cell stores a keycode that renders like `key.kc`, where the script stores the `str` itself. Layers.SetKeyFails, Layers.SetKeyIdempotent and Findings.AliasRepeatable describe these corrected paths. Findings.AliasAsWritten and Findings.SetKeyAsWritten model the code as written.
- `Gen._alias`'s `isinstance(value, KeyCode)` check always passes in the model: the value is typed `KeyCode`.
- `Key.is_basic` and `KeyCode.is_unicode`/`has_function`/`raw_keycode`/`replace_keycode`/`remove_function` are field reads and writes on the datatypes. They are not separate members.
- `daedric/keymap.c` line 1 is not C, a leftover debug line, and is ignored.
- DaedricAutoshift.PressSwitchesReady, DaedricAutoshift.PressCoreActions, DaedricAutoshift.ReleaseCoreActions, DaedricAutoshift.AutoshiftPressCore, DaedricAutoshift.AutoshiftReleaseCore, DaedricAutoshift.PressActions, DaedricAutoshift.ReleaseActions, DaedricAutoshift.AutoshiftPressUser, DaedricAutoshift.AutoshiftReleaseUser, DaedricAutoshift.ActionsBySwitches and DaedricAutoshift.AutoshiftBalanced require every layer that is on to be a declared one (0 to `Fn`). With an undeclared top layer, `_autoshift_press_user` and `_autoshift_release_user` would read an uninitialised `kc`. The firmware only ever turns on declared layers.
- DaedricLeds.Board.RgbMatrixIndicatorsUser requires the layers that are on to be declared ones. With an undeclared top layer, `rgb_matrix_indicators_user` would index `ledmap` out of range. The firmware only ever turns on declared layers.
- Keymaps.Keymaps.constructor takes the template already filled with transparent keys, and starts `baseLayer` as the empty grid. In the script, `base_layer` does not exist until `set_base` runs, and reading it earlier raises AttributeError.

## Findings

| source | as written | input that shows it | evidently intended | confidence | as-written member | corrected member |
|---|---|---|---|---|---|---|
| scripts/gen_keymap.py:843-851 | `_alias` returns the bare `name` (a `str`) when an equal alias is already registered; `_gen` then passes it to `set_key`, which reads `key.is_transparent` | a key table entry whose DK code point derives alias `DK_EKC_SPC` for a key the base layout places twice (alias `DK_EKC_SPC` already holding `UM(NBSP)`) | return `KeyCode(name)` on every path | not executed | Findings.AliasAsWrittenBreaksGen, Findings.AliasAsWrittenExample | Findings.AliasRepeatable (GenRules.AliasOn, used by Generator.Gen.Alias) |
| scripts/gen_keymap.py:309-318 | `set_key` stores `key.kc`, a `str`, in the grid; setting a key again on that cell reads `prev.is_transparent` on the `str` | `KC_A` set twice at (0, 0) of a one-cell transparent layer | store a keycode object, so that a repeated identical write succeeds | not executed | Findings.SetKeyTwiceAsWritten, Findings.SetKeyTwiceExample | Layers.SetKeyIdempotent (Layers.SetKeyOn stores Layers.Stored(key), a plain `KeyCode`) |
