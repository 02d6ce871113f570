/** The layout parser of scripts/gen_keymap.py as the source writes it. */
module LayoutParser {
  import opened Wrappers
  import opened Text
  import opened Layers
  import opened LayoutText
  import opened LayoutFacts

  /** `Keymaps._parse` as the source writes it: split, then a loop over the lines. */
  method Parse(layout: string) returns (r: Result<Grid>)
    ensures r == ParseLayout(layout)
    ensures r.Ok? ==> WellParsed(r.value)
  {
    var lines := Split(layout, '\n');
    r := ParseEachLine(lines);
  }

  /** The loop of `Keymaps._parse`: one row per line that yields keycodes. */
  method ParseEachLine(lines: seq<string>) returns (r: Result<Grid>)
    ensures r == ParseLines(lines)
    ensures r.Ok? ==> WellParsed(r.value)
  {
    var rows: Grid := [];
    var i := 0;
    assert lines[..i] == [];
    while i < |lines|
      invariant 0 <= i <= |lines|
      invariant ParseLines(lines[..i]) == Ok(rows)
    {
      var keys := ParseLine(lines[i]);
      ParseLinesSnoc(lines, i, rows, keys);
      if keys.Err? {
        ParseLinesFails(lines, i + 1);
        return Err(keys.error);
      }
      if keys.value != [] {
        rows := rows + [keys.value];
      }
      assert ParseLines(lines[..i + 1]) == Ok(rows);
      i := i + 1;
    }
    assert lines[..i] == lines;
    ParseLinesWellParsed(lines);
    return Ok(rows);
  }
}
