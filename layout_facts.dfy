/** What the layout parser of scripts/gen_keymap.py computes. */
module LayoutFacts {
  import opened Wrappers
  import opened Text
  import opened KeyCodes
  import opened Layers
  import opened LayoutText

  /** Every parsed keycode renders as a non-empty string. */
  lemma {:induction false} ParseTokensRendered(pieces: seq<string>)
    requires ParseTokens(pieces).Ok?
    ensures forall i :: 0 <= i < |ParseTokens(pieces).value| ==>
              Rendered(ParseTokens(pieces).value[i]) && Width(ParseTokens(pieces).value[i]) > 0
  {
    if pieces != [] {
      var t := Strip(pieces[0]);
      ParseTokensRendered(pieces[1..]);
      if t != [] {
        RenderedOfString(t);
      }
    }
  }

  /** A keycode built from a non-empty name renders as a non-empty string. */
  lemma RenderedOfString(t: string)
    requires t != [] && MakeKeyCode(Str(t)).Ok?
    ensures Rendered(MakeKeyCode(Str(t)).value) && Width(MakeKeyCode(Str(t)).value) > 0
  {
    var k := MakeKeyCode(Str(t)).value;
    if k.fn.None? {
      assert Kc(k) == Str(t);
    }
  }

  /** The filter never drops a parsed keycode: they all render non-empty. */
  lemma {:induction false} FilterKeepsParsed(ks: seq<KeyCode>)
    requires forall i :: 0 <= i < |ks| ==> Width(ks[i]) > 0
    ensures FilterTruthy(ks) == ks
  {
    if ks != [] {
      FilterKeepsParsed(ks[1..]);
    }
  }

  /** The row a line contributes renders cell by cell as non-empty strings. */
  lemma ParseLineRendered(line: string)
    requires ParseLine(line).Ok?
    ensures forall c :: 0 <= c < |ParseLine(line).value| ==>
              Rendered(ParseLine(line).value[c]) && Width(ParseLine(line).value[c]) > 0
  {
    var l := LStrip(line);
    if !StartsWith(l, "//") {
      var ks := ParseTokens(Split(l, ',')).value;
      ParseTokensRendered(Split(l, ','));
      FilterKeepsParsed(ks);
    }
  }

  lemma WellParsedAppend(g: Grid, ks: seq<KeyCode>)
    requires WellParsed(g) && ks != []
    requires forall c :: 0 <= c < |ks| ==> Rendered(ks[c]) && Width(ks[c]) > 0
    ensures WellParsed(g + [ks])
  {
    assert forall r :: 0 <= r < |g| ==> (g + [ks])[r] == g[r];
  }

  lemma {:induction false} ParseLinesWellParsed(lines: seq<string>)
    requires ParseLines(lines).Ok?
    ensures WellParsed(ParseLines(lines).value)
  {
    if lines != [] {
      var front := lines[..|lines| - 1];
      ParseLinesWellParsed(front);
      var line := lines[|lines| - 1];
      ParseLineRendered(line);
      var g := ParseLines(front).value;
      var ks := ParseLine(line).value;
      if ks != [] {
        WellParsedAppend(g, ks);
      }
    }
  }

  lemma WellParsedCells(g: Grid)
    requires WellParsed(g)
    ensures forall k :: k in Cells(g) ==> Rendered(k)
  {
    forall k | k in Cells(g) ensures Rendered(k) {
      var c := CellOf(g, k);
    }
  }

  /** One more line: its row, if any, is appended to the rows before it. */
  lemma ParseLinesSnoc(lines: seq<string>, i: nat, rows: Grid, keys: Result<seq<KeyCode>>)
    requires i < |lines| && ParseLines(lines[..i]) == Ok(rows) && ParseLine(lines[i]) == keys
    ensures keys.Err? ==> ParseLines(lines[..i + 1]) == Err(keys.error)
    ensures keys.Ok? ==> ParseLines(lines[..i + 1]) == Ok(if keys.value == [] then rows else rows + [keys.value])
  {
    assert lines[..i + 1][..i] == lines[..i];
  }

  /** A failing line makes the whole layout fail. */
  lemma {:induction false} ParseLinesFails(lines: seq<string>, n: nat)
    requires 0 < n <= |lines| && ParseLines(lines[..n]).Err?
    ensures ParseLines(lines).Err? && ParseLines(lines).error == ParseLines(lines[..n]).error
    decreases |lines| - n
  {
    if n < |lines| {
      assert lines[..n + 1][..n] == lines[..n];
      ParseLinesFails(lines, n + 1);
    } else {
      assert lines[..n] == lines;
    }
  }


  lemma StripToken(t: string)
    requires t != [] && NoSpace(t)
    ensures LStrip(t) == t && Strip(t) == t
  {
  }

  lemma {:induction false} ParseTokensOf(row: seq<string>)
    requires Tokens(row)
    ensures ParseTokens(row).Ok? && ParsesTo(row, ParseTokens(row).value)
  {
    if row != [] {
      StripToken(row[0]);
      var tail := row[1..];
      assert Tokens(tail) by {
        forall i | 0 <= i < |tail| ensures Token(tail[i]) && MakeKeyCode(Str(tail[i])).Ok? {
          assert tail[i] == row[i + 1];
        }
      }
      ParseTokensOf(tail);
      var ks := ParseTokens(tail).value;
      var r0 := MakeKeyCode(Str(row[0]));
      assert r0.Ok?;
      var all := [r0.value] + ks;
      assert ParseTokens(row) == Ok(all);
      ParsesToCons(row, r0.value, ks);
    }
  }

  lemma ParsesToCons(row: seq<string>, k: KeyCode, ks: seq<KeyCode>)
    requires row != [] && MakeKeyCode(Str(row[0])) == Ok(k) && ParsesTo(row[1..], ks)
    ensures ParsesTo(row, [k] + ks)
  {
    var build := (t: string) => MakeKeyCode(Str(t));
    PointwiseCons(build, (x: KeyCode) => Ok(x), row, k, ks);
  }

  /** A pointwise relation between two sequences extends to the heads put in front. */
  lemma PointwiseCons<A, B, C>(f: A -> C, g: B -> C, xs: seq<A>, y: B, ys: seq<B>)
    requires xs != [] && f(xs[0]) == g(y)
    requires |ys| == |xs| - 1 && forall i :: 0 <= i < |ys| ==> f(xs[1..][i]) == g(ys[i])
    ensures |[y] + ys| == |xs| && forall i :: 0 <= i < |xs| ==> f(xs[i]) == g(([y] + ys)[i])
  {
    forall i | 0 <= i < |xs| ensures f(xs[i]) == g(([y] + ys)[i]) {
      if i > 0 {
        assert xs[i] == xs[1..][i - 1] && ([y] + ys)[i] == ys[i - 1];
      }
    }
  }

  /** A line of tokens joined by commas parses to the tokens' keycodes. */
  lemma ParseLineOf(row: seq<string>)
    requires row != [] && Tokens(row)
    ensures ParseLine(Join(row, ',')).Ok? && ParsesTo(row, ParseLine(Join(row, ',')).value)
  {
    var line := Join(row, ',');
    JoinStartsWith(row, ',');
    StripToken(row[0]);
    LStripNonSpace(line);
    NotComment(line);
    SplitJoin(row, ',');
    ParseTokensOf(row);
    ParseTokensRendered(row);
    FilterKeepsParsed(ParseTokens(row).value);
  }

  lemma NotComment(s: string)
    requires s != [] && s[0] != '/'
    ensures !StartsWith(s, "//")
  {
    if 2 <= |s| {
      assert s[..2][0] != "//"[0];
    }
  }

  lemma LStripNonSpace(s: string)
    requires s != [] && !IsSpace(s[0])
    ensures LStrip(s) == s
  {
  }

  lemma {:induction false} JoinStartsWith(ps: seq<string>, sep: char)
    requires |ps| >= 1 && ps[0] != []
    ensures Join(ps, sep) != [] && Join(ps, sep)[0] == ps[0][0]
  {
  }

  /**
   * Writing rows of tokens one line each, commas between tokens, and parsing
   * the text gives back one row of keycodes per line: `_parse` inverts the
   * layout the generator's templates are written in.
   */
  lemma ParseLayoutOf(rows: seq<seq<string>>)
    requires |rows| >= 1
    requires forall r :: 0 <= r < |rows| ==> rows[r] != [] && Tokens(rows[r])
    ensures var g := ParseLayout(Join(LayoutLines(rows), '\n'));
      g.Ok? && |g.value| == |rows| && forall r :: 0 <= r < |rows| ==> ParsesTo(rows[r], g.value[r])
  {
    var lines := LayoutLines(rows);
    forall r | 0 <= r < |lines| ensures '\n' !in lines[r] {
      JoinNoNewline(rows[r]);
    }
    SplitJoin(lines, '\n');
    ParseLinesOf(rows);
  }

  lemma {:induction false} JoinNoNewline(row: seq<string>)
    requires |row| >= 1 && forall i :: 0 <= i < |row| ==> Token(row[i])
    ensures '\n' !in Join(row, ',')
  {
    if |row| > 1 {
      JoinNoNewline(row[1..]);
    }
    assert !IsSpace(',');
    assert !IsSpace(row[0][0]) by { assert row[0][0] in row[0]; }
    forall j | 0 <= j < |row[0]| ensures row[0][j] != '\n' {
      assert !IsSpace(row[0][j]);
    }
  }

  lemma {:induction false} ParseLinesOf(rows: seq<seq<string>>)
    requires forall r :: 0 <= r < |rows| ==> rows[r] != [] && Tokens(rows[r])
    ensures var g := ParseLines(LayoutLines(rows));
      g.Ok? && |g.value| == |rows| && forall r :: 0 <= r < |rows| ==> ParsesTo(rows[r], g.value[r])
  {
    if rows != [] {
      var n := |rows| - 1;
      var front := rows[..n];
      ParseLinesOf(front);
      var lines := LayoutLines(rows);
      assert lines[..n] == LayoutLines(front);
      var g := ParseLines(LayoutLines(front)).value;
      ParseLineOf(rows[n]);
      var ks := ParseLine(lines[n]).value;
      ParseLinesSnoc(lines, n, g, ParseLine(lines[n]));
      assert lines[..n + 1] == lines;
      RowsAppended(rows, g, ks);
    }
  }

  lemma RowsAppended(rows: seq<seq<string>>, g: Grid, ks: seq<KeyCode>)
    requires rows != [] && |g| == |rows| - 1
    requires forall r :: 0 <= r < |g| ==> ParsesTo(rows[r], g[r])
    requires ParsesTo(rows[|rows| - 1], ks)
    ensures forall r :: 0 <= r < |rows| ==> ParsesTo(rows[r], (g + [ks])[r])
  {
  }

  /** A line of whitespace only leaves nothing once stripped. */
  lemma {:induction false} BlankStripsEmpty(s: string)
    requires AllSpace(s)
    ensures LStrip(s) == []
  {
    if s != [] {
      assert AllSpace(s[1..]) by { assert forall i :: 0 <= i < |s[1..]| ==> s[1..][i] == s[i + 1]; }
      BlankStripsEmpty(s[1..]);
    }
  }

  /** A comment line and a blank line add no row: the rows before them stand. */
  lemma SkippedLine(lines: seq<string>, line: string)
    requires StartsWith(LStrip(line), "//") || AllSpace(line)
    ensures ParseLines(lines + [line]) == ParseLines(lines)
  {
    assert (lines + [line])[..|lines|] == lines;
    if !StartsWith(LStrip(line), "//") {
      BlankStripsEmpty(line);
      assert Split(LStrip(line), ',') == [""];
      assert ParseTokens([""]) == ParseTokens([]);
    }
  }

  /** The keycodes of a line depend on its first piece and on those of the rest. */
  lemma ParseTokensCons(x: string, xs: seq<string>, ys: seq<string>)
    requires ParseTokens(xs) == ParseTokens(ys)
    ensures ParseTokens([x] + xs) == ParseTokens([x] + ys)
  {
    assert ([x] + xs)[0] == x && ([x] + xs)[1..] == xs;
    assert ([x] + ys)[0] == x && ([x] + ys)[1..] == ys;
  }

  lemma BlankHeadDropped(p: string, b: seq<string>)
    requires Strip(p) == []
    ensures ParseTokens([p] + b) == ParseTokens(b)
  {
    assert ([p] + b)[0] == p && ([p] + b)[1..] == b;
  }

  lemma BlankPieceStep(a: seq<string>, p: string, b: seq<string>)
    requires a != [] && ParseTokens(a[1..] + ([p] + b)) == ParseTokens(a[1..] + b)
    ensures ParseTokens(a + ([p] + b)) == ParseTokens(a + b)
  {
    ConsSplit(a, [p] + b);
    ConsSplit(a, b);
    ParseTokensCons(a[0], a[1..] + ([p] + b), a[1..] + b);
  }

  lemma ConsSplit<T>(a: seq<T>, c: seq<T>)
    requires a != []
    ensures a + c == [a[0]] + (a[1..] + c)
  {
  }

  /** A blank piece between two commas is dropped; the pieces around it keep their order. */
  lemma {:induction false} BlankPieceDropped(a: seq<string>, p: string, b: seq<string>)
    requires Strip(p) == []
    ensures ParseTokens(a + ([p] + b)) == ParseTokens(a + b)
  {
    if a == [] {
      assert a + ([p] + b) == [p] + b;
      assert a + b == b;
      BlankHeadDropped(p, b);
    } else {
      BlankPieceDropped(a[1..], p, b);
      BlankPieceStep(a, p, b);
    }
  }
}
