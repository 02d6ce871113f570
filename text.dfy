/**
 * The Python string operations the generator scripts rely on: whitespace and
 * word characters of the regular expressions, `str.strip`, `str.lstrip`,
 * `str.split(sep)`, `str.split()` and `str.startswith`.  Only ASCII is
 * modelled.
 */
module Text {

  /** `str.isspace()` on ASCII characters (also what `\s` matches). */
  predicate IsSpace(c: char) {
    c == ' ' || c == '\t' || c == '\n' || c == '\r' || c == '\U{0B}' || c == '\U{0C}'
    || c == '\U{1C}' || c == '\U{1D}' || c == '\U{1E}' || c == '\U{1F}'
  }

  /** The ASCII characters matched by the regular-expression class `\w`. */
  predicate IsWordChar(c: char) {
    ('a' <= c <= 'z') || ('A' <= c <= 'Z') || ('0' <= c <= '9') || c == '_'
  }

  /** A string `\w+` matches in full. */
  predicate IsWord(s: string) {
    |s| > 0 && forall i :: 0 <= i < |s| ==> IsWordChar(s[i])
  }

  /** A string `\s*` matches in full. */
  predicate AllSpace(s: string) {
    forall i :: 0 <= i < |s| ==> IsSpace(s[i])
  }

  predicate NoSpace(s: string) {
    forall i :: 0 <= i < |s| ==> !IsSpace(s[i])
  }

  /** Decimal digits of a natural number, as `str()` writes them. */
  function NatText(n: nat): (r: string)
    ensures r != [] && forall i :: 0 <= i < |r| ==> '0' <= r[i] <= '9'
  {
    var d := ['0' + (n % 10) as char];
    if n < 10 then d else NatText(n / 10) + d
  }

  /** `s.startswith(p)`. */
  predicate StartsWith(s: string, p: string) {
    |p| <= |s| && s[..|p|] == p
  }

  /** `s.lstrip()`: leading whitespace removed. */
  function LStrip(s: string): string {
    if s != [] && IsSpace(s[0]) then LStrip(s[1..]) else s
  }

  /** `s.rstrip()`: trailing whitespace removed. */
  function RStrip(s: string): string {
    if s != [] && IsSpace(s[|s| - 1]) then RStrip(s[..|s| - 1]) else s
  }

  /** `s.strip()`. */
  function Strip(s: string): string {
    RStrip(LStrip(s))
  }

  /** What `lstrip` leaves is the suffix after a run of whitespace, and starts with no whitespace. */
  lemma {:induction false} LStripShape(s: string)
    ensures var r := LStrip(s);
      |r| <= |s| && r == s[|s| - |r|..] && AllSpace(s[..|s| - |r|]) && (r == [] || !IsSpace(r[0]))
  {
    if s != [] && IsSpace(s[0]) {
      LStripShape(s[1..]);
      var r := LStrip(s[1..]);
      var k := |s| - |r|;
      assert s[1..][|s| - 1 - |r|..] == s[k..];
      forall i | 0 <= i < k ensures IsSpace(s[i]) {
        if i > 0 {
          assert s[i] == s[1..][..k - 1][i - 1];
        }
      }
    }
  }

  /** What `rstrip` leaves is the prefix before a run of whitespace, and ends with no whitespace. */
  lemma {:induction false} RStripShape(s: string)
    ensures var r := RStrip(s);
      |r| <= |s| && r == s[..|r|] && AllSpace(s[|r|..]) && (r == [] || !IsSpace(r[|r| - 1]))
  {
    if s != [] && IsSpace(s[|s| - 1]) {
      var front := s[..|s| - 1];
      RStripShape(front);
      var r := RStrip(front);
      assert RStrip(s) == r;
      assert front[..|r|] == s[..|r|];
      forall i | |r| <= i < |s| ensures IsSpace(s[i]) {
        if i < |s| - 1 {
          assert s[i] == front[|r|..][i - |r|];
        }
      }
    }
  }

  /** What `strip` leaves neither starts nor ends with whitespace. */
  lemma StripShape(s: string)
    ensures var r := Strip(s); r == [] || (!IsSpace(r[0]) && !IsSpace(r[|r| - 1]))
  {
    LStripShape(s);
    RStripShape(LStrip(s));
  }

  /** `s.split(sep)` for a one-character separator. */
  function Split(s: string, sep: char): (r: seq<string>)
    ensures |r| >= 1
  {
    if s == [] then [""]
    else
      var rest := Split(s[1..], sep);
      if s[0] == sep then [""] + rest
      else [[s[0]] + rest[0]] + rest[1..]
  }

  /** No piece of a split contains the separator. */
  lemma {:induction false} SplitPieces(s: string, sep: char)
    ensures forall i :: 0 <= i < |Split(s, sep)| ==> sep !in Split(s, sep)[i]
  {
    if s != [] {
      SplitPieces(s[1..], sep);
    }
  }

  /** `sep.join(ps)`, the inverse of Split. */
  function Join(ps: seq<string>, sep: char): string
    requires |ps| >= 1
  {
    if |ps| == 1 then ps[0] else ps[0] + [sep] + Join(ps[1..], sep)
  }

  lemma {:induction false} JoinSplit(s: string, sep: char)
    ensures Join(Split(s, sep), sep) == s
  {
    if s != [] {
      var rest := Split(s[1..], sep);
      JoinSplit(s[1..], sep);
      if s[0] != sep {
        JoinConsChar(s[0], rest, sep);
      } else {
        JoinConsEmpty(rest, sep);
      }
      assert s == [s[0]] + s[1..];
    }
  }

  /** A character put in front of the first piece comes first in the joined text. */
  lemma JoinConsChar(c: char, rest: seq<string>, sep: char)
    requires |rest| >= 1
    ensures Join([[c] + rest[0]] + rest[1..], sep) == [c] + Join(rest, sep)
  {
    var ps := [[c] + rest[0]] + rest[1..];
    assert ps[0] == [c] + rest[0] && ps[1..] == rest[1..];
    if |rest| > 1 {
      assert Join(rest, sep) == rest[0] + [sep] + Join(rest[1..], sep);
      assert Join(ps, sep) == ([c] + rest[0]) + [sep] + Join(rest[1..], sep);
    }
  }

  /** An empty first piece makes the joined text start with the separator. */
  lemma JoinConsEmpty(rest: seq<string>, sep: char)
    requires |rest| >= 1
    ensures Join([""] + rest, sep) == [sep] + Join(rest, sep)
  {
    var ps := [""] + rest;
    assert ps[0] == "" && ps[1..] == rest;
  }

  /** Split is the only way to cut a string into separator-free pieces. */
  lemma {:induction false} SplitJoin(ps: seq<string>, sep: char)
    requires |ps| >= 1
    requires forall i :: 0 <= i < |ps| ==> sep !in ps[i]
    ensures Split(Join(ps, sep), sep) == ps
    decreases |ps|, |ps[0]|
  {
    if ps[0] == [] {
      if |ps| == 1 {
      } else {
        SplitJoin(ps[1..], sep);
        assert Join(ps, sep) == [sep] + Join(ps[1..], sep);
        assert ([sep] + Join(ps[1..], sep))[1..] == Join(ps[1..], sep);
        assert ps == [""] + ps[1..];
      }
    } else {
      var ps' := [ps[0][1..]] + ps[1..];
      TailPiecesFree(ps, sep);
      SplitJoin(ps', sep);
      JoinHead(ps, sep);
      HeadReassembled(ps);
    }
  }

  /** Taking the first character off the first piece keeps every piece separator-free. */
  lemma TailPiecesFree(ps: seq<string>, sep: char)
    requires ps != [] && ps[0] != []
    requires forall i :: 0 <= i < |ps| ==> sep !in ps[i]
    ensures var ps' := [ps[0][1..]] + ps[1..];
      (forall i :: 0 <= i < |ps'| ==> sep !in ps'[i]) && ps[0][0] != sep
  {
    var ps' := [ps[0][1..]] + ps[1..];
    forall i | 0 <= i < |ps'| ensures sep !in ps'[i] {
      if i == 0 {
        assert forall k :: 0 <= k < |ps[0][1..]| ==> ps[0][1..][k] == ps[0][k + 1];
      } else {
        assert ps'[i] == ps[i];
      }
    }
    assert ps[0][0] in ps[0];
  }

  /** The joined text starts with the first piece's first character. */
  lemma JoinHead(ps: seq<string>, sep: char)
    requires ps != [] && ps[0] != []
    ensures var ps' := [ps[0][1..]] + ps[1..];
      var s := Join(ps, sep); s != [] && s[0] == ps[0][0] && s[1..] == Join(ps', sep)
  {
    var c := ps[0][0];
    var ps' := [ps[0][1..]] + ps[1..];
    var s := Join(ps, sep);
    assert s == [c] + Join(ps', sep) by {
      if |ps| == 1 {
        assert ps[0] == [c] + ps[0][1..];
      } else {
        assert ps'[1..] == ps[1..];
        assert ps[0] == [c] + ps[0][1..];
        assert Join(ps', sep) == ps[0][1..] + [sep] + Join(ps[1..], sep);
      }
    }
  }

  /** Putting the first character back on the first piece gives the pieces back. */
  lemma HeadReassembled<T>(ps: seq<seq<T>>)
    requires ps != [] && ps[0] != []
    ensures var ps' := [ps[0][1..]] + ps[1..]; ps == [[ps[0][0]] + ps'[0]] + ps'[1..]
  {
    var ps' := [ps[0][1..]] + ps[1..];
    assert ps'[0] == ps[0][1..] && ps'[1..] == ps[1..];
    assert [ps[0][0]] + ps[0][1..] == ps[0];
  }

  /** `s.split()`: the maximal runs of non-whitespace characters, in order. */
  function Words(s: string): (r: seq<string>)
    ensures forall i :: 0 <= i < |r| ==> r[i] != [] && NoSpace(r[i])
    ensures s != [] && !IsSpace(s[0]) ==> r != [] && r[0][0] == s[0]
  {
    if s == [] then []
    else if IsSpace(s[0]) then Words(s[1..])
    else
      var rest := Words(s[1..]);
      if |s| > 1 && !IsSpace(s[1]) then [[s[0]] + rest[0]] + rest[1..]
      else [[s[0]]] + rest
  }

  /** A whitespace character separates the words on either side of it. */
  lemma {:induction false} WordsSeparated(a: string, c: char, b: string)
    requires IsSpace(c)
    ensures Words(a + [c] + b) == Words(a) + Words(b)
    decreases |a|
  {
    var s := a + [c] + b;
    if a == [] {
      assert s[1..] == b;
    } else {
      assert s[1..] == a[1..] + [c] + b;
      WordsSeparated(a[1..], c, b);
      if !IsSpace(a[0]) {
        if |a| > 1 {
          assert s[1] == a[1];
        } else {
          assert s[1] == c;
          assert a[1..] == [];
        }
      }
    }
  }

  /** A string without whitespace is one word (or none, if empty). */
  lemma {:induction false} WordsOfWord(w: string)
    requires NoSpace(w)
    ensures Words(w) == if w == [] then [] else [w]
  {
    if w != [] {
      assert NoSpace(w[1..]) by {
        forall i | 0 <= i < |w[1..]| ensures !IsSpace(w[1..][i]) {
          assert w[1..][i] == w[i + 1];
        }
      }
      WordsOfWord(w[1..]);
      if |w| > 1 {
        assert !IsSpace(w[1]);
        assert [w[0]] + w[1..] == w;
      } else {
        assert w == [w[0]];
      }
    }
  }

  /** `n` spaces. */
  function Spaces(n: nat): (s: string)
    ensures |s| == n && AllSpace(s)
  {
    seq(n, _ => ' ')
  }

  /** Leading whitespace adds no word. */
  lemma {:induction false} WordsAfterSpaces(n: nat, s: string)
    ensures Words(Spaces(n) + s) == Words(s)
  {
    if n == 0 {
      assert Spaces(n) + s == s;
    } else {
      assert Spaces(n) + s == [] + [' '] + (Spaces(n - 1) + s);
      WordsSeparated([], ' ', Spaces(n - 1) + s);
      WordsAfterSpaces(n - 1, s);
    }
  }

  /** A line of whitespace only has no words. */
  lemma {:induction false} WordsOfBlank(s: string)
    requires AllSpace(s)
    ensures Words(s) == []
  {
    if s != [] {
      assert IsSpace(s[0]);
      assert AllSpace(s[1..]) by {
        forall i | 0 <= i < |s[1..]| ensures IsSpace(s[1..][i]) {
          assert s[1..][i] == s[i + 1];
        }
      }
      WordsOfBlank(s[1..]);
    }
  }

  /** A word written after at least one space (or at the start) is one more word. */
  lemma WordsAppendWord(s: string, n: nat, w: string)
    requires w != [] && NoSpace(w)
    requires s == [] || n >= 1
    ensures Words(s + Spaces(n) + w) == Words(s) + [w]
  {
    WordsOfWord(w);
    if n == 0 {
      assert s + Spaces(n) + w == w;
    } else {
      WordsAcrossSpaces(s, n, w);
    }
  }

  /** Spaces separate the words on either side of them. */
  lemma WordsAcrossSpaces(s: string, n: nat, w: string)
    requires n >= 1
    ensures Words(s + Spaces(n) + w) == Words(s) + Words(w)
  {
    var rest := Spaces(n - 1) + w;
    assert s + Spaces(n) + w == s + [' '] + rest by {
      assert Spaces(n) == [' '] + Spaces(n - 1);
    }
    WordsSeparated(s, ' ', rest);
    WordsAfterSpaces(n - 1, w);
  }

  /** `strip` leaves a non-empty word without whitespace as it is. */
  lemma StripWord(w: string)
    requires w != [] && NoSpace(w)
    ensures Strip(w) == w
  {
    assert LStrip(w) == w;
    assert RStrip(w) == w;
  }

  /** Different numbers have different decimal texts. */
  lemma {:induction false} NatTextInjective(a: nat, b: nat)
    requires NatText(a) == NatText(b)
    ensures a == b
  {
    var ta, tb := NatText(a), NatText(b);
    assert ta[|ta| - 1] == '0' + (a % 10) as char;
    assert tb[|tb| - 1] == '0' + (b % 10) as char;
    if a >= 10 && b >= 10 {
      assert NatText(a / 10) == ta[..|ta| - 1];
      assert NatText(b / 10) == tb[..|tb| - 1];
      NatTextInjective(a / 10, b / 10);
    }
  }
}
