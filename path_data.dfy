/**
 * The `d` attribute of an SVG path, as `_createPath` assembles it
 * (src/clock.js): "M" and the first vertex, then " L" and each further
 * vertex, every vertex written as `x,y`.
 *
 * How JavaScript writes a number as text is not modelled: it is the
 * parameter `fmt`. The only thing assumed of it, where a lemma needs it,
 * is that a written number uses the characters of JavaScript numerals
 * (digits, '.', '+', '-', 'e', "Infinity", "NaN").
 */
module PathData {
  import opened Hands

  /** A filled path element: its fill colour and its `d` string. */
  datatype PathElement = PathElement(fill: string, d: string)

  /** The characters a JavaScript number can be written with. */
  const NumeralChars: string := "0123456789.+-eInfityNa"

  /** The text is one a JavaScript number could be written as. */
  predicate IsNumeral(s: string) {
    forall i :: 0 <= i < |s| ==> s[i] in NumeralChars
  }

  /** Every coordinate of the vertices is written as a numeral. */
  predicate WritesNumerals(pts: seq<Point>, fmt: real -> string) {
    forall i :: 0 <= i < |pts| ==> IsNumeral(fmt(pts[i].x)) && IsNumeral(fmt(pts[i].y))
  }

  /** One vertex, as `x,y`. */
  function Coord(p: Point, fmt: real -> string): string {
    fmt(p.x) + "," + fmt(p.y)
  }

  /**
   * The string after the loop of `_createPath` has visited the vertices
   * `pts`: each iteration appends "M" (the first) or " L" (the others)
   * and the vertex.
   */
  function PathString(pts: seq<Point>, fmt: real -> string): string {
    if pts == [] then ""
    else PathString(pts[..|pts| - 1], fmt)
         + (if |pts| == 1 then "M" else " L") + Coord(pts[|pts| - 1], fmt)
  }

  /** " L" and a vertex, for each of `pts`. */
  function LinesTo(pts: seq<Point>, fmt: real -> string): string {
    if pts == [] then "" else " L" + Coord(pts[0], fmt) + LinesTo(pts[1..], fmt)
  }

  /** Appending a vertex appends one line-to command. */
  lemma {:induction false} LinesToSnoc(pts: seq<Point>, p: Point, fmt: real -> string)
    ensures LinesTo(pts + [p], fmt) == LinesTo(pts, fmt) + " L" + Coord(p, fmt)
  {
    if pts != [] {
      assert (pts + [p])[1..] == pts[1..] + [p];
      LinesToSnoc(pts[1..], p, fmt);
    }
  }

  /**
   * The assembled string is a move-to to the first vertex followed by one
   * line-to per further vertex.
   */
  lemma {:induction false} PathStringIsMoveThenLines(pts: seq<Point>, fmt: real -> string)
    requires pts != []
    ensures PathString(pts, fmt) == "M" + Coord(pts[0], fmt) + LinesTo(pts[1..], fmt)
  {
    var n := |pts|;
    if n > 1 {
      var front := pts[..n - 1];
      PathStringIsMoveThenLines(front, fmt);
      assert front[0] == pts[0];
      assert pts[1..] == front[1..] + [pts[n - 1]];
      LinesToSnoc(front[1..], pts[n - 1], fmt);
    }
  }

  /** A numeral holds none of the letters and separators of path syntax. */
  lemma NumeralHasNoPathSyntax(s: string)
    requires IsNumeral(s)
    ensures multiset(s)['M'] == 0 && multiset(s)['L'] == 0 && multiset(s)[','] == 0
  {
    assert 'M' !in s && 'L' !in s && ',' !in s;
  }

  /** Dropping the first vertex keeps every coordinate a numeral. */
  lemma WritesNumeralsTail(pts: seq<Point>, fmt: real -> string)
    requires pts != [] && WritesNumerals(pts, fmt)
    ensures WritesNumerals(pts[1..], fmt)
  {
    forall i | 0 <= i < |pts| - 1
      ensures IsNumeral(fmt(pts[1..][i].x)) && IsNumeral(fmt(pts[1..][i].y))
    {
      assert pts[1..][i] == pts[i + 1];
    }
  }

  /** A vertex written with numerals holds one comma and no path letter. */
  lemma CoordCounts(p: Point, fmt: real -> string)
    requires IsNumeral(fmt(p.x)) && IsNumeral(fmt(p.y))
    ensures multiset(Coord(p, fmt))['M'] == 0
    ensures multiset(Coord(p, fmt))['L'] == 0
    ensures multiset(Coord(p, fmt))[','] == 1
  {
    NumeralHasNoPathSyntax(fmt(p.x));
    NumeralHasNoPathSyntax(fmt(p.y));
    assert multiset(Coord(p, fmt)) == multiset(fmt(p.x)) + multiset(",") + multiset(fmt(p.y));
  }

  /** Each line-to command holds one 'L' and one ','. */
  lemma {:induction false} LinesToCounts(pts: seq<Point>, fmt: real -> string)
    requires WritesNumerals(pts, fmt)
    ensures multiset(LinesTo(pts, fmt))['M'] == 0
    ensures multiset(LinesTo(pts, fmt))['L'] == |pts|
    ensures multiset(LinesTo(pts, fmt))[','] == |pts|
  {
    if pts != [] {
      CoordCounts(pts[0], fmt);
      WritesNumeralsTail(pts, fmt);
      LinesToCounts(pts[1..], fmt);
      assert multiset(LinesTo(pts, fmt))
        == multiset(" L") + multiset(Coord(pts[0], fmt)) + multiset(LinesTo(pts[1..], fmt));
    }
  }

  /**
   * The `d` string of a non-empty vertex list starts with "M", holds that
   * one move-to, exactly |pts| - 1 line-to separators and one comma per
   * vertex.
   */
  lemma PathStringCounts(pts: seq<Point>, fmt: real -> string)
    requires pts != []
    requires WritesNumerals(pts, fmt)
    ensures PathString(pts, fmt)[0] == 'M'
    ensures multiset(PathString(pts, fmt))['M'] == 1
    ensures multiset(PathString(pts, fmt))['L'] == |pts| - 1
    ensures multiset(PathString(pts, fmt))[','] == |pts|
  {
    var head, tail := Coord(pts[0], fmt), LinesTo(pts[1..], fmt);
    PathStringIsMoveThenLines(pts, fmt);
    CoordCounts(pts[0], fmt);
    WritesNumeralsTail(pts, fmt);
    LinesToCounts(pts[1..], fmt);
    var s := "M" + head + tail;
    assert PathString(pts, fmt) == s;
    assert s[0] == 'M';
    assert multiset(s) == multiset("M") + multiset(head) + multiset(tail);
  }

  /**
   * `_createPath`: the loop accumulates the `d` string vertex by vertex.
   * The result is a move-to to the first vertex and a line-to for each
   * further one; an empty list gives an empty string.
   */
  method CreatePath(color: string, d: seq<Point>, fmt: real -> string) returns (path: PathElement)
    ensures path == PathElement(color, PathString(d, fmt))
    ensures d == [] ==> path.d == ""
    ensures d != [] ==> path.d == "M" + Coord(d[0], fmt) + LinesTo(d[1..], fmt)
  {
    var s := "";
    for i := 0 to |d|
      invariant s == PathString(d[..i], fmt)
    {
      assert d[..i + 1][..i] == d[..i];
      s := s + (if i == 0 then "M" else " L") + Coord(d[i], fmt);
    }
    assert d[..|d|] == d;
    if d != [] {
      PathStringIsMoveThenLines(d, fmt);
    }
    path := PathElement(color, s);
  }
}
