/**
 * The outlines of the three clock hands (`_createHand`,
 * `_createCounterweightHand` and their three calls in `_render`,
 * src/clock.js).
 *
 * A hand is drawn unrotated, pointing up from the dial centre (0.5, 0.5)
 * in a picture whose y axis grows downward: a stub below the centre, a
 * straight blade, and a pointed tip. Every length is a fraction of the
 * dial radius `outerDia`, except the hand's half-width, the taper length
 * and the half-width of the second hand's flat tip (`pointWidth`).
 *
 * The last vertex of both outlines is reproduced exactly as written: its
 * y coordinate is `outerDia * (0.5 + outerDia * stubLength)`, not the
 * `0.5 + outerDia * stubLength` of the stub corners. It lies on the
 * vertical line through the left edge of the blade, so it adds a
 * zero-width spur and leaves the area of the filled shape unchanged
 * (`LastVertexAddsNoArea`). For the minute and hour hands it falls
 * between the left shoulder and the stub corner; for the second hand it
 * falls above the shoulder, outside the taper (`WhereTheLastVertexFalls`).
 */
module Hands {
  import Dial

  /** A point of the normalised 1 x 1 picture. */
  datatype Point = Point(x: real, y: real)

  /** The counterweight ellipse of the second hand. */
  datatype Ellipse = Ellipse(cx: real, cy: real, rx: real, ry: real)

  /** Reflection in the vertical axis through the dial centre. */
  function Mirror(p: Point): (q: Point)
    ensures q.y == p.y && q.x - 0.5 == 0.5 - p.x
  {
    Point(1.0 - p.x, p.y)
  }

  /** `_createHand`: the six vertices of a plain hand. */
  function HandOutline(width: real, length: real, stubLength: real, pointLength: real, outerDia: real): (pts: seq<Point>)
    ensures |pts| == 6
  {
    [ Point(0.5 - width, 0.5 + outerDia * stubLength),
      Point(0.5 + width, 0.5 + outerDia * stubLength),
      Point(0.5 + width, 0.5 - outerDia * length + pointLength),
      Point(0.5, 0.5 - outerDia * length),
      Point(0.5 - width, 0.5 - outerDia * length + pointLength),
      Point(0.5 - width, outerDia * (0.5 + outerDia * stubLength)) ]
  }

  /**
   * `_createCounterweightHand`, the outline: like a plain hand, but with a
   * flat tip of half-width `pointWidth` (seven vertices).
   */
  function CounterweightOutline(width: real, length: real, stubLength: real, pointLength: real,
                                pointWidth: real, outerDia: real): (pts: seq<Point>)
    ensures |pts| == 7
  {
    [ Point(0.5 - width, 0.5 + outerDia * stubLength),
      Point(0.5 + width, 0.5 + outerDia * stubLength),
      Point(0.5 + width, 0.5 - outerDia * length + pointLength),
      Point(0.5 + pointWidth, 0.5 - outerDia * length),
      Point(0.5 - pointWidth, 0.5 - outerDia * length),
      Point(0.5 - width, 0.5 - outerDia * length + pointLength),
      Point(0.5 - width, outerDia * (0.5 + outerDia * stubLength)) ]
  }

  /** `_createCounterweightHand`, the ellipse hung at the stub end. */
  function Counterweight(stubLength: real, outerDia: real): (e: Ellipse)
    ensures Mirror(Point(e.cx, e.cy)) == Point(e.cx, e.cy)
    ensures e.cy == 0.5 + outerDia * stubLength
    ensures 0.0 < e.rx < e.ry
  {
    Ellipse(0.5, 0.5 + outerDia * stubLength, 0.011, 0.036)
  }

  /**
   * A plain hand: the stub corners and the shoulders are mirror images,
   * the tip sits on the axis at `outerDia * length` above the centre and
   * `pointLength` above the shoulders; the last vertex lies on the
   * vertical line through the left edge at the written height, and
   * coincides with the first vertex only when `outerDia` is 1 or the stub
   * end sits at height 0.
   */
  lemma HandOutlineShape(width: real, length: real, stubLength: real, pointLength: real, outerDia: real)
    ensures var pts := HandOutline(width, length, stubLength, pointLength, outerDia);
      pts[1] == Mirror(pts[0]) && pts[4] == Mirror(pts[2]) && Mirror(pts[3]) == pts[3] &&
      pts[0].y == pts[1].y == 0.5 + outerDia * stubLength &&
      pts[3] == Point(0.5, 0.5 - outerDia * length) &&
      pts[2].y - pts[3].y == pointLength &&
      pts[5].x == pts[4].x == pts[0].x &&
      pts[5].y == outerDia * (0.5 + outerDia * stubLength) &&
      (pts[5] == pts[0] <==> (outerDia - 1.0) * (0.5 + outerDia * stubLength) == 0.0)
  {
    var s := 0.5 + outerDia * stubLength;
    assert outerDia * s - s == (outerDia - 1.0) * s;
  }

  /**
   * The second hand: as for a plain hand, with the two tip vertices
   * mirror images of each other at `0.5 +- pointWidth`, and the ellipse
   * centred on the middle of the stub edge.
   */
  lemma CounterweightShape(width: real, length: real, stubLength: real, pointLength: real,
                           pointWidth: real, outerDia: real)
    ensures var pts := CounterweightOutline(width, length, stubLength, pointLength, pointWidth, outerDia);
      var e := Counterweight(stubLength, outerDia);
      pts[1] == Mirror(pts[0]) && pts[5] == Mirror(pts[2]) && pts[4] == Mirror(pts[3]) &&
      pts[0].y == pts[1].y == 0.5 + outerDia * stubLength &&
      pts[3] == Point(0.5 + pointWidth, 0.5 - outerDia * length) &&
      pts[4] == Point(0.5 - pointWidth, 0.5 - outerDia * length) &&
      pts[6].x == pts[5].x == pts[0].x &&
      pts[6].y == outerDia * (0.5 + outerDia * stubLength) &&
      e.cx == (pts[0].x + pts[1].x) / 2.0 && e.cy == pts[0].y
  {
  }

  /** Twice the signed area of the triangle (origin, p, q). */
  function Cross(p: Point, q: Point): real {
    p.x * q.y - q.x * p.y
  }

  /** The cross terms of the open chain pts[0], pts[1], ..., pts[n-1]. */
  function ChainSum(pts: seq<Point>): real {
    if |pts| < 2 then 0.0 else Cross(pts[0], pts[1]) + ChainSum(pts[1..])
  }

  /** Twice the signed area of the closed polygon (shoelace formula). */
  function TwiceArea(pts: seq<Point>): real {
    if pts == [] then 0.0 else ChainSum(pts) + Cross(pts[|pts| - 1], pts[0])
  }

  /** Extending the chain by a point adds the cross term of its last edge. */
  lemma {:induction false} ChainSumSnoc(pts: seq<Point>, p: Point)
    requires pts != []
    ensures ChainSum(pts + [p]) == ChainSum(pts) + Cross(pts[|pts| - 1], p)
  {
    if |pts| > 1 {
      ChainSumSnoc(pts[1..], p);
      assert (pts + [p])[1..] == pts[1..] + [p];
    }
  }

  /**
   * A polygon whose last vertex lies on the vertical line through both
   * of its neighbours has the same area without that vertex.
   */
  lemma {:induction false} VerticalSpurAddsNoArea(pts: seq<Point>)
    requires |pts| >= 3
    requires pts[|pts| - 1].x == pts[|pts| - 2].x == pts[0].x
    ensures TwiceArea(pts) == TwiceArea(pts[..|pts| - 1])
  {
    var n := |pts|;
    var front := pts[..n - 1];
    assert pts == front + [pts[n - 1]];
    ChainSumSnoc(front, pts[n - 1]);
    var a, v, b := pts[n - 2], pts[n - 1], pts[0];
    assert Cross(a, v) + Cross(v, b) == a.x * (b.y - a.y) == Cross(a, b);
  }

  /**
   * Both outlines fill the same area as the polygon that leaves out the
   * asymmetric last vertex.
   */
  lemma LastVertexAddsNoArea(width: real, length: real, stubLength: real, pointLength: real,
                             pointWidth: real, outerDia: real)
    ensures var h := HandOutline(width, length, stubLength, pointLength, outerDia);
      TwiceArea(h) == TwiceArea(h[..5])
    ensures var c := CounterweightOutline(width, length, stubLength, pointLength, pointWidth, outerDia);
      TwiceArea(c) == TwiceArea(c[..6])
  {
    VerticalSpurAddsNoArea(HandOutline(width, length, stubLength, pointLength, outerDia));
    VerticalSpurAddsNoArea(CounterweightOutline(width, length, stubLength, pointLength, pointWidth, outerDia));
  }

  /** The minute hand `_render` builds. */
  function MinuteHand(): seq<Point> {
    HandOutline(0.012, 0.94, 0.2, 0.026, Dial.OuterDia)
  }

  /** The hour hand `_render` builds (no stub). */
  function HourHand(): seq<Point> {
    HandOutline(0.019, 0.7, 0.0, 0.03, Dial.OuterDia)
  }

  /** The second hand `_render` builds. */
  function SecondHand(): seq<Point> {
    CounterweightOutline(0.006, 0.97, 0.2, 0.4, 0.0024, Dial.OuterDia)
  }

  /** The counterweight of the second hand. */
  function SecondHandWeight(): Ellipse {
    Counterweight(0.2, Dial.OuterDia)
  }

  /** How far above the centre a hand's tip reaches. */
  function Reach(pts: seq<Point>): real
    requires |pts| >= 4
  {
    0.5 - pts[3].y
  }

  /**
   * The x coordinate of the left taper edge (from shoulder `a` up to tip
   * point `b`) at height `y`.
   */
  function TaperX(a: Point, b: Point, y: real): real
    requires a.y != b.y
  {
    a.x + (a.y - y) * (b.x - a.x) / (a.y - b.y)
  }

  /**
   * Where the as-written last vertex of each hand `_render` builds falls:
   * for the minute and hour hands strictly between the left shoulder and
   * the left stub corner, on the straight left edge; for the second hand
   * above its left shoulder, within the height of the taper but to the
   * left of it, a spur outside the drawn hand.
   */
  lemma WhereTheLastVertexFalls()
    ensures var m := MinuteHand(); m[4].y < m[5].y < m[0].y
    ensures var h := HourHand(); h[4].y < h[5].y < h[0].y
    ensures var s := SecondHand();
      s[6].y == 0.28608 && s[5].y == 0.4344 && s[0].y == 0.596 &&
      s[4].y < s[6].y < s[5].y < s[0].y &&
      s[6].x < TaperX(s[5], s[4], s[6].y)
  {
  }

  /** The point lies strictly inside the circle the ticks start on. */
  predicate InsideRim(p: Point) {
    (p.x - 0.5) * (p.x - 0.5) + (p.y - 0.5) * (p.y - 0.5) < Dial.RimRadius * Dial.RimRadius
  }

  /**
   * The three hands `_render` builds: the hour hand is shorter than the
   * minute hand, which is shorter than the second hand, and every vertex
   * of every hand, the off-axis tip points of the second hand included,
   * stays strictly inside the circle the ticks start on.
   */
  lemma HandsFitTheDial()
    ensures 0.0 < Reach(HourHand()) < Reach(MinuteHand()) < Reach(SecondHand()) < Dial.RimRadius
    ensures forall i :: 0 <= i < |MinuteHand()| ==> InsideRim(MinuteHand()[i])
    ensures forall i :: 0 <= i < |HourHand()| ==> InsideRim(HourHand()[i])
    ensures forall i :: 0 <= i < |SecondHand()| ==> InsideRim(SecondHand()[i])
  {
  }
}
