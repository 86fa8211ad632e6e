/**
 * The dial ticks built by the loop in `_render` (src/clock.js).
 *
 * Sixty steps of 6 degrees each; every step is sorted into one of three
 * classes by `step % 15` and `step % 5`, and the class fixes how far the
 * tick reaches inward from the rim and how thick it is drawn. The
 * direction of a tick (the sine and cosine of its angle) is floating-point
 * trigonometry and stays abstract: it enters only as a parameter.
 */
module Dial {

  /** Radius of the dial face in the normalised 1 x 1 picture. */
  const OuterDia: real := 0.48

  /** Every tick starts on this circle, just inside the face's edge. */
  const RimRadius: real := OuterDia * 0.98

  /** Number of ticks around the dial: one per minute. */
  const StepCount: nat := 60

  /** Quarter-hour ticks, five-minute ticks and minute ticks. */
  datatype TickClass = Long | Medium | Short

  /** The class of a step, chosen as the `if` chain in `_render` does. */
  function Classify(step: nat): (c: TickClass)
    ensures c == Long <==> step % 15 == 0
    ensures c == Medium <==> step % 5 == 0 && step % 15 != 0
    ensures c == Short <==> step % 5 != 0
  {
    if step % 15 == 0 then Long
    else if step % 5 == 0 && step % 15 != 0 then Medium
    else Short
  }

  /** Where a tick of the class ends, towards the centre. */
  function InnerRadius(c: TickClass): (r2: real)
    ensures 0.0 < r2 < RimRadius
  {
    match c
    case Long => OuterDia * 0.76
    case Medium => OuterDia * 0.83
    case Short => OuterDia * 0.90
  }

  /** The stroke width a tick of the class is drawn with. */
  function StrokeWidth(c: TickClass): (w: real)
    ensures 0.0 < w < 0.03
  {
    match c
    case Long => 0.028
    case Medium => 0.020
    case Short => 0.012
  }

  /** The radial length of a tick of the class. */
  function TickLength(c: TickClass): real {
    RimRadius - InnerRadius(c)
  }

  /**
   * The tick a hand pointing at minute `m` covers is that of step
   * (30 - m) mod 60, and it has the class of `m` itself: long at the
   * quarter hours, medium at the other five-minute marks, short elsewhere.
   */
  lemma TickUnderEachMinute(m: nat)
    ensures Classify((30 - m) % 60) == Classify(m)
  {
    var k := (30 - m) % 60;
    var q := (30 - m) / 60;
    assert k + m == 15 * (2 - 4 * q);
    OppositeResidues(k, m, 2 - 4 * q);
  }

  /** Two numbers adding up to a multiple of 15 are multiples of 15, and of 5, together. */
  lemma OppositeResidues(a: int, b: int, j: int)
    requires a + b == 15 * j
    ensures a % 15 == 0 <==> b % 15 == 0
    ensures a % 5 == 0 <==> b % 5 == 0
  {
    assert a == 15 * (a / 15) + a % 15 && b == 15 * (b / 15) + b % 15;
    assert a == 5 * (a / 5) + a % 5 && b == 5 * (b / 5) + b % 5;
  }

  /** The two tables agree: of two classes, the longer tick is the thicker. */
  lemma LongerTicksAreThicker(a: TickClass, b: TickClass)
    ensures TickLength(a) > TickLength(b) <==> StrokeWidth(a) > StrokeWidth(b)
    ensures TickLength(a) == TickLength(b) <==> a == b
  {
  }

  /**
   * One tick: its step, angle in degrees, class, radii and stroke width.
   *
   * The angle is not measured the way the hands are turned. The tick is
   * drawn at (0.5 + r sin(angle), 0.5 + r cos(angle)) in a picture whose y
   * axis grows downward, so step 0 sits at 6 o'clock and the angle grows
   * counter-clockwise on screen: step s lies where a hand turned clockwise
   * by 180 - 6s degrees points, that is under minute (30 - s) mod 60. The
   * dial still reads right because the classes are symmetric under that
   * reflection (`TickUnderEachMinute`).
   */
  datatype Tick = Tick(step: nat, angle: nat, cls: TickClass, r: real, r2: real, width: real)

  /**
   * The tick the loop body of `_render` emits for a step; its angle counts
   * from 6 o'clock, counter-clockwise (see `Tick`).
   */
  function TickAt(step: nat): (t: Tick)
    ensures t.step == step && t.angle == step * 6
    ensures t.r == RimRadius && 0.0 < t.r2 < t.r
    ensures t.r2 == InnerRadius(Classify(step)) && t.width == StrokeWidth(Classify(step))
  {
    var c := Classify(step);
    Tick(step, step * 6, c, RimRadius, InnerRadius(c), StrokeWidth(c))
  }

  /**
   * The ticks emitted by the first `n` iterations, in order: a helper that
   * specifies the loop of `BuildDial` and is counted by `TickCounts`.
   */
  function Ticks(n: nat): (ts: seq<Tick>)
    ensures |ts| == n
  {
    if n == 0 then [] else Ticks(n - 1) + [TickAt(n - 1)]
  }

  /** How many ticks of a class a tick list holds. */
  function CountClass(ts: seq<Tick>, c: TickClass): nat
  {
    if ts == [] then 0
    else CountClass(ts[..|ts| - 1], c) + (if ts[|ts| - 1].cls == c then 1 else 0)
  }

  /** Passing a multiple of 15 starts one more quarter hour. */
  lemma QuarterStep(m: nat)
    ensures (m + 15) / 15 == (m + 14) / 15 + (if m % 15 == 0 then 1 else 0)
  {
  }

  /** Passing a multiple of 5 starts one more five-minute group. */
  lemma FiveStep(m: nat)
    ensures (m + 5) / 5 == (m + 4) / 5 + (if m % 5 == 0 then 1 else 0)
  {
  }

  /** Counting over one more tick adds one to the count of its class only. */
  lemma CountSnoc(ts: seq<Tick>, t: Tick, c: TickClass)
    ensures CountClass(ts + [t], c) == CountClass(ts, c) + (if t.cls == c then 1 else 0)
  {
    assert (ts + [t])[..|ts|] == ts;
  }

  /**
   * Over the first `n` steps: one long tick per started quarter hour, one
   * medium tick per started five minutes that is not a quarter hour, and
   * every other step is short.
   */
  lemma {:induction false} TickCounts(n: nat)
    ensures CountClass(Ticks(n), Long) == (n + 14) / 15
    ensures CountClass(Ticks(n), Medium) == (n + 4) / 5 - (n + 14) / 15
    ensures CountClass(Ticks(n), Short) == n - (n + 4) / 5
  {
    if n > 0 {
      var m := n - 1;
      TickCounts(m);
      var t := TickAt(m);
      assert Ticks(n) == Ticks(m) + [t];
      CountSnoc(Ticks(m), t, Long);
      CountSnoc(Ticks(m), t, Medium);
      CountSnoc(Ticks(m), t, Short);
      QuarterStep(m);
      FiveStep(m);
    }
  }

  /** Every tick of the list starts on the rim and runs inward. */
  predicate RunsInward(ts: seq<Tick>) {
    forall i :: 0 <= i < |ts| ==> ts[i].r == RimRadius && 0.0 < ts[i].r2 < ts[i].r
  }

  /**
   * The tick loop of `_render`: appends one tick per step 0..59. The whole
   * dial has 4 long, 8 medium and 48 short ticks, all running inward.
   */
  method BuildDial() returns (ticks: seq<Tick>)
    ensures ticks == Ticks(StepCount) && |ticks| == 60
    ensures forall i :: 0 <= i < |ticks| ==> ticks[i].step == i && ticks[i].cls == Classify(i)
    ensures RunsInward(ticks)
    ensures CountClass(ticks, Long) == 4
    ensures CountClass(ticks, Medium) == 8
    ensures CountClass(ticks, Short) == 48
  {
    ticks := [];
    for step := 0 to StepCount
      invariant ticks == Ticks(step)
      invariant forall i :: 0 <= i < |ticks| ==> ticks[i] == TickAt(i)
    {
      ticks := ticks + [TickAt(step)];
    }
    TickCounts(StepCount);
  }

  /** A line segment of the dial, in normalised coordinates. */
  datatype Line = Line(x1: real, y1: real, x2: real, y2: real, width: real)

  /**
   * The line `_render` draws for a tick, given the direction of its angle
   * (`sin`, `cos`): from the rim point to the inner point, about (0.5, 0.5).
   */
  function TickLine(t: Tick, sin: real, cos: real): Line {
    Line(0.5 + t.r * sin, 0.5 + t.r * cos, 0.5 + t.r2 * sin, 0.5 + t.r2 * cos, t.width)
  }

  /**
   * For a unit direction, the drawn line starts on the rim circle, ends on
   * the inner circle of its class, and the inner end lies on the radius
   * through the outer end, closer to the centre.
   */
  lemma TickLineOnRadius(step: nat, sin: real, cos: real)
    requires sin * sin + cos * cos == 1.0
    ensures var t := TickAt(step); var l := TickLine(t, sin, cos);
      (l.x1 - 0.5) * (l.x1 - 0.5) + (l.y1 - 0.5) * (l.y1 - 0.5) == RimRadius * RimRadius &&
      (l.x2 - 0.5) * (l.x2 - 0.5) + (l.y2 - 0.5) * (l.y2 - 0.5) == t.r2 * t.r2 &&
      (l.x2 - 0.5) * RimRadius == (l.x1 - 0.5) * t.r2 &&
      (l.y2 - 0.5) * RimRadius == (l.y1 - 0.5) * t.r2
  {
    var t := TickAt(step);
    assert (t.r * sin) * (t.r * sin) + (t.r * cos) * (t.r * cos) == t.r * t.r * (sin * sin + cos * cos);
    assert (t.r2 * sin) * (t.r2 * sin) + (t.r2 * cos) * (t.r2 * cos) == t.r2 * t.r2 * (sin * sin + cos * cos);
  }
}
