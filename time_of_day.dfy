/**
 * Time readings and hand angles of the clock (src/clock.js, `_nowDefault`,
 * `_nowMoment` and the arithmetic of `_updateClock`).
 *
 * The clock reads the hour, minute and second of "now" from an external
 * source (the local `Date`, or a timezone-aware provider), turns them into
 * a reading whose hour carries the minutes as a fraction, and turns that
 * reading into three rotation angles in degrees. JavaScript numbers are
 * modelled exactly: the arithmetic involved is integer and rational.
 */
module TimeOfDay {

  /** What a time source reports: the wall-clock hour, minute and second. */
  datatype WallTime = WallTime(hour: int, minute: int, second: int)
  {
    /** The ranges a `Date` (or a timezone-aware moment) reports its fields in. */
    predicate Valid() {
      0 <= hour < 24 && 0 <= minute < 60 && 0 <= second < 60
    }
  }

  /** The record `now()` returns: `hours` includes the minutes as a fraction. */
  datatype Reading = Reading(hours: real, minutes: int, seconds: int)

  /** The rotation, in degrees about the dial centre, given to each hand. */
  datatype HandAngles = HandAngles(second: int, minute: int, hour: real)

  /**
   * Builds the reading from a sample of the time source: the hour hand
   * sweeps smoothly, so the hour is the wall hour plus minutes / 60.
   * Both the local strategy and the timezone strategy build it this way.
   */
  function ReadingOf(t: WallTime): (r: Reading)
    ensures r.minutes == t.minute && r.seconds == t.second
    ensures 0 <= t.minute < 60 ==>
      t.hour as real <= r.hours < (t.hour + 1) as real && r.hours.Floor == t.hour
    ensures t.Valid() ==> 0.0 <= r.hours < 24.0
  {
    Reading(t.hour as real + t.minute as real / 60.0, t.minute, t.second)
  }

  /** Reads the wall time back out of a reading: the whole part of `hours`. */
  function WallTimeOf(r: Reading): WallTime {
    WallTime(r.hours.Floor, r.minutes, r.seconds)
  }

  /** Dropping nothing: the reading determines the wall time it came from. */
  lemma ReadingRoundTrip(t: WallTime)
    requires 0 <= t.minute < 60
    ensures WallTimeOf(ReadingOf(t)) == t
    ensures (ReadingOf(t).hours - t.hour as real) * 60.0 == t.minute as real
  {
  }

  /** JavaScript's truncating integer part (toward zero). */
  function Trunc(y: real): int {
    if y >= 0.0 then y.Floor else -((-y).Floor)
  }

  /**
   * JavaScript `x % 12` on a number: the remainder of truncating division,
   * which takes the sign of `x` (not Dafny's Euclidean remainder).
   */
  function Mod12(x: real): (r: real)
    ensures 0.0 <= x ==> 0.0 <= r < 12.0
    ensures x < 0.0 ==> -12.0 < r <= 0.0
    ensures 0.0 <= x < 12.0 ==> r == x
  {
    x - 12.0 * Trunc(x / 12.0) as real
  }

  /** The remainder repeats every 12 hours. */
  lemma Mod12Periodic(x: real)
    requires 0.0 <= x
    ensures Mod12(x + 12.0) == Mod12(x)
  {
    assert (x + 12.0) / 12.0 == x / 12.0 + 1.0;
    assert ((x + 12.0) / 12.0).Floor == (x / 12.0).Floor + 1;
  }

  /**
   * `_updateClock`: seconds and minutes turn 6 degrees per unit, the hour
   * hand 30 degrees per hour of a 12-hour dial.
   */
  function Angles(now: Reading): (a: HandAngles)
    ensures 0 <= now.seconds < 60 ==> 0 <= a.second < 360 && a.second % 6 == 0
    ensures 0 <= now.minutes < 60 ==> 0 <= a.minute < 360 && a.minute % 6 == 0
    ensures 0.0 <= now.hours ==> 0.0 <= a.hour < 360.0
    ensures now.hours < 0.0 ==> -360.0 < a.hour <= 0.0
  {
    HandAngles(now.seconds * 6, now.minutes * 6, Mod12(now.hours) * 30.0)
  }

  /** The examples of a reading and the angles it gives. */
  lemma AnglesExamples()
    ensures Angles(Reading(3.5, 30, 0)) == HandAngles(0, 180, 105.0)
    ensures Angles(Reading(0.0, 0, 45)) == HandAngles(270, 0, 0.0)
  {
    assert Mod12(3.5) == 3.5;
  }

  /**
   * For a reading taken from the time source, the hour hand stands at its
   * hour mark plus half a degree per minute: one twelfth of the minute
   * hand's angle. The two hands therefore always agree.
   */
  lemma {:induction false} HourHandFollowsMinutes(t: WallTime)
    requires 0 <= t.hour && 0 <= t.minute < 60
    ensures Angles(ReadingOf(t)).hour
      == (t.hour % 12) as real * 30.0 + Angles(ReadingOf(t)).minute as real / 12.0
  {
    var h := ReadingOf(t).hours;
    var q := t.hour / 12;
    assert t.hour == 12 * q + t.hour % 12;
    assert 12.0 * q as real <= h < 12.0 * (q + 1) as real;
    assert (h / 12.0).Floor == q;
    assert Trunc(h / 12.0) == q;
  }

  /** Morning and evening are indistinguishable on a 12-hour dial. */
  lemma {:induction false} TwelveHoursApartLookAlike(t: WallTime)
    requires 0 <= t.hour && 0 <= t.minute < 60
    ensures Angles(ReadingOf(WallTime(t.hour + 12, t.minute, t.second))) == Angles(ReadingOf(t))
  {
    var u := WallTime(t.hour + 12, t.minute, t.second);
    HourHandFollowsMinutes(t);
    HourHandFollowsMinutes(u);
    assert (t.hour + 12) % 12 == t.hour % 12;
  }
}
