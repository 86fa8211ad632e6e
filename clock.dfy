/**
 * The `Clock` object of src/clock.js: its construction, the one-time
 * render, the choice of time source, the per-second update and the
 * start/stop toggles of the repeating timer.
 *
 * What lies outside the object enters as parameters: the handle that
 * `setInterval` would hand back, whether the timezone-aware provider is
 * present, what the local clock and the provider report at the moment of
 * an update, and how numbers are written as text.
 */
module ClockWidget {
  import opened TimeOfDay
  import Dial
  import opened Hands
  import opened PathData

  datatype Option<T> = None | Some(value: T)

  /** A timer handle: timer ids in a browser are positive, hence truthy. */
  type Handle = n: nat | n > 0 witness 1

  /** Which `now` the object uses: `_nowDefault` or `_nowMoment`. */
  datatype Strategy = Default | Tz

  /** The options object; an absent key is `None`. */
  datatype Options = Options(size: Option<real>, timezone: Option<string>)

  /**
   * What the time sources report at the moment of an update: the local
   * clock, and the timezone-aware provider for each timezone name.
   */
  datatype Environment = Environment(local: WallTime, inZone: string -> WallTime)

  /** JavaScript truthiness of the timezone argument: present and non-empty. */
  predicate IsTruthy(tz: Option<string>) {
    tz.Some? && tz.value != ""
  }

  /** `opts.size || 400`: an absent or zero size falls back to 400. */
  function SizeOf(size: Option<real>): (s: real)
    ensures s != 0.0
    ensures s == 400.0 <==> size.None? || size.value == 0.0 || size.value == 400.0
    ensures size.Some? && size.value != 0.0 ==> s == size.value
  {
    if size.Some? && size.value != 0.0 then size.value else 400.0
  }

  /**
   * The reading `this.now()` returns under a strategy: the local clock,
   * or the provider's time in the remembered timezone.
   */
  function NowReading(now: Strategy, timezone: Option<string>, env: Environment): (r: Reading)
    requires now == Tz ==> timezone.Some?
    ensures var t := if now == Default then env.local else env.inZone(timezone.value);
      r.minutes == t.minute && r.seconds == t.second &&
      (0 <= t.minute < 60 ==> WallTimeOf(r) == t) &&
      (t.Valid() ==> 0.0 <= r.hours < 24.0)
  {
    match now
    case Default => ReadingOf(env.local)
    case Tz => ReadingOf(env.inZone(timezone.value))
  }

  /** Everything `_render` draws, apart from the fixed template. */
  datatype Geometry = Geometry(dial: seq<Dial.Tick>, minuteHand: PathElement, hourHand: PathElement,
                               secondHand: PathElement, counterweight: Ellipse)

  /** The geometry `_render` builds; it does not depend on the pixel size. */
  function ClockGeometry(fmt: real -> string): Geometry {
    Geometry(Dial.Ticks(Dial.StepCount),
             PathElement("black", PathString(MinuteHand(), fmt)),
             PathElement("black", PathString(HourHand(), fmt)),
             PathElement("red", PathString(SecondHand(), fmt)),
             SecondHandWeight())
  }

  class Clock {
    /** The pixel size of the picture. */
    const size: real
    /** How numbers are written into the `d` strings of the hands. */
    const formatNumber: real -> string

    /** The remembered timezone; `None` until one is accepted. */
    var timezone: Option<string>
    /** The selected `now` strategy; `None` until `changeTimezone` first runs. */
    var now: Option<Strategy>
    /** The handle of the running timer, `None` when stopped. */
    var intervalId: Option<Handle>
    /** Set by the render. */
    var isInitialized: bool
    /** The drawn dial and hands; `None` while the hand references are null. */
    var geometry: Option<Geometry>
    /** The rotation each hand group currently carries. */
    var angles: HandAngles

    /** Timers started and not yet cleared. */
    ghost var timers: nat
    /** How many times the picture was rendered, and the hands updated. */
    ghost var renders: nat
    ghost var updates: nat

    ghost predicate Valid()
      reads this
    {
      (now == Some(Tz) ==> IsTruthy(timezone)) &&
      timers == (if intervalId.Some? then 1 else 0) &&
      (isInitialized <==> renders > 0) &&
      (isInitialized ==> geometry == Some(ClockGeometry(formatNumber))) &&
      (updates > 0 ==> isInitialized && now.Some?)
    }

    /**
     * `new Clock(dom, opts)`: renders once, then selects the time source,
     * which (the object being initialised by then) updates the hands once.
     * No timer runs until `Start`.
     */
    constructor (opts: Options, momentTz: bool, env: Environment, fmt: real -> string)
      ensures Valid()
      ensures size == SizeOf(opts.size) && formatNumber == fmt
      ensures renders == 1 && updates == 1
      ensures isInitialized && geometry == Some(ClockGeometry(fmt))
      ensures intervalId == None && timers == 0
      ensures IsTruthy(opts.timezone) && momentTz ==> now == Some(Tz) && timezone == opts.timezone
      ensures !(IsTruthy(opts.timezone) && momentTz) ==> now == Some(Default) && timezone == None
      ensures now.Some? && angles == Angles(NowReading(now.value, timezone, env))
    {
      size := SizeOf(opts.size);
      formatNumber := fmt;
      timezone := None;
      now := None;
      intervalId := None;
      isInitialized := false;
      geometry := None;
      angles := HandAngles(0, 0, 0.0);
      timers, renders, updates := 0, 0, 0;
      new;
      Render();
      ChangeTimezone(opts.timezone, momentTz, env);
    }

    /**
     * `start`: when no timer runs, starts one, whose id is `handle`; when
     * one runs, does nothing. Either way exactly one timer runs afterwards.
     */
    method Start(handle: Handle)
      requires Valid()
      modifies this`intervalId, this`timers
      ensures Valid()
      ensures intervalId == if old(intervalId).Some? then old(intervalId) else Some(handle)
      ensures timers == 1 && intervalId.Some?
    {
      if intervalId.None? {
        intervalId := Some(handle);
        timers := timers + 1;
      }
    }

    /** `stop`: clears a running timer; on a stopped clock, changes nothing. */
    method Stop()
      requires Valid()
      modifies this`intervalId, this`timers
      ensures Valid()
      ensures intervalId == None && timers == 0
      ensures old(intervalId) == None ==> unchanged(this)
    {
      if intervalId.Some? {
        timers := timers - 1;
        intervalId := None;
      }
    }

    /**
     * `changeTimezone`: a truthy timezone with the provider present selects
     * the timezone strategy and remembers the name; anything else selects
     * the local clock and keeps the old name. An initialised clock shows
     * the new time at once.
     */
    method ChangeTimezone(tz: Option<string>, momentTz: bool, env: Environment)
      requires Valid()
      modifies this`timezone, this`now, this`angles, this`updates
      ensures Valid()
      ensures IsTruthy(tz) && momentTz ==> now == Some(Tz) && timezone == tz
      ensures !(IsTruthy(tz) && momentTz) ==> now == Some(Default) && timezone == old(timezone)
      ensures isInitialized ==>
        angles == Angles(NowReading(now.value, timezone, env)) && updates == old(updates) + 1
      ensures !isInitialized ==> angles == old(angles) && updates == old(updates)
    {
      if IsTruthy(tz) && momentTz {
        timezone := tz;
        now := Some(Tz);
      } else {
        now := Some(Default);
      }
      if isInitialized {
        UpdateClock(env);
      }
    }

    /**
     * `_updateClock`: reads the time through the selected strategy and
     * turns each hand. The angles come from the fresh reading alone,
     * never from the previous angles.
     */
    method UpdateClock(env: Environment)
      requires Valid() && now.Some? && isInitialized
      modifies this`angles, this`updates
      ensures Valid()
      ensures angles == Angles(NowReading(now.value, timezone, env))
      ensures updates == old(updates) + 1
    {
      var reading := NowReading(now.value, timezone, env);
      angles := Angles(reading);
      updates := updates + 1;
    }

    /**
     * `_render`: draws the template (every hand at angle 0), the 60 ticks
     * and the three hands, and marks the clock initialised.
     */
    method Render()
      requires Valid()
      modifies this`geometry, this`isInitialized, this`angles, this`renders
      ensures Valid()
      ensures geometry == Some(ClockGeometry(formatNumber)) && isInitialized
      ensures angles == HandAngles(0, 0, 0.0) && renders == old(renders) + 1
    {
      angles := HandAngles(0, 0, 0.0);
      var dial := Dial.BuildDial();
      var minute := CreatePath("black", MinuteHand(), formatNumber);
      var hour := CreatePath("black", HourHand(), formatNumber);
      var second := CreatePath("red", SecondHand(), formatNumber);
      geometry := Some(Geometry(dial, minute, hour, second, SecondHandWeight()));
      isInitialized := true;
      renders := renders + 1;
    }
  }

  /** A client: repeated starts keep one timer, repeated stops are harmless. */
  method LifecycleScenario(env: Environment, fmt: real -> string, h1: Handle, h2: Handle)
  {
    var c := new Clock(Options(None, None), false, env, fmt);
    assert c.size == 400.0 && c.now == Some(Default);
    c.Start(h1);
    c.Start(h2);
    assert c.intervalId == Some(h1) && c.timers == 1;
    c.Stop();
    c.Stop();
    assert c.intervalId == None && c.timers == 0;
    c.ChangeTimezone(Some("Europe/Berlin"), false, env);
    assert c.now == Some(Default) && c.timezone == None;
    c.ChangeTimezone(Some("Europe/Berlin"), true, env);
    assert c.now == Some(Tz) && c.timezone == Some("Europe/Berlin");
    c.ChangeTimezone(None, true, env);
    assert c.now == Some(Default) && c.timezone == Some("Europe/Berlin");
  }
}
