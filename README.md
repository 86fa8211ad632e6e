# svg-clock in Dafny

A model of the `Clock` widget of `src/clock.js`: an analog clock drawn as
SVG in a normalised 1 x 1 picture and turned once a second to the current
time, optionally in a named timezone.

The project has five modules, one per part of the widget:

- `TimeOfDay` (`time_of_day.dfy`): the reading `now()` returns (`hours`
  carries the minutes as a fraction) and the three hand angles
  `_updateClock` computes from it. JavaScript's `%` on the fractional hour
  is the truncating remainder (`Mod12`), not Dafny's Euclidean one.
- `Dial` (`dial.dfy`): the tick loop of `_render`. There are sixty steps,
  each sorted into a long, medium or short tick, and each class has a fixed
  inner radius and stroke width. The loop is a method proved against the
  tick list `Ticks(60)`. The counts 4 / 8 / 48 follow from a closed form
  proved for every prefix of the loop.
- `Hands` (`hands.dfy`): the vertex lists of `_createHand` and
  `_createCounterweightHand`, and the three hands `_render` builds with
  them. The lemmas cover mirror symmetry about x = 0.5, the tip position,
  and the last vertex, which is kept exactly as written. Its y coordinate
  is `outerDia * (0.5 + outerDia * stubLength)`, not the stub height. It
  lies on the vertical line through the hand's left edge. For the minute
  and hour hands it falls between the shoulder and the stub corner. For
  the second hand it falls above the shoulder: a zero-width spur outside
  the taper. `LastVertexAddsNoArea` proves (by the shoelace formula) that
  it leaves the filled area unchanged.
- `PathData` (`path_data.dfy`): the loop of `_createPath` that builds the
  `d` string "M" x,y (" L" x,y)*. The method is proved against
  `PathString`. The lemmas show that the string is one move-to followed by
  one line-to per further vertex, with exactly |pts| - 1 'L' separators.
- `ClockWidget` (`clock.dfy`): the `Clock` object as a class. Its fields
  are the timezone, the `now` strategy, the timer handle, the
  initialisation flag, the drawn geometry and the current hand angles.
  Ghost counters record timers, renders and updates. The methods are the
  constructor, `start`, `stop`, `changeTimezone`, `_updateClock` and
  `_render`.

Things outside the widget become parameters:

- the handle `setInterval` returns: a positive integer, as browser timer
  ids are;
- whether the timezone provider (`moment.tz`) is present: a boolean;
- what the local clock and the provider report at the moment of an update:
  an `Environment`;
- how a number is written as text: a function `fmt`.

Three details of the code a reader might not expect:

- A size is accepted whenever it is non-zero. Negative sizes are not
  rejected (`opts.size || 400`).
- The hand outlines keep the asymmetric last vertex.
- The ticks are placed at (0.5 + r sin, 0.5 + r cos) with y growing
  downward, so step 0 is at 6 o'clock and the steps run counter-clockwise,
  while the hands turn clockwise from 12 o'clock. The dial still reads
  right because its classes are symmetric under that reflection.

## Model

| member | source | states |
|---|---|---|
| `TimeOfDay.ReadingOf` | src/clock.js:66-82 | the reading keeps the sampled minutes and seconds; with minutes in [0,60) its hours lie in [hour, hour+1) and their whole part is the wall hour; for a valid wall time they lie in [0,24) |
| `TimeOfDay.ReadingRoundTrip` | src/clock.js:69-71 | the wall time can be read back from the reading, and the fractional hour times 60 is the minute count |
| `TimeOfDay.Mod12` | src/clock.js:90 | JavaScript `x % 12`: in [0,12) for non-negative x, in (-12,0] for negative x, and x itself for x in [0,12) |
| `TimeOfDay.Mod12Periodic` | src/clock.js:90 | for non-negative hours, adding 12 does not change the remainder |
| `TimeOfDay.Angles` | src/clock.js:84-91 | second and minute angles are multiples of 6 in [0,360) for values in [0,60); the hour angle is in [0,360) for non-negative hours and in (-360,0] for negative ones |
| `TimeOfDay.AnglesExamples` | src/clock.js:88-90 | {3.5, 30, 0} gives hour 105, minute 180, second 0; {0, 0, 45} gives second 270 and the others 0 |
| `TimeOfDay.HourHandFollowsMinutes` | src/clock.js:66-90 | for a sampled time, the hour angle is 30 per hour (mod 12) plus one twelfth of the minute angle |
| `TimeOfDay.TwelveHoursApartLookAlike` | src/clock.js:69-90 | wall times 12 hours apart give the same three angles |
| `Dial.Classify` | src/clock.js:112-124 | a step is long iff step%15 == 0, medium iff step%5 == 0 and not step%15 == 0, short iff step%5 != 0; exactly one class applies |
| `Dial.InnerRadius` | src/clock.js:103-124 | each class's inner radius is positive and below the rim radius 0.98 x 0.48 |
| `Dial.StrokeWidth` | src/clock.js:112-124 | each class's stroke width is positive and below 0.03 |
| `Dial.LongerTicksAreThicker` | src/clock.js:112-124 | of two classes, the tick that reaches further inward is the thicker one, and distinct classes have distinct lengths |
| `Dial.TickAt` | src/clock.js:107-125 | the tick for a step sits at step x 6 degrees, counted from 6 o'clock counter-clockwise (not the hands' convention), starts on the rim and ends strictly inside it, at its class's radius with its class's width |
| `Dial.TickUnderEachMinute` | src/clock.js:89-124 | the tick a hand at minute m covers is that of step (30 - m) mod 60, and it has m's class: long at quarter hours, medium at other five-minute marks, short elsewhere |
| `Dial.TickCounts` | src/clock.js:107-124 | over n steps there are ceil(n/15) long, ceil(n/5) - ceil(n/15) medium and n - ceil(n/5) short ticks |
| `Dial.BuildDial` | src/clock.js:100-126 | the loop emits the 60 ticks of steps 0..59 in order, each classified by its step, all running inward from the rim: 4 long, 8 medium, 48 short |
| `Dial.TickLineOnRadius` | src/clock.js:108-125 | for a unit direction, the drawn line starts on the rim circle, ends on the class's inner circle, and both ends lie on one radius |
| `Hands.HandOutline` | src/clock.js:143-153 | a plain hand has 6 vertices |
| `Hands.HandOutlineShape` | src/clock.js:146-151 | stub corners and shoulders are mirror pairs about x = 0.5 at the stub height; the tip is (0.5, 0.5 - outerDia x length), pointLength above the shoulders; the last vertex is on the vertical line through the left edge at outerDia x (0.5 + outerDia x stubLength), and equals the first vertex only if outerDia = 1 or that height is 0 |
| `Hands.CounterweightOutline` | src/clock.js:157-168 | the second hand has 7 vertices |
| `Hands.Counterweight` | src/clock.js:169-171 | the counterweight ellipse is centred on the hand's axis (its own mirror image) at the height of the stub corners, and is taller than it is wide |
| `Hands.CounterweightShape` | src/clock.js:160-170 | the stub corners, shoulders and the two tip points (0.5 +- pointWidth) are mirror pairs; the last vertex is as written, on the vertical line through the left edge; the ellipse is centred on the middle of the stub edge |
| `Hands.VerticalSpurAddsNoArea` | src/clock.js:150-151 | a last vertex on the vertical line through both of its neighbours leaves the shoelace area unchanged |
| `Hands.LastVertexAddsNoArea` | src/clock.js:143-168 | both outlines fill the same area as the polygon without their asymmetric last vertex |
| `Hands.WhereTheLastVertexFalls` | src/clock.js:128-166 | for the minute and hour hands the last vertex lies between shoulder and stub corner; for the second hand it lies above the shoulder (y 0.28608 against 0.4344), left of the taper edge at that height |
| `Hands.HandsFitTheDial` | src/clock.js:103-138 | hour hand shorter than minute hand shorter than second hand, and every vertex of every hand, the second hand's two off-axis tip points included, strictly inside the rim circle of the ticks |
| `PathData.PathStringIsMoveThenLines` | src/clock.js:209-211 | the accumulated string is "M" and the first vertex, then " L" and each further vertex |
| `PathData.PathStringCounts` | src/clock.js:209-212 | for numerals without path letters, the d string starts with 'M', holds one 'M', exactly len-1 'L' separators and one comma per vertex |
| `PathData.CreatePath` | src/clock.js:202-214 | the loop's result is the path of the given fill whose d string is the move-to / line-to sequence, empty for no vertices |
| `ClockWidget.SizeOf` | src/clock.js:9 | the size is never 0: an absent or zero size gives 400, any other size is kept |
| `ClockWidget.NowReading` | src/clock.js:57-82 | the reading comes from the local clock under the default strategy and from the provider for the remembered timezone under the timezone strategy, keeping its wall time |
| `ClockWidget.Clock.constructor` | src/clock.js:6-12 | a new clock has rendered once and updated once, runs no timer, and uses the timezone strategy exactly when a truthy timezone was given and the provider is present |
| `ClockWidget.Clock.Start` | src/clock.js:40-44 | a running handle is kept; otherwise the new handle is stored; afterwards exactly one timer runs |
| `ClockWidget.Clock.Stop` | src/clock.js:46-51 | afterwards no handle and no timer; on a stopped clock nothing changes |
| `ClockWidget.Clock.ChangeTimezone` | src/clock.js:57-64 | truthy timezone and provider present: timezone strategy and the name stored; otherwise default strategy with the old name kept; hands updated from the new strategy only when initialised |
| `ClockWidget.Clock.UpdateClock` | src/clock.js:84-91 | the angles become those of a fresh reading through the selected strategy, independent of the previous angles |
| `ClockWidget.Clock.Render` | src/clock.js:97-141 | the geometry becomes the 60 ticks and the three hand paths, whatever the pixel size; hands at angle 0; the clock is initialised |

## Left out

- DOM and SVG plumbing is not modelled: the `innerHTML` template and its
  `SIZE` substitution, `getElementsByClassName`, `createElementNS`,
  `setAttributeNS`, `_createLine`, `_createEllipse` and `_transformHand`.
  Their values are kept as data instead: tick records, the counterweight
  ellipse, path elements and the hand angles.
- Timer scheduling is not modelled. `setInterval` becomes the handle
  parameter of `Start`, and `clearInterval` becomes clearing the handle.
  The once-a-second callback is not modelled; each call of `UpdateClock`
  stands for one tick.
- `new Date()` and `moment().tz(...)` are external time sources. What they
  report is the `Environment` parameter. The presence test
  `typeof moment.tz` is the boolean `momentTz`.
- `Math.sin` and `Math.cos` are not modelled. The direction of a tick is
  an abstract pair (sin, cos). The ticks `_render` stores keep the class,
  the angle and the radii, not the endpoint coordinates.
- JavaScript's number-to-string conversion is the function parameter
  `fmt`.
- Floating-point rounding is not modelled. Constants and products
  (0.48 x 0.98, minutes / 60) are exact reals in the model, and binary
  doubles in the source.
- Non-string timezone arguments and NaN or non-numeric sizes are not
  modelled. The model takes the timezone as an optional string and the
  size as an optional real.
- The jQuery plugin registration and its `$.data` instance cache are
  host-library glue and are not modelled.
- `this.dom`, the host element, is not modelled.
