# Weather widget core: particles, theme and drag-scroll, in Dafny

This project models the simulation and decision layer of the Stimulus
controller `app/javascript/controllers/weather_controller.js` of a weather
dashboard:

- **Particles ("Mushi")** (`particles.dfy`). There is a pool of 120 point
  lights. On every animation frame each one drifts: up at half speed when the
  weather is clear, down otherwise. It respawns with fresh random size, speeds
  and opacity once it passes 10 px beyond the far edge. The pointer pushes it
  away when it is closer than 150 px. Its opacity pulses in a triangular wave
  between 0.2 and 0.8. The class `Mushi` holds the mutable fields. Its methods
  are proved equal to the value-level functions `AfterReset`, `Drift`,
  `Push`, `Pulse` and `AfterUpdate`, and the bounds and envelope are proved
  about those functions.
- **Theme resolver** (`theme_resolver.dfy`). It gives a first-match decision
  over the city's local time and that day's sunrise and sunset. Each is an
  integer number of milliseconds. The windows are 45 minutes either side of
  sunrise (Dawn) and of sunset (Dusk), then come Day, Morning (before sunrise)
  and Night. Dusk is folded into the morning palette for the particles. A
  `weather-clear` class is added for a daylight theme with weather code 0
  or 1.
- **Classifiers** (`classifiers.dfy`). This covers weather code to
  description and particle weather, weather code to icon class, wind bearing
  to compass point (with JavaScript's rounding and remainder), the US AQI
  badge, and the hours the hourly strip shows.
- **Drag-scroll and glide** (`drag_scroll.dfy`). While the button is down,
  the strip's offset follows the pointer at 1.5 times its travel. On mouseup a
  glide starts: each frame stops if the speed is below 0.5, and otherwise
  multiplies the speed by 0.92 and scrolls by the result.
- **Shared state** (`controller.dfy`). The class `Scene` is the controller's
  `appState`: theme, weather, particle pool, pointer and canvas size. It holds
  the pool loops of `resizeCanvas` and `animate`, the pointer listeners, and
  the theme and weather writes that follow a forecast.

Some behaviour of `weather_controller.js` is easy to misread:

- A pointer exactly on a particle makes the source divide by a zero distance.
  The particle's coordinates then become NaN; no "zero force" guard exists.
  `Particles.Push` returns `None` for that case.
- The glide handle `momentumID` is never assigned. So mousedown does not stop
  a running glide, and `velX` is not reset either: a click with no move
  launches the previous gesture's speed again (`ClickRelaunchesStaleVelocity`).
- With launch speed 10, the glide moves on 36 frames (`GlideFromTen`). Its
  total is strictly less than 10 · 0.92 / 0.08 (`GlideBounded`).
- The `currentHour >= 0` test in the dark branch always holds
  (`HourIsIrrelevant`).
- The opacity can overshoot 0.8 and 0.2 by up to 0.01, because the direction
  flips after the step. The proved envelope is therefore (0.19, 0.81).

## Model

| member | source | states |
|---|---|---|
| `Particles.AfterReset` | app/javascript/controllers/weather_controller.js:26-34 | a reset draws size in [1,3), speedY in [0.2,1.0), speedX in [-0.25,0.25), opacity in [0.2,0.7) with growing set, x in [0,W), and y on the entry edge for the weather; canvas, theme and weather are kept |
| `Particles.Drift` | app/javascript/controllers/weather_controller.js:40-47 | clear moves up by speedY·0.5, otherwise down by speedY; leaving the far margin replaces the particle by a reset one; x then moves by the current speedX; spawn bounds are preserved |
| `Particles.RespawnAtOppositeEdge` | app/javascript/controllers/weather_controller.js:40-47 | a snow particle below H+10 re-enters above the top (y = -10 < 0), a clear one above -10 re-enters below the bottom (y = H+10), with fresh opacity and x = draw·W + speedX |
| `Particles.Push` | app/javascript/controllers/weather_controller.js:49-58 | no pointer, or a distance of 150 or more, changes nothing; only x and y ever change; the result is undefined (NaN in the source) exactly when the pointer lies on the particle |
| `Particles.PushAway` | app/javascript/controllers/weather_controller.js:49-58 | inside the radius the displacement is collinear with and opposite to the pointer direction, of length (150-dist)/150·8, which lies in (0, 8] |
| `Particles.Pulse` | app/javascript/controllers/weather_controller.js:60-66 | each tick moves opacity by exactly 0.01 in the growing direction; the direction flips exactly when the new opacity reaches 0.8 or more (growing) or 0.2 or less (shrinking) |
| `Particles.PulseKeepsEnvelope` | app/javascript/controllers/weather_controller.js:60-66 | one tick keeps 0.19 < opacity < 0.81, growing implies below 0.8, shrinking implies above 0.2 |
| `Particles.PulseForever` | app/javascript/controllers/weather_controller.js:60-66 | any number of ticks keep that envelope |
| `Particles.PulseAfterReset` | app/javascript/controllers/weather_controller.js:32-33 | from a reset's opacity, growing, any number of ticks stay in the envelope |
| `Particles.Drifted` | app/javascript/controllers/weather_controller.js:37-47 | after the shared weather and theme are copied in and the drift runs: a particle that stays in keeps opacity and direction and moves by its speeds; one that escapes re-enters on the entry edge, growing; spawn bounds are preserved |
| `Particles.AfterUpdate` | app/javascript/controllers/weather_controller.js:36-67 | update copies the shared weather and theme, keeps the canvas size, preserves spawn bounds and envelope, and is undefined exactly when the pointer sits on the drifted particle |
| `Particles.Style` | app/javascript/controllers/weather_controller.js:73-84 | the fill carries the particle's opacity and the glow radius is twice its size; day draws fill (255, 230, 150) with glow (255, 215, 0, 0.5), morning fill (255, 200, 200) with glow (255, 100, 100, 0.5), every other theme fill (200, 255, 255) with glow (0, 255, 255, 0.8); the fill is warm (red 255) exactly for day and morning |
| `Particles.PaletteClasses` | app/javascript/controllers/weather_controller.js:73-82 | two particles share a glow, and likewise a fill colour, exactly when their themes fall in the same class of day, morning and everything else |
| `Particles.Spawn` | app/javascript/controllers/weather_controller.js:12-24 | the constructor's particle is well-formed and growing; truthy (present, non-zero) x and y are used as given, otherwise x is the reset's draw in [0, W) and y is the height draw times the canvas height |
| `Particles.Mushi.constructor` | app/javascript/controllers/weather_controller.js:12-24 | the new object's fields equal `Spawn` and satisfy the spawn bounds |
| `Particles.Mushi.Reset` | app/javascript/controllers/weather_controller.js:26-34 | the fields become `AfterReset` of the old fields |
| `Particles.Mushi.Update` | app/javascript/controllers/weather_controller.js:36-67 | the fields become `AfterUpdate` of the old fields, and validity is kept |
| `Particles.Mushi.DriftPhase` | app/javascript/controllers/weather_controller.js:40-47 | the fields become `Drift` of the old fields |
| `Particles.Mushi.PushPhase` | app/javascript/controllers/weather_controller.js:49-58 | the fields become `Push` of the old fields |
| `Particles.Mushi.PulsePhase` | app/javascript/controllers/weather_controller.js:60-66 | opacity and growing become `Pulse` of the old ones; nothing else changes |
| `Particles.Mushi.Draw` | app/javascript/controllers/weather_controller.js:69-87 | returns the style `Style` gives for the current fields |
| `ThemeResolver.Resolve` | app/javascript/controllers/weather_controller.js:281-320 | Dawn iff within 2,700,000 ms of sunrise (inclusive, even when also near sunset); Dusk iff not that and within the window of sunset; Day iff sunrise+window < t < sunset-window; Morning iff t < sunrise-window and outside the sunset window; Night iff t is past both sunrise+window and sunset+window; the theme follows the label |
| `ThemeResolver.DawnBeatsDusk` | app/javascript/controllers/weather_controller.js:289-298 | when both windows hold, the result is (morning, "Dawn") |
| `ThemeResolver.HourIsIrrelevant` | app/javascript/controllers/weather_controller.js:309-319 | the hour of day never changes the result |
| `ThemeResolver.ParticleTheme` | app/javascript/controllers/weather_controller.js:332 | the stored theme is never dusk; dusk becomes morning, every other theme is unchanged |
| `ThemeResolver.BodyClasses` | app/javascript/controllers/weather_controller.js:323-328 | the body has exactly theme-name, followed by weather-clear iff the theme is day and the code is 0 or 1 (assigning className drops every earlier class) |
| `ThemeResolver.ClearDay` | app/javascript/controllers/weather_controller.js:326 | the clear-day case holds exactly for the day theme with code 0 or 1, and only when the particle weather is clear |
| `ThemeResolver.ThemeForParticles` | app/javascript/controllers/weather_controller.js:326-332 | particles never see dusk; the clear-day flag holds iff sunrise+window < t < sunset-window and the code is 0 or 1 |
| `Classifiers.GetWeatherInfo` | app/javascript/controllers/weather_controller.js:354-362 | type clear iff code <= 3; each description holds exactly on its own code band (0; other codes up to 3; 4-48; 49-67; 68-77; 78-82; above 82) |
| `Classifiers.GetIconClass` | app/javascript/controllers/weather_controller.js:364-372 | each icon holds exactly on its band: sun or moon for code 0 and cloud-sun or cloud-moon for other codes up to 3, chosen by isDay; fog 4-48; rain 49-67; snowflake 68-77; plain cloud 78-90; lightning above 90 |
| `Classifiers.IconIgnoresDayWhenNotClear` | app/javascript/controllers/weather_controller.js:364-372 | above code 3 the icon does not depend on isDay |
| `Classifiers.IconAgreesWithWeather` | app/javascript/controllers/weather_controller.js:354-372 | a sun or moon icon appears iff the particle weather is clear |
| `Classifiers.JsRound` | app/javascript/controllers/weather_controller.js:350 | Math.round gives the integer within [-0.5, 0.5) of its argument, so halves go up |
| `Classifiers.JsRemEight` | app/javascript/controllers/weather_controller.js:350 | JavaScript % 8 agrees with the Euclidean remainder on non-negative operands and is zero or negative on negative ones |
| `Classifiers.GetCompassDirection` | app/javascript/controllers/weather_controller.js:348-352 | undefined iff round(deg/45) is negative and not a multiple of 8; otherwise the direction at index round(deg/45) mod 8 |
| `Classifiers.CompassSector` | app/javascript/controllers/weather_controller.js:348-352 | a bearing in [45k-22.5, 45k+22.5), k in 0..8, reads the k-th point (N again for k = 8) |
| `Classifiers.CompassUndefinedJustWestOfNorth` | app/javascript/controllers/weather_controller.js:348-352 | bearings in [-67.5, -22.5) give undefined |
| `Classifiers.AqiSummaryOf` | app/javascript/controllers/weather_controller.js:336-346 | no reading gives N/A; otherwise Good up to 50, Moderate above 50 up to 100, Unhealthy above 100 |
| `Classifiers.NatToString` | app/javascript/controllers/weather_controller.js:229 | the hour's rendering is a non-empty string of decimal digits that reads back as the hour, with a leading '0' only for zero |
| `Classifiers.HourLabel` | app/javascript/controllers/weather_controller.js:229-230 | the label is "Now" exactly for the current hour |
| `Classifiers.HourLabelDigits` | app/javascript/controllers/weather_controller.js:229 | any other hour's label is its plain decimal digits (no leading zero except for hour 0), reading back as the hour, followed by ":00" |
| `Classifiers.RenderHourly` | app/javascript/controllers/weather_controller.js:217-231 | the cells are the hours from currentHour to min(23, count-1), in order (none when currentHour >= count); exactly the first is labelled "Now", the others "h:00" |
| `DragScroll.GlideMeasureDrops` | app/javascript/controllers/weather_controller.js:459-462 | a frame at speed 0.5 or more shrinks the speed by the factor 0.92 and lowers the termination measure |
| `DragScroll.GlideDisplacement` | app/javascript/controllers/weather_controller.js:458-462 | the glide's total: zero exactly when the launch speed is below 0.5, and never of the opposite sign to the launch |
| `DragScroll.GlideSteps` | app/javascript/controllers/weather_controller.js:458-467 | the glide has finitely many moving frames, and none iff the launch speed is below 0.5 |
| `DragScroll.FrameSpeedShift` | app/javascript/controllers/weather_controller.js:461 | the speed after k+1 decays from v is the speed after k decays from 0.92·v |
| `DragScroll.GeomSumShift` | app/javascript/controllers/weather_controller.js:461-462 | the first n+1 increments from v are 0.92·v followed by the first n from 0.92·v |
| `DragScroll.GlideIsGeometric` | app/javascript/controllers/weather_controller.js:458-467 | the total glide is the sum of the increments v·0.92^k for k = 1..n, n being the number of moving frames |
| `DragScroll.GlideStopsWhenSlow` | app/javascript/controllers/weather_controller.js:459 | the speed at the stopping frame is below 0.5 |
| `DragScroll.GlideFastBeforeStop` | app/javascript/controllers/weather_controller.js:459 | every earlier frame started at speed 0.5 or more, so the stop is the first slow frame |
| `DragScroll.GlideBounded` | app/javascript/controllers/weather_controller.js:454-468 | below 0.5 the glide does nothing; it moves in the sign of the launch speed (strictly from 0.5 up) and by less than abs(v)·0.92/0.08 |
| `DragScroll.GlideFromTen` | app/javascript/controllers/weather_controller.js:454-468 | a launch speed of 10 moves the strip on exactly 36 frames |
| `DragScroll.AfterMouseDown` | app/javascript/controllers/weather_controller.js:419-425 | mousedown sets down, records pointer x and the current offset as anchors, and keeps velX and the offset |
| `DragScroll.AfterMouseLeave` | app/javascript/controllers/weather_controller.js:427-430 | mouseleave only clears down: no glide |
| `DragScroll.AfterMouseUp` | app/javascript/controllers/weather_controller.js:432-436 | mouseup clears down and adds the glide of the current velX to the offset |
| `DragScroll.AfterMouseMove` | app/javascript/controllers/weather_controller.js:438-450 | moves while up change nothing; while down the offset becomes anchor - 1.5·(x - startX) and velX the change of offset |
| `DragScroll.MovesWhileUpChangeNothing` | app/javascript/controllers/weather_controller.js:438-439 | any run of moves with the button up leaves the state unchanged |
| `DragScroll.DragTracksPointer` | app/javascript/controllers/weather_controller.js:438-450 | during a drag the offset depends only on the anchors and the last pointer x, and velX is -1.5 times the last pointer step |
| `DragScroll.ClickRelaunchesStaleVelocity` | app/javascript/controllers/weather_controller.js:416-436 | mousedown then mouseup with no move glides with the previous gesture's velX |
| `DragScroll.Slider.constructor` | app/javascript/controllers/weather_controller.js:411-417 | the drag starts not down with velX 0 |
| `DragScroll.Slider.MouseDown` | app/javascript/controllers/weather_controller.js:419-425 | the fields become `AfterMouseDown` for x = pageX - offsetLeft |
| `DragScroll.Slider.MouseLeave` | app/javascript/controllers/weather_controller.js:427-430 | the fields become `AfterMouseLeave` |
| `DragScroll.Slider.MouseUp` | app/javascript/controllers/weather_controller.js:432-436 | the fields become `AfterMouseUp` |
| `DragScroll.Slider.MouseMove` | app/javascript/controllers/weather_controller.js:438-450 | the fields become `AfterMouseMove` for x = pageX - offsetLeft |
| `DragScroll.Slider.BeginMomentum` | app/javascript/controllers/weather_controller.js:454-468 | the loop of frames adds `GlideDisplacement` of the launch speed to the offset in `GlideSteps` frames and changes nothing else |
| `Controller.Scene.constructor` | app/javascript/controllers/weather_controller.js:100-106 | the initial state is theme night, weather snow, an empty pool and no pointer |
| `Controller.Scene.ResizeCanvas` | app/javascript/controllers/weather_controller.js:257-261 | every particle's canvas size becomes the window size and nothing else changes |
| `Controller.Scene.InitCanvas` | app/javascript/controllers/weather_controller.js:245-250 | the particles already in the pool get the new canvas size and nothing else; 120 fresh particles are appended after them, each equal to `Spawn` with the current theme and weather |
| `Controller.Scene.AddParticle` | app/javascript/controllers/weather_controller.js:248-249 | one fresh particle equal to `Spawn` on the current canvas with the current theme and weather is appended, and the pool stays valid |
| `Controller.Scene.PointerMove` | app/javascript/controllers/weather_controller.js:252-253 | the pointer becomes the event position |
| `Controller.Scene.PointerOut` | app/javascript/controllers/weather_controller.js:254 | the pointer becomes absent |
| `Controller.Scene.UpdateSlot` | app/javascript/controllers/weather_controller.js:265-268 | one slot becomes `AfterUpdate` of its old state and its `Style` is returned; every other slot is unchanged and the pool stays valid |
| `Controller.Scene.Animate` | app/javascript/controllers/weather_controller.js:263-268 | every particle becomes `AfterUpdate` of its old state with the shared pointer, weather and theme; the returned styles are their draw styles; the pool stays valid |
| `Controller.Scene.HandleTheme` | app/javascript/controllers/weather_controller.js:272-334 | the stored theme is the particle theme of `Resolve` and is never dusk; the badge is its label; the body classes are `BodyClasses`; the scene's validity is kept |
| `Controller.Scene.ApplyForecast` | app/javascript/controllers/weather_controller.js:181-208 | the stored weather is clear iff the code is at most 3, then the theme is written as by `HandleTheme`, and the returned badge and body classes are those of `HandleTheme` (the `Resolve` label and `BodyClasses` of the raw theme and weather code); the scene's validity is kept |

## Left out

- Network I/O: `fetchWeather` (geocoding, forecast and air-quality requests, their errors) is not modelled.
- DOM writes: the `textContent` and `innerHTML` writes of `processAllData`, the loading and error display with their timers, `toggleDetails` and `scrollIntoView`, and the HTML templating of the hourly cells (their icon and temperature) are not modelled. Only the hour and label selection of `renderHourly` is kept.
- Dates and locale: `Date` construction, time-zone offsets, `getHours` and date formatting are library calls. The city time, sunrise, sunset and current hour enter as integers (milliseconds and 0..23). `toFixed` formatting is left out.
- Canvas drawing calls are rendering. Only the palette choice and the glow radius of `draw` are modelled. The browser's clamping and rounding of `scrollLeft` is browser behaviour, so the offset is an unclamped real.
- Randomness: every `Math.random()` is an input in [0, 1) (`Draws`, and the height draw of the constructor).
- `Math.sqrt`: the caller supplies the pointer distance together with the fact that it is the Euclidean length.
- Floating point: positions, speeds, opacity and velocity are exact reals, so IEEE rounding and NaN propagation are not modelled.
- Scheduling: `requestAnimationFrame` is not modelled. `Scene.Animate` is one frame. A glide's frames run to completion inside `Slider.BeginMomentum`, so a mousedown arriving during a glide (which, since `momentumID` is never assigned, would not stop it) and overlapping glides are interleavings that are not modelled.
- Listener registration and removal (including the ineffective removal of a freshly bound resize handler in `disconnect`) and the `touches[0]` guard of the touch listener are plumbing.
- Particles.Mushi.Update, Particles.Mushi.PushPhase: require a non-zero pointer distance when a pointer is present. In the source, that case turns the particle's coordinates into NaN, a value the real fields cannot hold; `Particles.Push` and `Particles.AfterUpdate` return `None` for it.
- Controller.Scene.Animate, Controller.Scene.UpdateSlot: require, like `Mushi.Update`, a non-zero pointer distance for every particle when a pointer is present.
- Classifiers.AqiSummaryOf: an `undefined` reading (present but empty air-quality data) is not distinguished from a number; only numbers and `null` are modelled.
- The great-circle distance and the vertical day-strip scroller have no code in `weather_controller.js` and are not part of this model.
