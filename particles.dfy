/** The "Mushi" particle: a drifting point light that respawns at the far
    edge, is pushed away by the pointer and pulses in opacity.

    The value-level functions below are the specification of one particle;
    the class `Mushi` is the object the animation loop mutates in place, and
    each of its methods is proved to move its fields exactly as the matching
    function says. */
module Particles {
  import opened Types

  const BaseSpeed: real := 0.8
  const InteractionRadius: real := 150.0
  /** The largest displacement the pointer can cause in one tick. */
  const PushStrength: real := 8.0
  /** The soft margin beyond the canvas edge at which a particle respawns. */
  const Margin: real := 10.0
  const PulseStep: real := 0.01
  const PulseHigh: real := 0.8
  const PulseLow: real := 0.2

  /** The `Math.random()` draws one respawn consumes, in the order `reset`
      uses them; each lies in [0, 1). */
  datatype Draws = Draws(x: real, size: real, speed: real, drift: real, opacity: real)

  predicate UnitDraw(r: real)
  {
    0.0 <= r < 1.0
  }

  predicate ValidDraws(d: Draws)
  {
    UnitDraw(d.x) && UnitDraw(d.size) && UnitDraw(d.speed) && UnitDraw(d.drift) && UnitDraw(d.opacity)
  }

  /** Every field of a particle. */
  datatype Particle = Particle(
    canvasWidth: real, canvasHeight: real,
    theme: Theme, weather: Weather,
    x: real, y: real,
    size: real, speedY: real, speedX: real,
    opacity: real, growing: bool)

  /** The opacity envelope of the pulse: strictly inside (0.19, 0.81), below
      the top while growing and above the bottom while shrinking. */
  predicate PulseInv(opacity: real, growing: bool)
  {
    0.19 < opacity < 0.81 &&
    (growing ==> opacity < PulseHigh) &&
    (!growing ==> opacity > PulseLow)
  }

  /** The bounds drawn at spawn, and the pulse envelope. */
  predicate WellFormed(p: Particle)
  {
    1.0 <= p.size < 3.0 &&
    0.2 <= p.speedY < BaseSpeed + 0.2 &&
    -0.25 <= p.speedX < 0.25 &&
    PulseInv(p.opacity, p.growing)
  }

  /** The y at which a respawned particle enters: below the bottom edge when
      clear (it rises), above the top edge otherwise (it falls). */
  function SpawnY(weather: Weather, canvasHeight: real): real
  {
    if weather == Clear then canvasHeight + Margin else -Margin
  }

  /** A draw in [0, 1) scales a non-negative extent into [0, extent]. */
  lemma ScaleBelow(r: real, extent: real)
    requires UnitDraw(r)
    ensures extent >= 0.0 ==> 0.0 <= r * extent <= extent
    ensures extent > 0.0 ==> r * extent < extent
  {
    if extent > 0.0 {
      assert r * extent < 1.0 * extent;
    }
  }

  /** `reset`: re-randomise position, size, speeds and opacity. */
  function AfterReset(p: Particle, d: Draws): (r: Particle)
    requires ValidDraws(d)
    ensures WellFormed(r) && r.growing
    ensures PulseLow <= r.opacity < 0.7
    ensures p.canvasWidth >= 0.0 ==> 0.0 <= r.x <= p.canvasWidth
    ensures p.canvasWidth > 0.0 ==> r.x < p.canvasWidth
    ensures r.y == SpawnY(p.weather, p.canvasHeight)
    ensures r.canvasWidth == p.canvasWidth && r.canvasHeight == p.canvasHeight
    ensures r.theme == p.theme && r.weather == p.weather
  {
    ScaleBelow(d.x, p.canvasWidth);
    p.(x := d.x * p.canvasWidth,
       y := SpawnY(p.weather, p.canvasHeight),
       size := d.size * 2.0 + 1.0,
       speedY := d.speed * BaseSpeed + 0.2,
       speedX := (d.drift - 0.5) * 0.5,
       opacity := d.opacity * 0.5 + 0.2,
       growing := true)
  }

  /** Whether the vertical move carries the particle past the far margin. */
  predicate Escapes(p: Particle)
  {
    if p.weather == Clear then p.y - p.speedY * 0.5 < -Margin
    else p.y + p.speedY > p.canvasHeight + Margin
  }

  /** Phase one of `update`: drift vertically (up at half speed when clear,
      down at full speed otherwise), respawn on leaving the far margin, then
      drift horizontally by the (possibly fresh) `speedX`. */
  function Drift(p: Particle, d: Draws): (r: Particle)
    requires ValidDraws(d)
    ensures !Escapes(p) ==>
      r == p.(x := p.x + p.speedX,
              y := if p.weather == Clear then p.y - p.speedY * 0.5 else p.y + p.speedY)
    ensures Escapes(p) ==>
      r == AfterReset(p, d).(x := AfterReset(p, d).x + AfterReset(p, d).speedX)
    ensures r.canvasWidth == p.canvasWidth && r.canvasHeight == p.canvasHeight
    ensures r.theme == p.theme && r.weather == p.weather
    ensures WellFormed(p) ==> WellFormed(r)
  {
    var moved := if p.weather == Clear then p.(y := p.y - p.speedY * 0.5) else p.(y := p.y + p.speedY);
    var respawn := if p.weather == Clear then moved.y < -Margin else moved.y > p.canvasHeight + Margin;
    var q := if respawn then AfterReset(moved, d) else moved;
    q.(x := q.x + q.speedX)
  }

  /** `dist` is the Euclidean length of (dx, dy): the value `Math.sqrt`
      would return, supplied by the caller. */
  predicate IsDistance(dist: real, dx: real, dy: real)
  {
    dist >= 0.0 && dist * dist == dx * dx + dy * dy
  }

  /** The magnitude of the push at distance `dist` (inside the radius). */
  function PushMagnitude(dist: real): real
  {
    (InteractionRadius - dist) / InteractionRadius * PushStrength
  }

  /** Phase two of `update`: push the particle away from the pointer when it
      lies strictly inside the interaction radius. The source divides by
      `dist` unguarded, so a pointer exactly on the particle yields NaN
      coordinates; that outcome is `None` here. */
  function Push(p: Particle, pointer: Option<Point>, dist: real): (r: Option<Particle>)
    requires pointer.Some? ==> IsDistance(dist, pointer.value.x - p.x, pointer.value.y - p.y)
    ensures r.None? <==> pointer.Some? && dist == 0.0
    ensures pointer.None? || dist >= InteractionRadius ==> r == Some(p)
    ensures r.Some? ==> r.value == p.(x := r.value.x, y := r.value.y)
  {
    if pointer.None? then Some(p)
    else
      var dx := pointer.value.x - p.x;
      var dy := pointer.value.y - p.y;
      if dist < InteractionRadius then
        if dist == 0.0 then None
        else
          var force := (InteractionRadius - dist) / InteractionRadius;
          Some(p.(x := p.x - (dx / dist) * force * PushStrength,
                  y := p.y - (dy / dist) * force * PushStrength))
      else Some(p)
  }

  /** Phase three of `update`: one tick of the triangular opacity wave. */
  function Pulse(opacity: real, growing: bool): (r: (real, bool))
    ensures AbsR(r.0 - opacity) == PulseStep
    ensures growing ==> r.0 > opacity
    ensures !growing ==> r.0 < opacity
    ensures r.1 != growing <==> (growing && r.0 >= PulseHigh) || (!growing && r.0 <= PulseLow)
  {
    if growing then
      var o := opacity + PulseStep;
      (o, !(o >= PulseHigh))
    else
      var o := opacity - PulseStep;
      (o, o <= PulseLow)
  }

  /** The particle after the shared weather and theme are copied in and the
      drift phase has run: the position the pointer distance is taken from. */
  function Drifted(p: Particle, weather: Weather, theme: Theme, d: Draws): (r: Particle)
    requires ValidDraws(d)
    ensures r.weather == weather && r.theme == theme
    ensures r.canvasWidth == p.canvasWidth && r.canvasHeight == p.canvasHeight
    ensures !Escapes(p.(weather := weather)) ==>
      r.y == (if weather == Clear then p.y - p.speedY * 0.5 else p.y + p.speedY) &&
      r.x == p.x + p.speedX && r.opacity == p.opacity && r.growing == p.growing
    ensures Escapes(p.(weather := weather)) ==> r.y == SpawnY(weather, p.canvasHeight) && r.growing
    ensures WellFormed(p) ==> WellFormed(r)
  {
    Drift(p.(weather := weather, theme := theme), d)
  }

  /** `update`: copy the shared state, drift, push, pulse. `None` when the
      push divides by a zero distance. */
  function AfterUpdate(p: Particle, pointer: Option<Point>, weather: Weather, theme: Theme, d: Draws, dist: real): (r: Option<Particle>)
    requires ValidDraws(d)
    requires pointer.Some? ==>
      IsDistance(dist, pointer.value.x - Drifted(p, weather, theme, d).x, pointer.value.y - Drifted(p, weather, theme, d).y)
    ensures r.None? <==> pointer.Some? && dist == 0.0
    ensures r.Some? ==> r.value.weather == weather && r.value.theme == theme
    ensures r.Some? ==> r.value.canvasWidth == p.canvasWidth && r.value.canvasHeight == p.canvasHeight
    ensures r.Some? && WellFormed(p) ==> WellFormed(r.value)
  {
    var q := Drifted(p, weather, theme, d);
    match Push(q, pointer, dist)
    case None => None
    case Some(s) =>
      var pulsed := Pulse(s.opacity, s.growing);
      Some(s.(opacity := pulsed.0, growing := pulsed.1))
  }

  /** `n` ticks of the opacity wave. */
  function PulseN(opacity: real, growing: bool, n: nat): (real, bool)
    decreases n
  {
    if n == 0 then (opacity, growing)
    else
      var next := Pulse(opacity, growing);
      PulseN(next.0, next.1, n - 1)
  }

  /** One tick of the wave keeps the envelope. */
  lemma PulseKeepsEnvelope(opacity: real, growing: bool)
    requires PulseInv(opacity, growing)
    ensures PulseInv(Pulse(opacity, growing).0, Pulse(opacity, growing).1)
  {
  }

  /** Any number of ticks keep the envelope: from a fresh reset (opacity in
      [0.2, 0.7), growing) the opacity never leaves (0.19, 0.81). */
  lemma {:induction false} PulseForever(opacity: real, growing: bool, n: nat)
    requires PulseInv(opacity, growing)
    ensures PulseInv(PulseN(opacity, growing, n).0, PulseN(opacity, growing, n).1)
    decreases n
  {
    if n > 0 {
      var next := Pulse(opacity, growing);
      PulseKeepsEnvelope(opacity, growing);
      PulseForever(next.0, next.1, n - 1);
    }
  }

  /** Any number of ticks from a fresh reset stay in the envelope. */
  lemma PulseAfterReset(p: Particle, d: Draws, n: nat)
    requires ValidDraws(d)
    ensures PulseInv(PulseN(AfterReset(p, d).opacity, true, n).0, PulseN(AfterReset(p, d).opacity, true, n).1)
  {
    PulseForever(AfterReset(p, d).opacity, true, n);
  }

  /** A precipitating particle below the bottom margin respawns above the
      top edge with fresh draws; a clear one above the top margin respawns
      below the bottom edge. */
  lemma RespawnAtOppositeEdge(p: Particle, d: Draws)
    requires ValidDraws(d)
    requires WellFormed(p)
    requires p.weather == Snow ==> p.y > p.canvasHeight + Margin
    requires p.weather == Clear ==> p.y < -Margin
    ensures Drift(p, d).y == SpawnY(p.weather, p.canvasHeight)
    ensures p.weather == Snow ==> Drift(p, d).y < 0.0
    ensures p.weather == Clear ==> Drift(p, d).y > p.canvasHeight
    ensures Drift(p, d).growing && PulseLow <= Drift(p, d).opacity < 0.7
    ensures Drift(p, d).x == d.x * p.canvasWidth + Drift(p, d).speedX
  {
  }

  /** Inside the radius (and off the particle) the push points directly away
      from the pointer and has length (150 - dist) / 150 * 8, in (0, 8]. */
  lemma PushAway(p: Particle, pointer: Point, dist: real)
    requires IsDistance(dist, pointer.x - p.x, pointer.y - p.y)
    requires 0.0 < dist < InteractionRadius
    ensures Push(p, Some(pointer), dist).Some?
    ensures
      var q := Push(p, Some(pointer), dist).value;
      var ex, ey := q.x - p.x, q.y - p.y;
      var dx, dy := pointer.x - p.x, pointer.y - p.y;
      && ex * dy == ey * dx
      && ex * dx + ey * dy < 0.0
      && ex * ex + ey * ey == PushMagnitude(dist) * PushMagnitude(dist)
      && 0.0 < PushMagnitude(dist) <= PushStrength
  {
    var dx, dy := pointer.x - p.x, pointer.y - p.y;
    var m := PushMagnitude(dist);
    var k := m / dist;
    var q := Push(p, Some(pointer), dist).value;
    var ex, ey := q.x - p.x, q.y - p.y;
    assert ex == -(dx / dist) * ((InteractionRadius - dist) / InteractionRadius) * PushStrength;
    assert ex == -(dx * k) by {
      assert (dx / dist) * ((InteractionRadius - dist) / InteractionRadius) * PushStrength == dx * (m / dist);
    }
    assert ey == -(dy * k) by {
      assert (dy / dist) * ((InteractionRadius - dist) / InteractionRadius) * PushStrength == dy * (m / dist);
    }
    assert k > 0.0;
    assert ex * dy == ey * dx;
    assert ex * dx + ey * dy == -(k * (dx * dx + dy * dy));
    assert ex * dx + ey * dy == -(k * (dist * dist));
    assert dist * dist > 0.0;
    assert ex * ex + ey * ey == k * k * (dx * dx + dy * dy);
    assert k * k * (dist * dist) == m * m by {
      assert k * dist == m;
    }
  }

  /** The draw descriptor of one particle: fill colour with the particle's
      opacity, glow colour, glow radius. */
  datatype Rgba = Rgba(r: int, g: int, b: int, a: real)
  datatype DrawStyle = DrawStyle(fill: Rgba, shadow: Rgba, shadowBlur: real)

  /** The palette choice of `draw`: gold for day, rose for morning, cyan for
      anything else; the glow is twice the radius. */
  function Style(p: Particle): (s: DrawStyle)
    ensures s.fill.a == p.opacity && s.shadowBlur == 2.0 * p.size
    ensures s.fill.r == 255 <==> p.theme in {Day, Morning}
    ensures p.theme == Day ==>
      s.fill == Rgba(255, 230, 150, p.opacity) && s.shadow == Rgba(255, 215, 0, 0.5)
    ensures p.theme == Morning ==>
      s.fill == Rgba(255, 200, 200, p.opacity) && s.shadow == Rgba(255, 100, 100, 0.5)
    ensures p.theme !in {Day, Morning} ==>
      s.fill == Rgba(200, 255, 255, p.opacity) && s.shadow == Rgba(0, 255, 255, 0.8)
  {
    match p.theme
    case Day => DrawStyle(Rgba(255, 230, 150, p.opacity), Rgba(255, 215, 0, 0.5), p.size * 2.0)
    case Morning => DrawStyle(Rgba(255, 200, 200, p.opacity), Rgba(255, 100, 100, 0.5), p.size * 2.0)
    case _ => DrawStyle(Rgba(200, 255, 255, p.opacity), Rgba(0, 255, 255, 0.8), p.size * 2.0)
  }

  /** The palette has three classes: day, morning, and every other theme
      (dusk never reaches the particles; night and it share the cyan). Two
      particles glow alike exactly when their themes fall in the same class,
      and the fill alone tells the classes apart as well. */
  lemma PaletteClasses(p: Particle, q: Particle)
    ensures Style(p).shadow == Style(q).shadow <==>
      (p.theme == Day) == (q.theme == Day) && (p.theme == Morning) == (q.theme == Morning)
    ensures Style(p).fill.(a := 0.0) == Style(q).fill.(a := 0.0) <==>
      (p.theme == Day) == (q.theme == Day) && (p.theme == Morning) == (q.theme == Morning)
  {
  }

  /** The starting state built by the constructor: a reset, then either the
      given position (when both coordinates are truthy, i.e. present and
      non-zero) or a random height over the whole canvas. */
  function Spawn(canvasWidth: real, canvasHeight: real, theme: Theme, weather: Weather,
                 x: Option<real>, y: Option<real>, d: Draws, ry: real): (r: Particle)
    requires ValidDraws(d) && UnitDraw(ry)
    ensures WellFormed(r) && r.growing
    ensures r.canvasWidth == canvasWidth && r.canvasHeight == canvasHeight
    ensures r.theme == theme && r.weather == weather
    ensures x.Some? && x.value != 0.0 && y.Some? && y.value != 0.0 ==> r.x == x.value && r.y == y.value
    ensures !(x.Some? && x.value != 0.0 && y.Some? && y.value != 0.0) ==>
      r.y == ry * canvasHeight && (canvasHeight >= 0.0 ==> 0.0 <= r.y <= canvasHeight) &&
      (canvasWidth >= 0.0 ==> 0.0 <= r.x <= canvasWidth) && (canvasWidth > 0.0 ==> r.x < canvasWidth)
  {
    var reset := AfterReset(Particle(canvasWidth, canvasHeight, theme, weather, 0.0, 0.0, 0.0, 0.0, 0.0, 0.0, false), d);
    if x.Some? && x.value != 0.0 && y.Some? && y.value != 0.0 then reset.(x := x.value, y := y.value)
    else
      ScaleBelow(ry, canvasHeight);
      reset.(y := ry * canvasHeight)
  }

  /** One particle of the pool, updated in place by the animation loop. */
  class Mushi {
    var canvasWidth: real
    var canvasHeight: real
    var theme: Theme
    var weather: Weather
    var x: real
    var y: real
    var size: real
    var speedY: real
    var speedX: real
    var opacity: real
    var growing: bool

    /** The fields as one value. */
    function State(): Particle
      reads this
    {
      Particle(canvasWidth, canvasHeight, theme, weather, x, y, size, speedY, speedX, opacity, growing)
    }

    predicate Valid()
      reads this
    {
      WellFormed(State())
    }

    constructor (canvasWidth: real, canvasHeight: real, theme: Theme, weather: Weather,
                 x: Option<real>, y: Option<real>, d: Draws, ry: real)
      requires ValidDraws(d) && UnitDraw(ry)
      ensures Valid()
      ensures State() == Spawn(canvasWidth, canvasHeight, theme, weather, x, y, d, ry)
    {
      this.canvasWidth := canvasWidth;
      this.canvasHeight := canvasHeight;
      this.theme := theme;
      this.weather := weather;
      new;
      Reset(d);
      if x.Some? && x.value != 0.0 && y.Some? && y.value != 0.0 {
        this.x := x.value;
        this.y := y.value;
      } else {
        this.y := ry * this.canvasHeight;
      }
    }

    method Reset(d: Draws)
      requires ValidDraws(d)
      modifies this
      ensures Valid()
      ensures State() == AfterReset(old(State()), d)
    {
      x := d.x * canvasWidth;
      y := if weather == Clear then canvasHeight + Margin else -Margin;
      size := d.size * 2.0 + 1.0;
      speedY := d.speed * BaseSpeed + 0.2;
      speedX := (d.drift - 0.5) * 0.5;
      opacity := d.opacity * 0.5 + 0.2;
      growing := true;
    }

    /** One tick. `dist` is the pointer distance measured after the drift
        phase; a pointer exactly on the particle (a zero distance, where the
        source produces NaN coordinates) is excluded. */
    method Update(pointer: Option<Point>, weather: Weather, theme: Theme, d: Draws, dist: real)
      requires ValidDraws(d)
      requires pointer.Some? ==>
        IsDistance(dist, pointer.value.x - Drifted(State(), weather, theme, d).x,
                   pointer.value.y - Drifted(State(), weather, theme, d).y)
      requires !(pointer.Some? && dist == 0.0)
      modifies this
      ensures AfterUpdate(old(State()), pointer, weather, theme, d, dist) == Some(State())
      ensures old(Valid()) ==> Valid()
    {
      this.weather := weather;
      this.theme := theme;
      DriftPhase(d);
      PushPhase(pointer, dist);
      PulsePhase();
    }

    /** Lines one to three of the tick: vertical drift with respawn, then
        horizontal drift. */
    method DriftPhase(d: Draws)
      requires ValidDraws(d)
      modifies this
      ensures State() == Drift(old(State()), d)
    {
      if weather == Clear {
        y := y - speedY * 0.5;
        if y < -Margin { Reset(d); }
      } else {
        y := y + speedY;
        if y > canvasHeight + Margin { Reset(d); }
      }
      x := x + speedX;
    }

    /** The pointer push, for a pointer not exactly on the particle. */
    method PushPhase(pointer: Option<Point>, dist: real)
      requires pointer.Some? ==> IsDistance(dist, pointer.value.x - x, pointer.value.y - y)
      requires !(pointer.Some? && dist == 0.0)
      modifies this
      ensures Push(old(State()), pointer, dist) == Some(State())
    {
      if pointer.Some? {
        var dx := pointer.value.x - x;
        var dy := pointer.value.y - y;
        if dist < InteractionRadius {
          var force := (InteractionRadius - dist) / InteractionRadius;
          ghost var before := State();
          x := x - (dx / dist) * force * PushStrength;
          y := y - (dy / dist) * force * PushStrength;
          assert State() == before.(x := x, y := y);
          assert before.x == old(x) && before.y == old(y);
          assert dx == pointer.value.x - before.x;
          assert dist != 0.0;
          assert Push(before, pointer, dist).Some?;
          assert Push(before, pointer, dist).value.x == x;
          assert Push(before, pointer, dist).value.y == y;
          assert Push(before, pointer, dist) == Some(State());
        } else {
          assert Push(State(), pointer, dist) == Some(State());
        }
      }
    }

    /** The opacity pulse. */
    method PulsePhase()
      modifies this
      ensures State() == old(State()).(opacity := Pulse(old(opacity), old(growing)).0,
                                       growing := Pulse(old(opacity), old(growing)).1)
    {
      if growing {
        opacity := opacity + PulseStep;
        if opacity >= PulseHigh { growing := false; }
      } else {
        opacity := opacity - PulseStep;
        if opacity <= PulseLow { growing := true; }
      }
    }

    /** The palette and glow `draw` renders this particle with. */
    method Draw() returns (s: DrawStyle)
      ensures s == Style(State())
    {
      if theme == Day {
        s := DrawStyle(Rgba(255, 230, 150, opacity), Rgba(255, 215, 0, 0.5), size * 2.0);
      } else if theme == Morning {
        s := DrawStyle(Rgba(255, 200, 200, opacity), Rgba(255, 100, 100, 0.5), size * 2.0);
      } else {
        s := DrawStyle(Rgba(200, 255, 255, opacity), Rgba(0, 255, 255, 0.8), size * 2.0);
      }
    }
  }
}
