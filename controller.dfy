/** The controller's shared state (`appState`) and the operations on it:
    building the particle pool, resizing, one animation frame, the pointer
    listeners, and the theme and weather written after a forecast. */
module Controller {
  import opened Types
  import opened Particles
  import opened ThemeResolver
  import opened Classifiers

  const ParticleCount: nat := 120

  /** What `handleTheme` writes outside the particle state: the body's
      classes and the time badge. */
  datatype ThemeDisplay = ThemeDisplay(bodyClasses: seq<string>, badge: string)

  class Scene {
    /** The theme the particles are drawn with (never `Dusk`). */
    var theme: Theme
    var weather: Weather
    var particles: seq<Mushi>
    var mouse: Option<Point>
    /** The canvas size. */
    var width: real
    var height: real

    /** The stored theme is never dusk, and pool slots are distinct
        objects, each with its spawn bounds and pulse envelope intact. */
    ghost predicate Valid()
      reads this, particles
    {
      theme != Dusk &&
      (forall i, j :: 0 <= i < j < |particles| ==> particles[i] != particles[j]) &&
      (forall i :: 0 <= i < |particles| ==> particles[i].Valid())
    }

    /** `connect`'s initial state: night theme, snow weather, an empty pool,
        no pointer. */
    constructor ()
      ensures theme == Night && weather == Snow && particles == [] && mouse == None
      ensures Valid()
    {
      theme := Night;
      weather := Snow;
      particles := [];
      mouse := None;
      width := 0.0;
      height := 0.0;
    }

    /** `resizeCanvas`: only the canvas size of every particle changes. */
    method ResizeCanvas(innerWidth: real, innerHeight: real)
      requires Valid()
      modifies this, particles
      ensures Valid()
      ensures width == innerWidth && height == innerHeight
      ensures particles == old(particles)
      ensures theme == old(theme) && weather == old(weather) && mouse == old(mouse)
      ensures forall i :: 0 <= i < |particles| ==>
        particles[i].State() == old(particles[i].State()).(canvasWidth := innerWidth, canvasHeight := innerHeight)
    {
      width := innerWidth;
      height := innerHeight;
      var i := 0;
      while i < |particles|
        invariant 0 <= i <= |particles|
        invariant particles == old(particles)
        invariant width == innerWidth && height == innerHeight
        invariant theme == old(theme) && weather == old(weather) && mouse == old(mouse)
        invariant forall j :: 0 <= j < i ==>
          particles[j].State() == old(particles[j].State()).(canvasWidth := innerWidth, canvasHeight := innerHeight)
        invariant forall j :: i <= j < |particles| ==> particles[j].State() == old(particles[j].State())
      {
        var p := particles[i];
        p.canvasWidth := innerWidth;
        p.canvasHeight := innerHeight;
        i := i + 1;
      }
    }

    /** `initCanvas`: size the canvas, then spawn the pool with the current
        theme and weather, each particle at a random height. */
    method InitCanvas(innerWidth: real, innerHeight: real, draws: seq<Draws>, heights: seq<real>)
      requires Valid()
      requires |draws| == ParticleCount && |heights| == ParticleCount
      requires forall i :: 0 <= i < ParticleCount ==> ValidDraws(draws[i]) && UnitDraw(heights[i])
      modifies this, particles
      ensures Valid()
      ensures width == innerWidth && height == innerHeight
      ensures theme == old(theme) && weather == old(weather) && mouse == old(mouse)
      ensures |particles| == |old(particles)| + ParticleCount
      ensures particles[..|old(particles)|] == old(particles)
      ensures forall k :: 0 <= k < |old(particles)| ==>
        particles[k].State() == old(particles[k].State()).(canvasWidth := innerWidth, canvasHeight := innerHeight)
      ensures forall k :: |old(particles)| <= k < |particles| ==>
        fresh(particles[k]) &&
        particles[k].State() ==
          Spawn(innerWidth, innerHeight, theme, weather, None, None,
                draws[k - |old(particles)|], heights[k - |old(particles)|])
    {
      ResizeCanvas(innerWidth, innerHeight);
      ghost var before := particles;
      var i := 0;
      while i < ParticleCount
        invariant 0 <= i <= ParticleCount
        invariant Valid()
        invariant width == innerWidth && height == innerHeight
        invariant theme == old(theme) && weather == old(weather) && mouse == old(mouse)
        invariant |particles| == |before| + i && particles[..|before|] == before
        invariant forall k :: 0 <= k < |before| ==>
          particles[k].State() == old(particles[k].State()).(canvasWidth := innerWidth, canvasHeight := innerHeight)
        invariant forall k :: |before| <= k < |particles| ==> fresh(particles[k])
        invariant forall k :: |before| <= k < |particles| ==>
          particles[k].State() ==
            Spawn(innerWidth, innerHeight, theme, weather, None, None, draws[k - |before|], heights[k - |before|])
      {
        var p := AddParticle(draws[i], heights[i]);
        i := i + 1;
      }
    }

    /** One step of `initCanvas`'s loop: append a particle spawned on the
        current canvas with the current theme and weather. */
    method AddParticle(d: Draws, ry: real) returns (p: Mushi)
      requires Valid()
      requires ValidDraws(d) && UnitDraw(ry)
      modifies this`particles
      ensures Valid()
      ensures fresh(p) && particles == old(particles) + [p]
      ensures p.State() == Spawn(width, height, theme, weather, None, None, d, ry)
    {
      p := new Mushi(width, height, theme, weather, None, None, d, ry);
      particles := particles + [p];
    }

    /** The mousemove and touchmove listeners. */
    method PointerMove(x: real, y: real)
      modifies this`mouse
      ensures mouse == Some(Point(x, y))
    {
      mouse := Some(Point(x, y));
    }

    /** The mouseout listener. */
    method PointerOut()
      modifies this`mouse
      ensures mouse == None
    {
      mouse := None;
    }

    /** One slot of `animate`'s loop: update the particle in slot `i` and
        return what it draws; every other slot is left as it was. */
    method UpdateSlot(i: nat, d: Draws, dist: real) returns (style: DrawStyle)
      requires Valid()
      requires i < |particles|
      requires ValidDraws(d)
      requires mouse.Some? ==>
        dist != 0.0 &&
        IsDistance(dist, mouse.value.x - Drifted(particles[i].State(), weather, theme, d).x,
                   mouse.value.y - Drifted(particles[i].State(), weather, theme, d).y)
      modifies particles[i]
      ensures Valid()
      ensures AfterUpdate(old(particles[i].State()), mouse, weather, theme, d, dist) == Some(particles[i].State())
      ensures style == Style(particles[i].State())
      ensures forall j :: 0 <= j < |particles| && j != i ==> particles[j].State() == old(particles[j].State())
    {
      var p := particles[i];
      assert forall j :: 0 <= j < |particles| && j != i ==> particles[j] != p;
      p.Update(mouse, weather, theme, d, dist);
      style := p.Draw();
    }

    /** One frame of `animate`: update every particle with the shared
        pointer, weather and theme, and return what each one draws. For each
        slot the caller supplies its respawn draws and its pointer distance
        after the drift phase, which must not be zero. */
    method Animate(draws: seq<Draws>, dists: seq<real>) returns (styles: seq<DrawStyle>)
      requires Valid()
      requires |draws| == |particles| && |dists| == |particles|
      requires forall i :: 0 <= i < |particles| ==> ValidDraws(draws[i])
      requires mouse.Some? ==> forall i :: 0 <= i < |particles| ==>
        dists[i] != 0.0 &&
        IsDistance(dists[i], mouse.value.x - Drifted(particles[i].State(), weather, theme, draws[i]).x,
                   mouse.value.y - Drifted(particles[i].State(), weather, theme, draws[i]).y)
      modifies particles
      ensures Valid()
      ensures |styles| == |particles|
      ensures forall i :: 0 <= i < |particles| ==>
        AfterUpdate(old(particles[i].State()), mouse, weather, theme, draws[i], dists[i]) == Some(particles[i].State()) &&
        styles[i] == Style(particles[i].State())
    {
      styles := [];
      var i := 0;
      while i < |particles|
        invariant 0 <= i <= |particles|
        invariant |styles| == i
        invariant Valid()
        invariant forall j :: 0 <= j < i ==>
          AfterUpdate(old(particles[j].State()), mouse, weather, theme, draws[j], dists[j]) == Some(particles[j].State()) &&
          styles[j] == Style(particles[j].State())
        invariant forall j :: i <= j < |particles| ==> particles[j].State() == old(particles[j].State())
      {
        var s := UpdateSlot(i, draws[i], dists[i]);
        styles := styles + [s];
        i := i + 1;
      }
    }

    /** `handleTheme`: resolve the theme, then store it for the particles
        with dusk folded into morning. */
    method HandleTheme(cityTime: int, sunrise: int, sunset: int, currentHour: int, weatherCode: int)
      returns (display: ThemeDisplay)
      requires 0 <= currentHour <= 23
      modifies this`theme
      ensures theme == ParticleTheme(Resolve(cityTime, sunrise, sunset, currentHour).theme)
      ensures theme != Dusk
      ensures old(Valid()) ==> Valid()
      ensures display.badge == Resolve(cityTime, sunrise, sunset, currentHour).badge
      ensures display.bodyClasses == BodyClasses(Resolve(cityTime, sunrise, sunset, currentHour).theme, weatherCode)
    {
      var resolved := Resolve(cityTime, sunrise, sunset, currentHour);
      var bodyClasses := ["theme-" + ThemeName(resolved.theme)];
      if resolved.theme == Day && (weatherCode == 0 || weatherCode == 1) {
        bodyClasses := bodyClasses + ["weather-clear"];
      }
      theme := if resolved.theme == Dusk then Morning else resolved.theme;
      display := ThemeDisplay(bodyClasses, resolved.badge);
    }

    /** The state writes of `processAllData`: the particle weather from the
        current weather code, then the theme. */
    method ApplyForecast(weatherCode: int, cityTime: int, sunrise: int, sunset: int, currentHour: int)
      returns (desc: string, display: ThemeDisplay)
      requires 0 <= currentHour <= 23
      modifies this`theme, this`weather
      ensures weather == GetWeatherInfo(weatherCode).kind
      ensures (weather == Clear) <==> weatherCode <= 3
      ensures desc == GetWeatherInfo(weatherCode).desc
      ensures theme == ParticleTheme(Resolve(cityTime, sunrise, sunset, currentHour).theme)
      ensures display.badge == Resolve(cityTime, sunrise, sunset, currentHour).badge
      ensures display.bodyClasses == BodyClasses(Resolve(cityTime, sunrise, sunset, currentHour).theme, weatherCode)
      ensures old(Valid()) ==> Valid()
    {
      var info := GetWeatherInfo(weatherCode);
      desc := info.desc;
      weather := info.kind;
      display := HandleTheme(cityTime, sunrise, sunset, currentHour, weatherCode);
    }
  }
}
