/** The time-of-day theme: a first-match decision over the city's local
    time and that day's sunrise and sunset, all as integer milliseconds in
    the city's own frame. */
module ThemeResolver {
  import opened Types
  import opened Classifiers

  /** Half-width of the dawn and dusk windows: 45 minutes in milliseconds. */
  const TransitionWindow: int := 45 * 60 * 1000

  datatype Resolution = Resolution(theme: Theme, badge: string)

  /** The if-chain of `handleTheme`. `currentHour` is `getHours()` of the
      city time, always in 0..23, so its `>= 0` test never decides anything. */
  function Resolve(cityTime: int, sunrise: int, sunset: int, currentHour: int): (r: Resolution)
    requires 0 <= currentHour <= 23
    ensures r.badge == "Dawn" <==> Abs(cityTime - sunrise) <= TransitionWindow
    ensures r.badge == "Dusk" <==>
      Abs(cityTime - sunrise) > TransitionWindow && Abs(cityTime - sunset) <= TransitionWindow
    ensures r.badge == "Day" <==>
      sunrise + TransitionWindow < cityTime && cityTime < sunset - TransitionWindow
    ensures r.badge == "Morning" <==>
      cityTime < sunrise - TransitionWindow && Abs(cityTime - sunset) > TransitionWindow
    ensures r.badge == "Night" <==>
      cityTime > sunrise + TransitionWindow && cityTime > sunset + TransitionWindow
    ensures r.badge in {"Dawn", "Dusk", "Day", "Morning", "Night"}
    ensures r.theme == (if r.badge == "Dusk" then Dusk
                        else if r.badge == "Day" then Day
                        else if r.badge == "Night" then Night
                        else Morning)
  {
    var distToSunrise := cityTime - sunrise;
    var distToSunset := cityTime - sunset;
    if Abs(distToSunrise) <= TransitionWindow then Resolution(Morning, "Dawn")
    else if Abs(distToSunset) <= TransitionWindow then Resolution(Dusk, "Dusk")
    else if cityTime > sunrise && cityTime < sunset then Resolution(Day, "Day")
    else if currentHour >= 0 && cityTime < sunrise then Resolution(Morning, "Morning")
    else Resolution(Night, "Night")
  }

  /** The theme stored for the particles: dusk shares the morning palette,
      every other theme passes through. */
  function ParticleTheme(t: Theme): (r: Theme)
    ensures r != Dusk
    ensures t != Dusk ==> r == t
    ensures t == Dusk ==> r == Morning
  {
    if t == Dusk then Morning else t
  }

  /** The extra `weather-clear` body class: a full-daylight theme with a
      clear (0) or mainly clear (1) weather code. */
  function ClearDay(t: Theme, weatherCode: int): (r: bool)
    ensures r ==> t == Day
    ensures r ==> GetWeatherInfo(weatherCode).kind == Clear
    ensures r <==> t == Day && 0 <= weatherCode <= 1
  {
    t == Day && (weatherCode == 0 || weatherCode == 1)
  }

  /** The classes `handleTheme` leaves on the body element: assigning
      `className` drops every earlier class, so the list is exactly the
      theme class, followed by `weather-clear` when that applies. */
  function BodyClasses(t: Theme, weatherCode: int): (r: seq<string>)
    ensures |r| == if ClearDay(t, weatherCode) then 2 else 1
    ensures r[0] == "theme-" + ThemeName(t)
    ensures ClearDay(t, weatherCode) ==> r[1] == "weather-clear"
    ensures "weather-clear" in r <==> ClearDay(t, weatherCode)
  {
    assert ("theme-" + ThemeName(t))[0] != "weather-clear"[0];
    ["theme-" + ThemeName(t)] + (if ClearDay(t, weatherCode) then ["weather-clear"] else [])
  }

  /** The hour of day never changes the outcome: the dark branch reduces to
      `cityTime < sunrise`. */
  lemma HourIsIrrelevant(cityTime: int, sunrise: int, sunset: int, h1: int, h2: int)
    requires 0 <= h1 <= 23 && 0 <= h2 <= 23
    ensures Resolve(cityTime, sunrise, sunset, h1) == Resolve(cityTime, sunrise, sunset, h2)
  {
  }

  /** Dawn wins over dusk when both windows hold (only for a day shorter
      than an hour and a half). */
  lemma DawnBeatsDusk(cityTime: int, sunrise: int, sunset: int, h: int)
    requires 0 <= h <= 23
    requires Abs(cityTime - sunrise) <= TransitionWindow && Abs(cityTime - sunset) <= TransitionWindow
    ensures Resolve(cityTime, sunrise, sunset, h) == Resolution(Morning, "Dawn")
  {
  }

  /** The particles never see the dusk theme, and the clear-day flag is set
      exactly for full daylight (outside both windows, strictly between
      sunrise and sunset) with weather code 0 or 1. */
  lemma ThemeForParticles(cityTime: int, sunrise: int, sunset: int, h: int, weatherCode: int)
    requires 0 <= h <= 23
    ensures ParticleTheme(Resolve(cityTime, sunrise, sunset, h).theme) != Dusk
    ensures ClearDay(Resolve(cityTime, sunrise, sunset, h).theme, weatherCode) <==>
      sunrise + TransitionWindow < cityTime < sunset - TransitionWindow && (weatherCode == 0 || weatherCode == 1)
  {
  }
}
