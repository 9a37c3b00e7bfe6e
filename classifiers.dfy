/** The pure mappings the controller applies to forecast values: weather
    code to description and particle weather, weather code to icon, wind
    bearing to compass point, US AQI to a badge, and the window of hours
    the hourly strip shows. */
module Classifiers {
  import opened Types

  datatype WeatherInfo = WeatherInfo(desc: string, kind: Weather)

  /** `getWeatherInfo`: first match over ascending upper bounds. */
  function GetWeatherInfo(code: int): (r: WeatherInfo)
    ensures r.kind == Clear <==> code <= 3
    ensures r.desc == "Clear Sky" <==> code == 0
    ensures r.desc == "Partly Cloudy" <==> code <= 3 && code != 0
    ensures r.desc == "Fog" <==> 4 <= code <= 48
    ensures r.desc == "Rain" <==> 49 <= code <= 67
    ensures r.desc == "Snow" <==> 68 <= code <= 77
    ensures r.desc == "Heavy Rain" <==> 78 <= code <= 82
    ensures r.desc == "Thunderstorm" <==> code > 82
  {
    if code == 0 then WeatherInfo("Clear Sky", Clear)
    else if code <= 3 then WeatherInfo("Partly Cloudy", Clear)
    else if code <= 48 then WeatherInfo("Fog", Snow)
    else if code <= 67 then WeatherInfo("Rain", Snow)
    else if code <= 77 then WeatherInfo("Snow", Snow)
    else if code <= 82 then WeatherInfo("Heavy Rain", Snow)
    else WeatherInfo("Thunderstorm", Snow)
  }

  /** The icons whose day and night variants differ. */
  const DayIcons: set<string> := {"ph ph-sun", "ph ph-cloud-sun"}
  const NightIcons: set<string> := {"ph ph-moon", "ph ph-cloud-moon"}

  /** `getIconClass`: the day/night variant matters only for the clear and
      partly cloudy codes; 78 to 90 fall through to the plain cloud. */
  function GetIconClass(code: int, isDay: bool): (r: string)
    ensures code <= 3 ==> (r in DayIcons <==> isDay) && (r in NightIcons <==> !isDay)
    ensures code > 3 ==> r !in DayIcons && r !in NightIcons
    ensures r == "ph ph-sun" <==> code == 0 && isDay
    ensures r == "ph ph-moon" <==> code == 0 && !isDay
    ensures r == "ph ph-cloud-sun" <==> code <= 3 && code != 0 && isDay
    ensures r == "ph ph-cloud-moon" <==> code <= 3 && code != 0 && !isDay
    ensures r == "ph ph-cloud-fog" <==> 4 <= code <= 48
    ensures r == "ph ph-cloud-rain" <==> 49 <= code <= 67
    ensures r == "ph ph-snowflake" <==> 68 <= code <= 77
    ensures r == "ph ph-cloud-lightning" <==> code > 90
    ensures r == "ph ph-cloud" <==> 78 <= code <= 90
  {
    if code == 0 then (if isDay then "ph ph-sun" else "ph ph-moon")
    else if code <= 3 then (if isDay then "ph ph-cloud-sun" else "ph ph-cloud-moon")
    else if code <= 48 then "ph ph-cloud-fog"
    else if code <= 67 then "ph ph-cloud-rain"
    else if code <= 77 then "ph ph-snowflake"
    else if code > 90 then "ph ph-cloud-lightning"
    else "ph ph-cloud"
  }

  /** Above code 3 the icon does not depend on the day flag. */
  lemma IconIgnoresDayWhenNotClear(code: int)
    requires code > 3
    ensures GetIconClass(code, true) == GetIconClass(code, false)
  {
  }

  /** The icon's sun/moon family agrees with the particle weather: a sun or
      moon icon exactly for the codes whose particles rise. */
  lemma IconAgreesWithWeather(code: int, isDay: bool)
    ensures GetIconClass(code, isDay) in DayIcons + NightIcons <==> GetWeatherInfo(code).kind == Clear
  {
  }

  const Directions: seq<string> := ["N", "NE", "E", "SE", "S", "SW", "W", "NW"]

  /** `Math.round`: to the nearest integer, halves toward +infinity. */
  function JsRound(x: real): (r: int)
    ensures r as real - 0.5 <= x < r as real + 0.5
  {
    (x + 0.5).Floor
  }

  /** JavaScript `% 8`: the remainder takes the sign of the dividend. */
  function JsRemEight(a: int): (r: int)
    ensures -8 < r < 8
    ensures a >= 0 ==> r == a % 8
    ensures a < 0 ==> r == if a % 8 == 0 then 0 else a % 8 - 8
  {
    if a >= 0 then a % 8 else -((-a) % 8)
  }

  /** `getCompassDirection`: `directions[Math.round(degrees / 45) % 8]`. A
      negative index reads past the array and yields `undefined` (`None`);
      an index of minus zero reads 'N'. */
  function GetCompassDirection(degrees: real): (r: Option<string>)
    ensures r.None? <==> JsRound(degrees / 45.0) < 0 && JsRound(degrees / 45.0) % 8 != 0
    ensures r.Some? ==> r.value == Directions[JsRound(degrees / 45.0) % 8]
  {
    var index := JsRemEight(JsRound(degrees / 45.0));
    if index < 0 then None else Some(Directions[index])
  }

  /** A bearing within 22.5 degrees of the k-th compass point (counting N as
      0, and N again from 337.5 up to 360) reads that point. */
  lemma CompassSector(degrees: real, k: int)
    requires 0 <= k <= 8
    requires 45.0 * k as real - 22.5 <= degrees < 45.0 * k as real + 22.5
    ensures GetCompassDirection(degrees) == Some(Directions[k % 8])
  {
    assert k as real - 0.5 <= degrees / 45.0 < k as real + 0.5;
    assert JsRound(degrees / 45.0) == k;
  }

  /** Bearings between -67.5 (inclusive) and -22.5 (exclusive) round to
      index -1, which is undefined. */
  lemma CompassUndefinedJustWestOfNorth(degrees: real)
    requires -67.5 <= degrees < -22.5
    ensures GetCompassDirection(degrees).None?
  {
    assert -1.5 <= degrees / 45.0 < -0.5;
    assert JsRound(degrees / 45.0) == -1;
  }

  datatype AqiSummary = NotAvailable | Badge(cssClass: string, text: string)

  /** The banding of `renderAqiSummary`: Good up to 50, Moderate up to 100,
      Unhealthy above; no reading gives N/A. */
  function AqiSummaryOf(aqi: Option<int>): (r: AqiSummary)
    ensures r.NotAvailable? <==> aqi.None?
    ensures aqi.Some? && aqi.value <= 50 ==> r == Badge("aqi-good", "Good")
    ensures aqi.Some? && 50 < aqi.value <= 100 ==> r == Badge("aqi-fair", "Moderate")
    ensures aqi.Some? && aqi.value > 100 ==> r == Badge("aqi-poor", "Unhealthy")
  {
    match aqi
    case None => NotAvailable
    case Some(v) =>
      var good := Badge("aqi-good", "Good");
      var fair := if v > 50 then Badge("aqi-fair", "Moderate") else good;
      if v > 100 then Badge("aqi-poor", "Unhealthy") else fair
  }

  /** Every character of `s` is a decimal digit. */
  predicate AllDigits(s: string)
  {
    forall i :: 0 <= i < |s| ==> '0' <= s[i] <= '9'
  }

  /** The value of a string of decimal digits, read left to right. */
  function DigitsValue(s: string): int
    decreases |s|
  {
    if s == [] then 0
    else DigitsValue(s[..|s| - 1]) * 10 + (s[|s| - 1] as int - '0' as int)
  }

  /** The digit character of a single decimal digit. */
  function DigitChar(d: int): (c: char)
    requires 0 <= d < 10
    ensures '0' <= c <= '9' && c as int - '0' as int == d
  {
    "0123456789"[d]
  }

  /** The decimal digits of `n`, as a template literal renders it: they read
      back as `n`, and only zero itself starts with '0'. */
  function NatToString(n: nat): (s: string)
    ensures |s| >= 1
    ensures AllDigits(s)
    ensures DigitsValue(s) == n
    ensures s[0] == '0' <==> n == 0
    decreases n
  {
    var digit := [DigitChar(n % 10)];
    if n < 10 then digit
    else
      var prefix := NatToString(n / 10);
      assert (prefix + digit)[..|prefix + digit| - 1] == prefix;
      prefix + digit
  }

  /** One cell of the hourly strip: its hour index and its time label. */
  datatype HourItem = HourItem(hour: nat, time: string, isNow: bool)

  /** The time label of a cell: "Now" for the current hour, otherwise the
      hour's decimal rendering followed by ":00" (what that rendering is,
      `HourLabelDigits` states). */
  function HourLabel(currentHour: nat, hour: nat): (r: string)
    ensures r == "Now" <==> hour == currentHour
  {
    if hour == currentHour then "Now"
    else
      var text := NatToString(hour) + ":00";
      assert text[0] != "Now"[0];
      text
  }

  /** Any other hour's label is its plain decimal digits, with no leading
      zero except for hour 0 and reading back as the hour, then ":00". */
  lemma HourLabelDigits(currentHour: nat, hour: nat)
    requires hour != currentHour
    ensures var r := HourLabel(currentHour, hour);
      |r| >= 4 && r[|r| - 3..] == ":00" && DigitsValue(r[..|r| - 3]) == hour &&
      AllDigits(r[..|r| - 3]) && (r[0] == '0' <==> hour == 0)
  {
    var r := HourLabel(currentHour, hour);
    assert r[..|r| - 3] == NatToString(hour);
  }

  function Min(a: int, b: int): int
  {
    if a < b then a else b
  }

  /** The hour selection of `renderHourly`: from the city's current hour to
      23, stopping early at the end of the forecast; the first cell is
      "Now", the others "h:00". */
  method RenderHourly(timeCount: nat, currentHour: nat) returns (items: seq<HourItem>)
    requires currentHour <= 23
    ensures |items| == if currentHour < timeCount then Min(23, timeCount - 1) - currentHour + 1 else 0
    ensures forall k :: 0 <= k < |items| ==>
      items[k] == HourItem(currentHour + k, HourLabel(currentHour, currentHour + k), k == 0)
    ensures forall k :: 0 <= k < |items| ==> items[k].hour <= 23 && items[k].hour < timeCount
    ensures forall k :: 0 <= k < |items| ==> (items[k].time == "Now" <==> k == 0)
  {
    items := [];
    var i := currentHour;
    while i <= 23
      invariant currentHour <= i <= 24
      invariant i == currentHour || i <= timeCount
      invariant |items| == i - currentHour
      invariant forall k :: 0 <= k < |items| ==> items[k].hour == currentHour + k && items[k].isNow == (k == 0)
      invariant forall k :: 0 <= k < |items| ==> items[k].time == HourLabel(currentHour, items[k].hour)
      invariant forall k :: 0 <= k < |items| ==> items[k].hour < timeCount
    {
      if i >= timeCount {
        break;
      }
      items := items + [HourItem(i, HourLabel(currentHour, i), i == currentHour)];
      i := i + 1;
    }
  }

}
