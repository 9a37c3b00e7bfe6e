/** Vocabulary shared by the weather widget's components. */
module Types {

  /** A value that may be absent (JavaScript `null`). */
  datatype Option<+T> = None | Some(value: T)

  /** The time-of-day themes. The body class can carry all four; the theme
      stored for the particles is never `Dusk`, which is folded into
      `Morning` before it reaches them. */
  datatype Theme = Day | Morning | Dusk | Night

  /** The particle weather type: the string 'clear', or 'snow', which stands
      for every other condition (precipitation, fog, storms). */
  datatype Weather = Clear | Snow

  /** A point in canvas pixel space (the pointer position). */
  datatype Point = Point(x: real, y: real)

  /** The class-name spelling of a theme (`theme-<name>` on the body). */
  function ThemeName(t: Theme): string
  {
    match t
    case Day => "day"
    case Morning => "morning"
    case Dusk => "dusk"
    case Night => "night"
  }

  function AbsR(x: real): (r: real)
    ensures r >= 0.0 && (r == x || r == -x)
  {
    if x < 0.0 then -x else x
  }

  function Abs(x: int): (r: nat)
    ensures r == x || r == -x
  {
    if x < 0 then -x else x
  }
}
