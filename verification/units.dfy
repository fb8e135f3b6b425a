/** Measurement-unit choices and their text renderings (src/units.rs). */
module Units {

  datatype Speed = Kmh | Ms | Mph | Knots

  datatype Temperature = Celsius | Fahrenheit

  datatype Precipitation = Mm | Inch

  /** The unit set a display is configured with. */
  datatype UnitSet = UnitSet(speed: Speed, temperature: Temperature, precipitation: Precipitation)

  /** The label shown next to a wind speed. */
  function Stringify(s: Speed): (text: string)
    ensures s == Kmh ==> text == "km/h"
    ensures s == Ms ==> text == "m/s"
    ensures s == Mph ==> text == "mp/h"
    ensures s == Knots ==> text == "kn"
  {
    match s
    case Kmh => "km/h"
    case Ms => "m/s"
    case Mph => "mp/h"
    case Knots => "kn"
  }

  /** The compact speed name: `kmh`, `ms`, `mph` or `kn`. */
  function SpeedToString(s: Speed): (name: string)
    ensures s == Kmh ==> name == "kmh"
    ensures s == Ms ==> name == "ms"
    ensures s == Mph ==> name == "mph"
    ensures s == Knots ==> name == "kn"
  {
    match s
    case Kmh => "kmh"
    case Ms => "ms"
    case Mph => "mph"
    case Knots => "kn"
  }

  function TemperatureToString(t: Temperature): (name: string)
    ensures t == Celsius ==> name == "°C"
    ensures t == Fahrenheit ==> name == "°F"
  {
    match t
    case Celsius => "°C"
    case Fahrenheit => "°F"
  }

  function PrecipitationToString(p: Precipitation): (name: string)
    ensures p == Inch ==> name == "inch"
    ensures p == Mm ==> name == "mm"
  {
    match p
    case Inch => "inch"
    case Mm => "mm"
  }

  /** Groups the three unit choices. */
  function NewUnits(speed: Speed, temperature: Temperature, precipitation: Precipitation): (u: UnitSet)
    ensures u.speed == speed && u.temperature == temperature && u.precipitation == precipitation
  {
    UnitSet(speed, temperature, precipitation)
  }

  /** The two speed renderings coincide only for knots. */
  lemma SpeedRenderingsAgreeOnlyOnKnots(s: Speed)
    ensures Stringify(s) == SpeedToString(s) <==> s == Knots
  {
  }

  /** Each speed rendering tells the four speeds apart. */
  lemma SpeedRenderingsInjective(a: Speed, b: Speed)
    ensures Stringify(a) == Stringify(b) ==> a == b
    ensures SpeedToString(a) == SpeedToString(b) ==> a == b
  {
  }

  /** The temperature and precipitation renderings tell their variants apart. */
  lemma OtherRenderingsInjective(t: Temperature, t': Temperature, p: Precipitation, p': Precipitation)
    ensures TemperatureToString(t) == TemperatureToString(t') ==> t == t'
    ensures PrecipitationToString(p) == PrecipitationToString(p') ==> p == p'
  {
  }
}
