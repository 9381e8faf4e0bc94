/** Values shared by every part of the telemetry pipeline: the float channel
    value, the eight-channel sensor reading and an Option type. */
module Readings {

  datatype Option<T> = None | Some(value: T)

  /** A 32-bit float as the firmware sees it: not-a-number or a real value.
      Rounding, infinities and signed zero are abstracted away. */
  datatype F = NaN | Num(r: real)

  /** Float addition: NaN is absorbing. */
  function Add(a: F, b: F): (s: F)
    ensures s.NaN? <==> a.NaN? || b.NaN?
    ensures s.Num? ==> s.r == a.r + b.r
  {
    if a.Num? && b.Num? then Num(a.r + b.r) else NaN
  }

  /** Float division by a positive sample count. */
  function DivCount(a: F, n: nat): (q: F)
    requires n > 0
    ensures q.NaN? <==> a.NaN?
    ensures q.Num? ==> q.r * (n as real) == a.r
  {
    if a.Num? then Num(a.r / n as real) else NaN
  }

  // IEEE-754 ordered comparisons against a constant: false whenever the value is NaN.
  predicate Lt(a: F, x: real) { a.Num? && a.r < x }
  predicate Le(a: F, x: real) { a.Num? && a.r <= x }
  predicate Gt(a: F, x: real) { a.Num? && a.r > x }

  /** One sensor sample: four particulate-matter concentrations, humidity,
      temperature and the VOC and NOx indices. */
  datatype Reading = Reading(pm1: F, pm25: F, pm4: F, pm10: F,
                             humidity: F, temperature: F, voc: F, nox: F)

  datatype Channel = Pm1 | Pm25 | Pm4 | Pm10 | Humidity | Temperature | Voc | Nox

  function Get(r: Reading, c: Channel): F
  {
    match c
    case Pm1 => r.pm1
    case Pm25 => r.pm25
    case Pm4 => r.pm4
    case Pm10 => r.pm10
    case Humidity => r.humidity
    case Temperature => r.temperature
    case Voc => r.voc
    case Nox => r.nox
  }

  /** The reading whose channel `c` is `f(c)`. */
  function FromChannels(f: Channel -> F): (r: Reading)
    ensures forall c :: Get(r, c) == f(c)
  {
    Reading(f(Pm1), f(Pm25), f(Pm4), f(Pm10), f(Humidity), f(Temperature), f(Voc), f(Nox))
  }
}
