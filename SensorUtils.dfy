/** The reading validator and the PM2.5 classifier of SensorUtils.cpp. */
module SensorUtils {
  import opened Readings

  /** The gas-index window the validator accepts: 0 to 500 inclusive. */
  predicate InGasRange(x: F)
  {
    x.Num? && 0.0 <= x.r <= 500.0
  }

  /** isValidReading: a reading is rejected if any channel is NaN (tested
      first) or if the VOC or NOx index lies outside [0, 500]; the PM,
      humidity and temperature channels are never range-checked. */
  function IsValidReading(r: Reading): (ok: bool)
    ensures ok <==> (forall c :: Get(r, c).Num?) && InGasRange(r.voc) && InGasRange(r.nox)
  {
    assert Get(r, Pm1) == r.pm1 && Get(r, Pm25) == r.pm25 && Get(r, Pm4) == r.pm4
      && Get(r, Pm10) == r.pm10 && Get(r, Humidity) == r.humidity
      && Get(r, Temperature) == r.temperature && Get(r, Voc) == r.voc && Get(r, Nox) == r.nox;
    if r.pm1.NaN? || r.pm25.NaN? || r.pm4.NaN? || r.pm10.NaN?
       || r.humidity.NaN? || r.temperature.NaN? || r.voc.NaN? || r.nox.NaN? then
      false
    else if Lt(r.voc, 0.0) || Gt(r.voc, 500.0) || Lt(r.nox, 0.0) || Gt(r.nox, 500.0) then
      false
    else
      true
  }

  /** A NaN in any channel rejects the reading, whatever the other channels hold. */
  lemma NaNRejected(r: Reading, c: Channel)
    requires Get(r, c).NaN?
    ensures !IsValidReading(r)
  {
  }

  /** Only the gas indices are range-checked: a reading without NaN whose gas
      indices lie in [0, 500] is accepted, including at both bounds, with any
      particulate, humidity and temperature values. */
  lemma AcceptedWithoutRangeCheck(pm1: real, pm25: real, pm4: real, pm10: real,
                                  humidity: real, temperature: real, voc: real, nox: real)
    requires 0.0 <= voc <= 500.0 && 0.0 <= nox <= 500.0
    ensures IsValidReading(Reading(Num(pm1), Num(pm25), Num(pm4), Num(pm10),
                                   Num(humidity), Num(temperature), Num(voc), Num(nox)))
  {
  }

  /** The four PM2.5 categories, best first. */
  datatype Category = Good | Moderate | UnhealthySensitive | Unhealthy

  function Rank(c: Category): nat
  {
    match c
    case Good => 0
    case Moderate => 1
    case UnhealthySensitive => 2
    case Unhealthy => 3
  }

  /** The branch chain of getPM25Quality: `<=` at 15, 35 and 55; a NaN fails
      every comparison and lands in the last branch. */
  function Pm25Category(pm25: F): (cat: Category)
    ensures cat == Good <==> Le(pm25, 15.0)
    ensures cat == Moderate <==> pm25.Num? && 15.0 < pm25.r <= 35.0
    ensures cat == UnhealthySensitive <==> pm25.Num? && 35.0 < pm25.r <= 55.0
    ensures cat == Unhealthy <==> pm25.NaN? || pm25.r > 55.0
  {
    if Le(pm25, 15.0) then Good
    else if Le(pm25, 35.0) then Moderate
    else if Le(pm25, 55.0) then UnhealthySensitive
    else Unhealthy
  }

  /** getPM25Quality's two outputs: the category text and the colour icon. */
  function GetPm25Quality(pm25: F): (out: (string, string))
    ensures out.0 == "GOOD" <==> Le(pm25, 15.0)
    ensures out.0 == "MODERATE" <==> pm25.Num? && 15.0 < pm25.r <= 35.0
    ensures out.0 == "UNHEALTHY (Sensitive)" <==> pm25.Num? && 35.0 < pm25.r <= 55.0
    ensures out.0 == "UNHEALTHY" <==> pm25.NaN? || pm25.r > 55.0
  {
    match Pm25Category(pm25)
    case Good => ("GOOD", "\U{1F7E2}")
    case Moderate => ("MODERATE", "\U{1F7E1}")
    case UnhealthySensitive => ("UNHEALTHY (Sensitive)", "\U{1F7E0}")
    case Unhealthy => ("UNHEALTHY", "\U{1F534}")
  }

  /** Exactly one branch assigns both outputs: distinct categories give
      distinct texts and distinct icons. */
  lemma QualityOutputsDistinct(a: F, b: F)
    requires Pm25Category(a) != Pm25Category(b)
    ensures GetPm25Quality(a).0 != GetPm25Quality(b).0
    ensures GetPm25Quality(a).1 != GetPm25Quality(b).1
  {
  }

  /** The classification is monotone: more PM2.5 never gives a better category. */
  lemma Pm25CategoryMonotone(a: real, b: real)
    requires a <= b
    ensures Rank(Pm25Category(Num(a))) <= Rank(Pm25Category(Num(b)))
  {
  }
}
