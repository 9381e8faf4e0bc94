/** The sample accumulator of DataAveraging.cpp: eight running channel sums and
    a count, drained by an averaging step that also resets them. */
module Averaging {
  import opened Readings
  import opened SensorUtils

  /** AVERAGING_SAMPLES: readings needed before a batch may be uploaded. */
  const AVERAGING_SAMPLES: nat := 10

  /** The `SensorData` struct: one running sum per channel and the count. */
  datatype SensorData = SensorData(pm1: F, pm25: F, pm4: F, pm10: F,
                                   humidity: F, temperature: F, voc: F, nox: F,
                                   count: int)

  /** The value `reset` stores: every sum and the count at zero. */
  const Zero: SensorData := SensorData(Num(0.0), Num(0.0), Num(0.0), Num(0.0),
                                       Num(0.0), Num(0.0), Num(0.0), Num(0.0), 0)

  function SumOf(d: SensorData, c: Channel): F
  {
    match c
    case Pm1 => d.pm1
    case Pm25 => d.pm25
    case Pm4 => d.pm4
    case Pm10 => d.pm10
    case Humidity => d.humidity
    case Temperature => d.temperature
    case Voc => d.voc
    case Nox => d.nox
  }

  /** The running float sum of channel `c` over `rs`, accumulated from 0 in
      the order the readings arrived. */
  function ChannelSum(rs: seq<Reading>, c: Channel): F
  {
    if rs == [] then Num(0.0) else Add(ChannelSum(rs[..|rs| - 1], c), Get(rs[|rs| - 1], c))
  }

  /** The averaged batch of a non-empty sequence of readings: each channel's
      sum divided by the number of readings. */
  function Average(rs: seq<Reading>): (avg: Reading)
    requires |rs| > 0
    ensures forall c :: Get(avg, c) == DivCount(ChannelSum(rs, c), |rs|)
  {
    FromChannels(c => DivCount(ChannelSum(rs, c), |rs|))
  }

  /** Reference definition: the sum of a sequence of reals, first element first. */
  function Total(xs: seq<real>): real
  {
    if xs == [] then 0.0 else xs[0] + Total(xs[1..])
  }

  lemma {:induction false} TotalAppend(xs: seq<real>, x: real)
    ensures Total(xs + [x]) == Total(xs) + x
  {
    if xs != [] {
      assert (xs + [x])[1..] == xs[1..] + [x];
      TotalAppend(xs[1..], x);
    }
  }

  /** The real values of channel `c` in `rs` (meaningful when none is NaN). */
  function Values(rs: seq<Reading>, c: Channel): (vs: seq<real>)
    requires forall i :: 0 <= i < |rs| ==> Get(rs[i], c).Num?
    ensures |vs| == |rs|
  {
    if rs == [] then [] else Values(rs[..|rs| - 1], c) + [Get(rs[|rs| - 1], c).r]
  }

  /** Without NaN, the running sum is the arithmetic total of the channel's values. */
  lemma {:induction false} ChannelSumIsTotal(rs: seq<Reading>, c: Channel)
    requires forall i :: 0 <= i < |rs| ==> Get(rs[i], c).Num?
    ensures ChannelSum(rs, c) == Num(Total(Values(rs, c)))
  {
    if rs != [] {
      var init := rs[..|rs| - 1];
      ChannelSumIsTotal(init, c);
      TotalAppend(Values(init, c), Get(rs[|rs| - 1], c).r);
    }
  }

  /** The drained batch is the arithmetic mean, channel by channel, of exactly
      the readings added since the last reset. */
  lemma AverageIsMean(rs: seq<Reading>, c: Channel)
    requires |rs| > 0
    requires forall i :: 0 <= i < |rs| ==> Get(rs[i], c).Num?
    ensures Get(Average(rs), c) == Num(Total(Values(rs, c)) / |rs| as real)
  {
    ChannelSumIsTotal(rs, c);
  }

  /** One NaN anywhere in the batch makes that channel's sum NaN. */
  lemma {:induction false} NaNPoisonsSum(rs: seq<Reading>, c: Channel, i: nat)
    requires i < |rs| && Get(rs[i], c).NaN?
    ensures ChannelSum(rs, c).NaN?
  {
    if i < |rs| - 1 {
      NaNPoisonsSum(rs[..|rs| - 1], c, i);
    }
  }

  /** A batch containing a NaN channel averages to an invalid reading. */
  lemma NaNBatchIsInvalid(rs: seq<Reading>, c: Channel, i: nat)
    requires i < |rs| && Get(rs[i], c).NaN?
    ensures !IsValidReading(Average(rs))
  {
    NaNPoisonsSum(rs, c, i);
    NaNRejected(Average(rs), c);
  }

  /** Summing values that each lie in [lo, hi] gives a total in [n*lo, n*hi]. */
  lemma {:induction false} ChannelSumBounds(rs: seq<Reading>, c: Channel, lo: real, hi: real)
    requires forall i :: 0 <= i < |rs| ==> Get(rs[i], c).Num? && lo <= Get(rs[i], c).r <= hi
    ensures ChannelSum(rs, c).Num?
    ensures |rs| as real * lo <= ChannelSum(rs, c).r <= |rs| as real * hi
  {
    if rs != [] {
      var n := |rs| - 1;
      ChannelSumBounds(rs[..n], c, lo, hi);
      assert (n + 1) as real * lo == n as real * lo + lo;
      assert (n + 1) as real * hi == n as real * hi + hi;
    }
  }

  lemma MeanWithin(s: real, n: nat, lo: real, hi: real)
    requires n > 0 && n as real * lo <= s <= n as real * hi
    ensures lo <= s / n as real <= hi
  {
    assert (s / n as real) * n as real == s;
  }

  /** Averaging valid readings yields a valid reading: no channel becomes NaN
      and both gas indices stay within [0, 500]. */
  lemma {:induction false} AverageOfValidIsValid(rs: seq<Reading>)
    requires |rs| > 0
    requires forall i :: 0 <= i < |rs| ==> IsValidReading(rs[i])
    ensures IsValidReading(Average(rs))
  {
    var avg := Average(rs);
    forall c ensures Get(avg, c).Num? {
      ChannelSumIsTotal(rs, c);
    }
    ChannelSumBounds(rs, Voc, 0.0, 500.0);
    MeanWithin(ChannelSum(rs, Voc).r, |rs|, 0.0, 500.0);
    ChannelSumBounds(rs, Nox, 0.0, 500.0);
    MeanWithin(ChannelSum(rs, Nox).r, |rs|, 0.0, 500.0);
  }

  /** The accumulator object. `pending` is the ghost record of the readings
      added since the last reset. */
  class DataAveraging {
    var data: SensorData
    ghost var pending: seq<Reading>

    /** Each sum is the running sum of the readings added since the last reset,
        and the count is how many there were. */
    ghost predicate Valid()
      reads this
    {
      data.count == |pending| && forall c :: SumOf(data, c) == ChannelSum(pending, c)
    }

    /** The constructor calls `reset`: every sum and the count start at zero. */
    constructor ()
      ensures Valid()
      ensures data == Zero && pending == []
    {
      data := Zero;
      pending := [];
    }

    /** addReading: the count grows by exactly one and each argument is added
        to its own channel sum only. */
    method AddReading(r: Reading)
      requires Valid()
      modifies this
      ensures Valid()
      ensures pending == old(pending) + [r]
      ensures data.count == old(data.count) + 1
      ensures forall c :: SumOf(data, c) == Add(SumOf(old(data), c), Get(r, c))
    {
      data := data.(pm1 := Add(data.pm1, r.pm1), pm25 := Add(data.pm25, r.pm25),
                    pm4 := Add(data.pm4, r.pm4), pm10 := Add(data.pm10, r.pm10),
                    humidity := Add(data.humidity, r.humidity),
                    temperature := Add(data.temperature, r.temperature),
                    voc := Add(data.voc, r.voc), nox := Add(data.nox, r.nox),
                    count := data.count + 1);
      pending := pending + [r];
      assert forall c :: ChannelSum(pending, c) == Add(ChannelSum(old(pending), c), Get(r, c)) by {
        assert pending[..|pending| - 1] == old(pending);
      }
    }

    /** getAveraged. The out-parameters arrive as `prior`: with no samples they
        are left unwritten and nothing changes; otherwise they receive each
        channel's mean and the accumulator is reset. */
    method GetAveraged(prior: Reading) returns (avg: Reading)
      requires Valid()
      modifies this
      ensures Valid()
      ensures old(data.count) == 0 ==> avg == prior && data == old(data) && pending == old(pending)
      ensures old(data.count) > 0 ==> avg == Average(old(pending)) && data == Zero && pending == []
    {
      if data.count == 0 {
        return prior;
      }
      var n := data.count;
      avg := Reading(DivCount(data.pm1, n), DivCount(data.pm25, n), DivCount(data.pm4, n),
                     DivCount(data.pm10, n), DivCount(data.humidity, n),
                     DivCount(data.temperature, n), DivCount(data.voc, n), DivCount(data.nox, n));
      assert forall c :: Get(avg, c) == DivCount(SumOf(data, c), n);
      Reset();
    }

    /** reset: every sum and the count return to zero, whatever the old state,
        so a second reset changes nothing. */
    method Reset()
      modifies this
      ensures Valid()
      ensures data == Zero && pending == []
    {
      data := Zero;
      pending := [];
    }

    /** getCount: the number of readings added since the last reset. */
    function GetCount(): (n: int)
      reads this
      requires Valid()
      ensures n == |pending|
    {
      data.count
    }

    /** hasEnoughSamples: at least AVERAGING_SAMPLES readings are pending. */
    function HasEnoughSamples(): (enough: bool)
      reads this
      requires Valid()
      ensures enough <==> |pending| >= AVERAGING_SAMPLES
    {
      data.count >= AVERAGING_SAMPLES
    }
  }

  /** The threshold boundary: nine pending readings are not enough, ten are. */
  lemma EnoughSamplesBoundary(a: DataAveraging)
    requires a.Valid()
    ensures |a.pending| == 9 ==> !a.HasEnoughSamples()
    ensures |a.pending| == 10 ==> a.HasEnoughSamples()
  {
  }
}
