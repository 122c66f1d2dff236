/** The environment cache: the last temperature and humidity the sensor
    delivered, in tenths of a degree and tenths of a percent. A failed sample
    leaves the cache as it was. */
module Environment {
  import opened Wrappers

  datatype Reading = Reading(temperatureTenths: int, humidityTenths: int)

  /** One opportunistic sample: `sample` is None when the sensor had no
      fresh data. */
  function Refresh(cache: Option<Reading>, sample: Option<Reading>): (r: Option<Reading>)
    ensures sample.None? ==> r == cache
    ensures sample.Some? ==>
              && r.Some?
              && r.value.temperatureTenths == sample.value.temperatureTenths
              && r.value.humidityTenths == sample.value.humidityTenths
  {
    match sample
    case None => cache
    case Some(reading) => Some(reading)
  }

  /** The cache after a series of samples, one per loop iteration. */
  function RefreshAll(cache: Option<Reading>, samples: seq<Option<Reading>>): Option<Reading>
    decreases |samples|
  {
    if samples == [] then cache
    else RefreshAll(Refresh(cache, samples[0]), samples[1..])
  }

  /** The last successful sample of a series, if any, found from the end. */
  function LastSuccess(samples: seq<Option<Reading>>): Option<Reading>
    decreases |samples|
  {
    if samples == [] then None
    else if samples[|samples| - 1].Some? then samples[|samples| - 1]
    else LastSuccess(samples[..|samples| - 1])
  }

  /** After any series of samples the cache holds the last successful one,
      or what it held before when every sample failed. */
  lemma {:induction false} CacheHoldsLastSuccess(cache: Option<Reading>, samples: seq<Option<Reading>>)
    ensures RefreshAll(cache, samples) == (if LastSuccess(samples).Some? then LastSuccess(samples) else cache)
    decreases |samples|
  {
    if samples != [] {
      var rest := samples[1..];
      CacheHoldsLastSuccess(Refresh(cache, samples[0]), rest);
      if rest == [] {
        assert samples == [samples[0]];
      } else {
        assert samples[|samples| - 1] == rest[|rest| - 1];
        assert samples[..|samples| - 1][1..] == rest[..|rest| - 1];
        LastSuccessOfTail(samples);
      }
    }
  }

  /** Dropping the first sample changes the last success only when no later
      sample succeeded. */
  lemma {:induction false} LastSuccessOfTail(samples: seq<Option<Reading>>)
    requires |samples| >= 1
    ensures LastSuccess(samples) == (if LastSuccess(samples[1..]).Some? then LastSuccess(samples[1..]) else samples[0])
    decreases |samples|
  {
    if |samples| == 1 {
      assert samples[1..] == [];
    } else {
      var init := samples[..|samples| - 1];
      var rest := samples[1..];
      assert rest[|rest| - 1] == samples[|samples| - 1];
      if samples[|samples| - 1].None? {
        LastSuccessOfTail(init);
        assert init[1..] == rest[..|rest| - 1];
        assert init[0] == samples[0];
      }
    }
  }
}
