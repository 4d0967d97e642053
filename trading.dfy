/** The price-window helpers of src/utils/trading.js. */
module PriceWindows {
  import opened Records

  /** An element of the list `findLocalMinimum` reads: its `Block.Time`
      and its `Price`. `None` stands for a time that does not parse, which
      every window comparison rejects. */
  datatype PricePoint = PricePoint(blockTime: Option<int>, price: real)

  /** An element of the list `findLocalMaximum` reads: its `timestamp` and
      its `price`. The two functions read differently named fields, so one
      list serves only one of them. */
  datatype PriceSample = PriceSample(timestamp: Option<int>, price: real)

  /** `Math.min(...xs)`, which is +Infinity for no arguments. */
  datatype Extended = PosInf | Finite(value: real)

  const HourMs: int := 60 * 60 * 1000

  // ---------------------------------------------------------------------
  // findLocalMinimum
  // ---------------------------------------------------------------------

  /** The inclusive window [timestamp - w hours, timestamp + w hours]. */
  predicate InMinWindow(time: Option<int>, timestamp: int, windowHours: int) {
    time.Some? &&
    timestamp - windowHours * HourMs <= time.value <= timestamp + windowHours * HourMs
  }

  /** The smallest price among the points of the window. */
  function FindLocalMinimum(priceData: seq<PricePoint>, timestamp: int, windowHours: int): (r: Extended)
    ensures r == PosInf <==> forall p :: p in priceData ==> !InMinWindow(p.blockTime, timestamp, windowHours)
    ensures r.Finite? ==>
              && (forall p :: p in priceData && InMinWindow(p.blockTime, timestamp, windowHours) ==> r.value <= p.price)
              && (exists p :: p in priceData && InMinWindow(p.blockTime, timestamp, windowHours) && p.price == r.value)
    decreases |priceData|
  {
    if priceData == [] then PosInf
    else
      var rest := FindLocalMinimum(priceData[1..], timestamp, windowHours);
      assert forall p :: p in priceData[1..] ==> p in priceData;
      assert priceData == [priceData[0]] + priceData[1..];
      if !InMinWindow(priceData[0].blockTime, timestamp, windowHours) then rest
      else if rest.Finite? && rest.value < priceData[0].price then rest
      else Finite(priceData[0].price)
  }

  // ---------------------------------------------------------------------
  // findLocalMaximum
  // ---------------------------------------------------------------------

  const DefaultWindowHours: int := 24

  function Abs(x: int): nat {
    if x < 0 then -x else x
  }

  predicate InMaxWindow(time: Option<int>, timestamp: int, windowMs: int) {
    time.Some? && Abs(time.value - timestamp) <= windowMs
  }

  function MaxInWindow(priceData: seq<PriceSample>, timestamp: int, windowMs: int): (r: Option<real>)
    ensures r == None <==> forall p :: p in priceData ==> !InMaxWindow(p.timestamp, timestamp, windowMs)
    ensures r.Some? ==>
              && (forall p :: p in priceData && InMaxWindow(p.timestamp, timestamp, windowMs) ==> p.price <= r.value)
              && (exists p :: p in priceData && InMaxWindow(p.timestamp, timestamp, windowMs) && p.price == r.value)
    decreases |priceData|
  {
    if priceData == [] then None
    else
      var rest := MaxInWindow(priceData[1..], timestamp, windowMs);
      assert forall p :: p in priceData[1..] ==> p in priceData;
      assert priceData == [priceData[0]] + priceData[1..];
      if !InMaxWindow(priceData[0].timestamp, timestamp, windowMs) then rest
      else if rest.Some? && rest.value > priceData[0].price then rest
      else Some(priceData[0].price)
  }

  /** `findLocalMaximum(priceData, timestamp, windowHours)`: `None` for a
      missing list (the null result), or when no point lies within the
      window, which is 24 hours on either side unless `windowHours` is
      given. */
  function FindLocalMaximum(priceData: Option<seq<PriceSample>>, timestamp: int, windowHours: Option<int>): (r: Option<real>)
    ensures priceData.None? ==> r.None?
    ensures priceData.Some? ==>
              var windowMs := (if windowHours.Some? then windowHours.value else DefaultWindowHours) * HourMs;
              && (r.None? <==> forall p :: p in priceData.value ==> !InMaxWindow(p.timestamp, timestamp, windowMs))
              && (r.Some? ==>
                    && (forall p :: p in priceData.value && InMaxWindow(p.timestamp, timestamp, windowMs) ==> p.price <= r.value)
                    && (exists p :: p in priceData.value && InMaxWindow(p.timestamp, timestamp, windowMs) && p.price == r.value))
  {
    if priceData.None? then None
    else
      var windowMs := (if windowHours.Some? then windowHours.value else DefaultWindowHours) * HourMs;
      MaxInWindow(priceData.value, timestamp, windowMs)
  }

  /** For the same time value, the maximum's window is the minimum's
      interval: |t - ts| <= w hours exactly when t lies in
      [ts - w hours, ts + w hours]. */
  lemma WindowsAgree(time: Option<int>, timestamp: int, windowHours: int)
    ensures InMaxWindow(time, timestamp, windowHours * HourMs) == InMinWindow(time, timestamp, windowHours)
  {
  }
}
