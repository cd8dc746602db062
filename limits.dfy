/**
 * The timing and rate constants of the simulator and the two theoretical
 * bounds computed from them (include/Simulator.h, Simulator.cpp).
 */
module Limits {
  import Site

  /** The horizon: 72 simulated hours, in minutes. */
  const kMaxMiningDurationMins: int := 72 * 60

  /** One leg of travel between the mining site and the stations. */
  const kTruckTravelTimeMins: int := 30

  /** Time a station needs to unload one truck. */
  const kUnloadTimeMins: int := 5

  /** Helium units mined per minute of mining. */
  const kHeliumMiningRatePerMin: int := 1

  /** A whole cycle whose mining takes the longest possible duration. */
  const kMaxOneCycleTimeMins: int := Site.kMaxMiningMinutes + (kTruckTravelTimeMins * 2) + kUnloadTimeMins

  /** A whole cycle whose mining takes the shortest possible duration. */
  const kMinOneCycleTimeMins: int := Site.kMinMiningMinutes + (kTruckTravelTimeMins * 2) + kUnloadTimeMins

  /** The part of every cycle that is not mining: two legs of travel and one unload. */
  const kTripOverheadMins: int := (kTruckTravelTimeMins * 2) + kUnloadTimeMins

  lemma ConstantValues()
    ensures kMaxMiningDurationMins == 4320
    ensures kHeliumMiningRatePerMin == 1
    ensures kMaxOneCycleTimeMins == 365
    ensures kMinOneCycleTimeMins == 125
    ensures kTripOverheadMins == 65
    ensures kMinOneCycleTimeMins <= kMaxOneCycleTimeMins
  {
  }

  /** Integer division as C++ `int / int` does it: the quotient is truncated toward zero. */
  function TruncDiv(a: int, b: int): (q: int)
    requires b > 0
    ensures a >= 0 ==> q >= 0 && q * b <= a < q * b + b
    ensures a < 0 ==> q <= 0 && q * b - b < a <= q * b
  {
    if a >= 0 then
      DivBounds(a, b);
      a / b
    else
      var n := (-a) / b;
      DivBounds(-a, b);
      assert (-n) * b == -(n * b);
      -n
  }

  /** Euclidean division of a non-negative number: the quotient brackets it. */
  lemma DivBounds(n: int, b: int)
    requires n >= 0 && b > 0
    ensures n / b >= 0 && (n / b) * b <= n < (n / b) * b + b
  {
    assert n == (n / b) * b + n % b;
  }

  /**
   * The number of whole shortest cycles that fit in the given time: an upper
   * bound on the trips a truck can complete.
   */
  function CalculateMaximumTripsPossible(totalSimulationTime: int): (trips: int)
    ensures totalSimulationTime >= 0 ==>
      0 <= trips && trips * 125 <= totalSimulationTime < trips * 125 + 125
    ensures totalSimulationTime < 0 ==>
      trips <= 0 && trips * 125 - 125 < totalSimulationTime <= trips * 125
  {
    TruncDiv(totalSimulationTime, kMinOneCycleTimeMins)
  }

  /**
   * Helium a truck mines when every whole cycle is a longest cycle and the
   * leftover time, less one travel leg and one unload, is spent mining. The
   * result is not clamped: for a horizon shorter than 35 minutes it is negative.
   */
  function CalculateMaximumHeliumPossible(totalSimulationTime: int): (helium: int)
    ensures totalSimulationTime >= 0 ==>
      // every minute of the horizon is mining except 65 minutes of each whole
      // longest cycle and the 35 minutes of travel and unload of the last one
      helium == totalSimulationTime - 65 * (totalSimulationTime / 365) - 35
  {
    var numberCompleteCycles := TruncDiv(totalSimulationTime, kMaxOneCycleTimeMins);
    var maximumHeliumPossible := numberCompleteCycles * Site.kMaxMiningMinutes * kHeliumMiningRatePerMin;
    var leftoverTime := totalSimulationTime - (kMaxOneCycleTimeMins * numberCompleteCycles);
    var lastIterMaxMiningDur := leftoverTime - kTruckTravelTimeMins - kUnloadTimeMins;
    maximumHeliumPossible + lastIterMaxMiningDur * kHeliumMiningRatePerMin
  }

  lemma MaximumTripsAtHorizon()
    ensures CalculateMaximumTripsPossible(kMaxMiningDurationMins) == 34
  {
  }

  lemma MaximumHeliumAtHorizon()
    ensures CalculateMaximumHeliumPossible(kMaxMiningDurationMins) == 3570
  {
  }

  /** The bound is not clamped at zero: a ten-minute horizon gives -25. */
  lemma MaximumHeliumUnclamped()
    ensures CalculateMaximumHeliumPossible(10) == -25
  {
  }

  /**
   * The bound is not monotonic in the horizon: one more minute past 364
   * lowers it, because a whole cycle then replaces a leftover that exceeds
   * the longest mining duration.
   */
  lemma MaximumHeliumNotMonotonic()
    ensures CalculateMaximumHeliumPossible(364) == 329
    ensures CalculateMaximumHeliumPossible(365) == 265
    ensures 364 - 35 > Site.kMaxMiningMinutes
  {
  }
}
