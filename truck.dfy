/** A mining truck: its state enum and its counters (include/Truck.h, Truck.cpp). */
module Trucks {
  import opened Sums
  import Site

  /** The four states of a truck's cycle, in the order the cycle visits them. */
  datatype State = Mining | TravelToUnloadStation | Unloading | TravelToMiningSite

  /** The value of every field of a `Truck`, for reasoning about many trucks at once. */
  datatype TruckData = TruckData(
    id: int,
    currentState: State,
    currentMiningTime: int,
    currentMinedHelium: int,
    currentTripQueueWait: int,
    totalMiningTime: int,
    totalMinedHelium: int,
    totalUnloadedTrips: int,
    totalQueueWait: int,
    isInDataQueue: bool,
    miningDurations: seq<int>)

  /** The fields of a freshly constructed truck. */
  function NewTruck(id: int): TruckData {
    TruckData(id, Mining, 0, 0, 0, 0, 0, 0, 0, false, [])
  }

  /** Every recorded mining duration lies in the range the site draws from. */
  ghost predicate AllMiningDurations(durations: seq<int>) {
    forall k :: 0 <= k < |durations| ==> Site.IsMiningDuration(durations[k])
  }

  /** The sum of n mining durations lies between n shortest and n longest ones. */
  lemma {:induction false} MiningDurationsSumBounds(durations: seq<int>)
    requires AllMiningDurations(durations)
    ensures Site.kMinMiningMinutes * |durations| <= Sum(durations) <= Site.kMaxMiningMinutes * |durations|
  {
    if durations != [] {
      var prefix := durations[..|durations| - 1];
      assert AllMiningDurations(prefix) by {
        forall k | 0 <= k < |prefix| ensures Site.IsMiningDuration(prefix[k]) {
          assert prefix[k] == durations[k];
        }
      }
      MiningDurationsSumBounds(prefix);
      assert Site.IsMiningDuration(durations[|durations| - 1]);
    }
  }

  class Truck {
    const id: int
    var currentState: State
    var currentMiningTime: int
    var currentMinedHelium: int
    var currentTripQueueWait: int
    var totalMiningTime: int
    var totalMinedHelium: int
    var totalUnloadedTrips: int
    var totalQueueWait: int
    var isInDataQueue: bool
    var miningDurations: seq<int>

    /** The truck's fields as one value. */
    function Snapshot(): TruckData
      reads this
    {
      TruckData(id, currentState, currentMiningTime, currentMinedHelium, currentTripQueueWait,
                totalMiningTime, totalMinedHelium, totalUnloadedTrips, totalQueueWait,
                isInDataQueue, miningDurations)
    }

    /** A new truck starts mining, with every counter at zero and no recorded duration. */
    constructor (id: int)
      ensures this.id == id && currentState == Mining
      ensures currentMiningTime == 0 && currentMinedHelium == 0 && currentTripQueueWait == 0
      ensures totalMiningTime == 0 && totalMinedHelium == 0
      ensures totalUnloadedTrips == 0 && totalQueueWait == 0
      ensures !isInDataQueue && miningDurations == []
      ensures Snapshot() == NewTruck(id)
    {
      this.id := id;
      currentState := Mining;
      currentMiningTime := 0;
      currentMinedHelium := 0;
      currentTripQueueWait := 0;
      totalMinedHelium := 0;
      totalMiningTime := 0;
      totalUnloadedTrips := 0;
      isInDataQueue := false;
      totalQueueWait := 0;
      miningDurations := [];
    }

    method SetCurrentState(newState: State)
      modifies this`currentState
      ensures Snapshot() == old(Snapshot()).(currentState := newState)
    {
      currentState := newState;
    }

    method SetCurrentMiningTime(time: int)
      modifies this`currentMiningTime
      ensures Snapshot() == old(Snapshot()).(currentMiningTime := time)
    {
      currentMiningTime := time;
    }

    method SetCurrentMinedHelium(value: int)
      modifies this`currentMinedHelium
      ensures Snapshot() == old(Snapshot()).(currentMinedHelium := value)
    {
      currentMinedHelium := value;
    }

    method SetCurrentTripQueueWait(value: int)
      modifies this`currentTripQueueWait
      ensures Snapshot() == old(Snapshot()).(currentTripQueueWait := value)
    {
      currentTripQueueWait := value;
    }

    method SetTotalMiningTime(time: int)
      modifies this`totalMiningTime
      ensures Snapshot() == old(Snapshot()).(totalMiningTime := time)
    {
      totalMiningTime := time;
    }

    method SetTotalMinedHelium(value: int)
      modifies this`totalMinedHelium
      ensures Snapshot() == old(Snapshot()).(totalMinedHelium := value)
    {
      totalMinedHelium := value;
    }

    method IncrementTotalNumberUnloads()
      modifies this`totalUnloadedTrips
      ensures Snapshot() == old(Snapshot()).(totalUnloadedTrips := old(totalUnloadedTrips) + 1)
    {
      totalUnloadedTrips := totalUnloadedTrips + 1;
    }

    method SetTotalQueueWait(value: int)
      modifies this`totalQueueWait
      ensures Snapshot() == old(Snapshot()).(totalQueueWait := value)
    {
      totalQueueWait := value;
    }

    method SetIsInDataQueue(flag: bool)
      modifies this`isInDataQueue
      ensures Snapshot() == old(Snapshot()).(isInDataQueue := flag)
    {
      isInDataQueue := flag;
    }

    /** Records one more mining duration at the end of the list. */
    method SaveMiningDuration(value: int)
      modifies this`miningDurations
      ensures Snapshot() == old(Snapshot()).(miningDurations := old(miningDurations) + [value])
    {
      miningDurations := miningDurations + [value];
    }

    /** Adds up the recorded mining durations; reads the truck and changes nothing. */
    method CalculateTotalMiningDuration() returns (totalCalcMiningDur: int)
      ensures totalCalcMiningDur == Sum(miningDurations)
    {
      totalCalcMiningDur := 0;
      var k := 0;
      while k < |miningDurations|
        invariant 0 <= k <= |miningDurations|
        invariant totalCalcMiningDur == Sum(miningDurations[..k])
      {
        assert miningDurations[..k + 1] == miningDurations[..k] + [miningDurations[k]];
        SumAppend(miningDurations[..k], miningDurations[k]);
        totalCalcMiningDur := totalCalcMiningDur + miningDurations[k];
        k := k + 1;
      }
      assert miningDurations[..k] == miningDurations;
    }
  }

  /** A fresh truck has no recorded duration, so the calculated total is zero. */
  lemma NewTruckTotalMiningDuration(id: int)
    ensures Sum(NewTruck(id).miningDurations) == 0
  {
  }
}
