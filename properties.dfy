/**
 * What the simulation guarantees, proved from the invariant: it holds at the
 * start and along every interleaving of atomic steps, the totals balance once
 * the trucks are finished, a truck never unloads more often than the trip
 * bound allows, and a waiting truck's poll answer never flips back.
 */
module Properties {
  import opened Sums
  import opened Trucks
  import opened Stations
  import opened Limits
  import Site
  import HandoffQueue
  import opened Transitions
  import opened Invariants

  /** The freshly started simulation satisfies the invariant. */
  lemma InitSatisfiesInv(numTrucks: nat, numStations: nat)
    ensures Inv(Init(numTrucks, numStations))
  {
    var w := Init(numTrucks, numStations);
    forall i | 0 <= i < |w.threads| ensures w.threads[i].truck.id == i && ThreadInv(w.threads[i]) {
      assert w.threads[i] == TruckThread(NewTruck(i), 0, 0, 0, Running);
      assert Trips(w.threads[i]) == 0;
    }
    SumOfZero(w.stationThreads, Received);
    SumOfZero(w.stationThreads, Served);
    SumOfZero(w.threads, Pending);
    SumOfZero(w.threads, Mined);
    SumOfZero(w.threads, Unloads);
  }

  /** The invariant holds after any interleaving of enabled steps. */
  lemma {:induction false} RunPreservesInv(w: World, actions: seq<Action>)
    requires Inv(w)
    ensures Run(w, actions).Some? ==> Inv(Run(w, actions).value)
    decreases |actions|
  {
    if actions != [] && Enabled(w, actions[0]) {
      ApplyPreservesInv(w, actions[0]);
      RunPreservesInv(Apply(w, actions[0]), actions[1..]);
    }
  }

  /** Every world reachable from a fresh start satisfies the invariant. */
  lemma ReachableSatisfiesInv(numTrucks: nat, numStations: nat, actions: seq<Action>)
    ensures Run(Init(numTrucks, numStations), actions).Some? ==>
      Inv(Run(Init(numTrucks, numStations), actions).value)
  {
    InitSatisfiesInv(numTrucks, numStations);
    RunPreservesInv(Init(numTrucks, numStations), actions);
  }

  lemma QueuedTruckIsPolling(w: World, k: int)
    requires QueueInv(w) && 0 <= k < |w.dataVector|
    ensures w.threads[w.dataVector[k]].phase == Polling
  {
  }

  /**
   * Once the trucks are finished the queue is empty, so the stations may
   * exit, and the station totals equal the truck totals exactly.
   */
  lemma BalancedWhenFinished(w: World)
    requires Inv(w) && w.finished
    ensures w.dataVector == []
    ensures SumOf(w.stationThreads, Received) == SumOf(w.threads, Mined)
    ensures SumOf(w.stationThreads, Served) == SumOf(w.threads, Unloads)
  {
    if |w.dataVector| > 0 {
      QueuedTruckIsPolling(w, 0);
      assert false;
    }
    SumOfZero(w.threads, Pending);
  }

  /** A station leaves its loop only when every truck is finished and the totals balance. */
  lemma BalancedWhenStationExits(w: World, s: int)
    requires Inv(w) && Enabled(w, StationExit(s))
    ensures AllTrucksDone(w)
    ensures SumOf(w.stationThreads, Received) == SumOf(w.threads, Mined)
    ensures SumOf(w.stationThreads, Served) == SumOf(w.threads, Unloads)
  {
    BalancedWhenFinished(w);
  }

  /**
   * No truck unloads more often than `calculateMaximumTripsPossible` allows
   * for the horizon: the k-th UNLOADING arm runs after k minings of at least
   * 60 minutes and 65k - 35 minutes of travel and unloading, and before the
   * horizon.
   */
  lemma UnloadsWithinMaximumTrips(w: World, i: int)
    requires Inv(w) && 0 <= i < |w.threads|
    ensures 0 <= w.threads[i].truck.totalUnloadedTrips <= CalculateMaximumTripsPossible(kMaxMiningDurationMins)
  {
    var th := w.threads[i];
    var n := Trips(th);
    var durations := th.truck.miningDurations;
    assert ThreadInv(th);
    if n >= 1 {
      var credited := durations[..n];
      assert AllMiningDurations(credited) by {
        forall k | 0 <= k < |credited| ensures Site.IsMiningDuration(credited[k]) {
          assert credited[k] == durations[k];
        }
      }
      MiningDurationsSumBounds(credited);
      assert 60 * n <= th.truck.totalMinedHelium;
    }
    MaximumTripsAtHorizon();
  }

  /** The truck's recorded durations always add up to its total mining time. */
  lemma TotalMiningDurationMatches(w: World, i: int)
    requires Inv(w) && 0 <= i < |w.threads|
    ensures Sum(w.threads[i].truck.miningDurations) == w.threads[i].truck.totalMiningTime
  {
    assert ThreadInv(w.threads[i]);
  }

  /**
   * The horizon clamp: below the horizon while the loop runs, exactly on it
   * once the loop has exited.
   */
  lemma HorizonRespected(w: World, i: int)
    requires Inv(w) && 0 <= i < |w.threads|
    ensures w.threads[i].phase == Running ==> w.threads[i].elapsedTime < kMaxMiningDurationMins
    ensures w.threads[i].phase == Done ==> w.threads[i].elapsedTime == kMaxMiningDurationMins
  {
    assert ThreadInv(w.threads[i]);
  }

  /**
   * Once the poll check has answered true for a waiting truck it keeps
   * answering true, whatever any thread does next, until a station serves
   * the truck and clears its flag.
   */
  lemma ProcessedStaysProcessed(w: World, a: Action, i: int)
    requires Inv(w) && Enabled(w, a) && 0 <= i < |w.threads|
    requires w.threads[i].truck.isInDataQueue
    requires HandoffQueue.DidStationProcessTruck(w.dataVector, i, w.threads[i].position)
    ensures var w' := Apply(w, a);
      w'.threads[i].truck.isInDataQueue ==>
        HandoffQueue.DidStationProcessTruck(w'.dataVector, i, w'.threads[i].position)
  {
    var queue := w.dataVector;
    assert i in queue;
    var k :| 0 <= k < |queue| && queue[k] == i;
    var position := w.threads[i].position;
    assert w.threads[i].phase == Polling && k <= position;
    match a
    case TruckStep(j, d) =>
    case TruckEnqueue(j) =>
      assert !w.threads[j].truck.isInDataQueue;
      assert HandoffQueue.Unique(queue + [j]) by {
        forall l | 0 <= l < |queue| ensures queue[l] != j {
          NotQueued(w, j);
        }
      }
      HandoffQueue.PushKeepsAnswer(queue, i, k, position, j);
    case TruckPoll(j) =>
      if j == i {
        PollThreadPreserves(w.threads[i], queue);
      }
    case StationServe(s) =>
      if k != 0 {
        HandoffQueue.PopFrontKeepsProcessed(queue, i, k, position);
      }
    case StationExit(s) =>
    case FinishTrucks =>
  }

  /** The sleep each arm of the switch asks for. */
  function SleepOf(s: State, minedDuration: int): int {
    match s
    case Mining => minedDuration
    case TravelToUnloadStation => kTruckTravelTimeMins
    case Unloading => kUnloadTimeMins
    case TravelToMiningSite => kTruckTravelTimeMins
  }

  /**
   * The switch moves every truck one state along the four-state cycle, which
   * closes after four steps, and sleeps d, 30, 5 and 30 minutes in the four
   * states.
   */
  lemma StateCycle(t: TruckData, d: int)
    ensures MachineStep(t, d).0.currentState == NextState(t.currentState)
    ensures MachineStep(t, d).1 == SleepOf(t.currentState, d)
    ensures NextState(NextState(NextState(NextState(t.currentState)))) == t.currentState
    ensures t.currentState != NextState(t.currentState)
  {
  }

  /**
   * The accounting of one arm: MINING records d as the current mining time,
   * as the current helium and as one more duration, and adds it to the
   * total mining time; UNLOADING adds the current helium to the total; the
   * travel arms change only the state. The id, the unload count, the waits
   * and the flag are never touched.
   */
  lemma MachineStepAccounting(t: TruckData, d: int)
    ensures var t' := MachineStep(t, d).0;
      && t'.id == t.id && t'.totalUnloadedTrips == t.totalUnloadedTrips
      && t'.currentTripQueueWait == t.currentTripQueueWait && t'.totalQueueWait == t.totalQueueWait
      && t'.isInDataQueue == t.isInDataQueue
      && (t.currentState == Mining ==>
            && t'.currentMiningTime == d && t'.currentMinedHelium == d * kHeliumMiningRatePerMin
            && t'.totalMiningTime == t.totalMiningTime + d
            && t'.miningDurations == t.miningDurations + [d]
            && t'.totalMinedHelium == t.totalMinedHelium)
      && (t.currentState == Unloading ==>
            t' == t.(totalMinedHelium := t.totalMinedHelium + t.currentMinedHelium,
                     currentState := TravelToMiningSite))
      && (t.currentState in {TravelToUnloadStation, TravelToMiningSite} ==>
            t' == t.(currentState := NextState(t.currentState)))
  {
  }

  /** A truck pass heads for the queue exactly when the truck was UNLOADING. */
  lemma OnlyUnloadingEnqueues(th: TruckThread, d: int)
    ensures StepThread(th, d).phase == Enqueueing <==> th.truck.currentState == Unloading
    ensures th.truck.currentState != Unloading ==> StepThread(th, d).phase in {Running, Done}
  {
  }

  /**
   * The push: the truck's id goes to the back of the queue, every earlier
   * entry stays where it was, the truck remembers the old queue length as
   * its position, and its flag is raised.
   */
  lemma EnqueueAppends(w: World, i: int)
    requires Inv(w) && Enabled(w, TruckEnqueue(i))
    ensures var w' := Apply(w, TruckEnqueue(i));
      && w'.dataVector == w.dataVector + [i]
      && w'.threads[i].position == |w.dataVector|
      && w'.threads[i].truck.isInDataQueue
      && w'.threads[i].phase == Polling
      && (forall k :: 0 <= k < |w.dataVector| ==> w'.dataVector[k] == w.dataVector[k])
  {
    var (queue, position) := HandoffQueue.Push(w.dataVector, w.threads[i].truck.id);
    assert queue == w.dataVector + [i];
  }

  /**
   * A poll pass charges one minute of queue wait, and one minute of clock,
   * exactly when the truck is still flagged and the check finds its slot no
   * longer holds it; a pass that finds the flag cleared ends the iteration.
   */
  lemma PollChargesOnlyWhenProcessed(th: TruckThread, queue: seq<int>)
    ensures var th' := PollThread(th, queue);
      var charged := th.truck.isInDataQueue && HandoffQueue.DidStationProcessTruck(queue, th.truck.id, th.position);
      && (th.truck.isInDataQueue ==>
            && th'.truck.currentTripQueueWait == th.truck.currentTripQueueWait + (if charged then 1 else 0)
            && th'.elapsedTime == th.elapsedTime + (if charged then 1 else 0)
            && th'.phase == th.phase && th'.truck.isInDataQueue)
      && (!th.truck.isInDataQueue ==> th' == EndIteration(th))
  {
  }

  /**
   * Serving takes the front entry only: the truck behind each remaining
   * entry moves one slot forward, the station gains one unload and the
   * served truck's helium, and the served truck gains one unload and its
   * trip's wait, with the wait reset and the flag cleared.
   */
  lemma ServeTakesFront(w: World, s: int)
    requires Inv(w) && Enabled(w, StationServe(s))
    ensures var w' := Apply(w, StationServe(s));
      var j := w.dataVector[0];
      var t := w.threads[j].truck;
      && w'.dataVector == w.dataVector[1..]
      && (forall k :: 0 <= k < |w'.dataVector| ==> w'.dataVector[k] == w.dataVector[k + 1])
      && w'.stationThreads[s].station.totalTrucksUnloaded == w.stationThreads[s].station.totalTrucksUnloaded + 1
      && w'.stationThreads[s].station.totalHeliumReceived
           == w.stationThreads[s].station.totalHeliumReceived + t.currentMinedHelium
      && w'.threads[j].truck.totalUnloadedTrips == t.totalUnloadedTrips + 1
      && w'.threads[j].truck.totalQueueWait == t.totalQueueWait + t.currentTripQueueWait
      && w'.threads[j].truck.currentTripQueueWait == 0
      && !w'.threads[j].truck.isInDataQueue
  {
  }
}
