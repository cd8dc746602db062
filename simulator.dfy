/**
 * The `Simulator` class (include/Simulator.h, Simulator.cpp): its recorded
 * copies of trucks and stations, the shared hand-off queue, the finished
 * flag, and the bodies of the truck and station threads cut into atomic
 * steps. Each step is proved to have exactly the effect of the matching
 * transition of the pure model, so the pure model's invariant is kept.
 */
module SimulatorModel {
  import opened Sums
  import opened Trucks
  import opened Stations
  import opened Limits
  import Site
  import HandoffQueue
  import opened Transitions
  import opened Invariants
  import Properties
  import Findings

  /** The locals of one running `simulateTruck`. */
  datatype TruckLocals = TruckLocals(elapsedTime: int, sleepTime: int, position: int, phase: Phase)

  /** The ids of the trucks in a queue of truck references. */
  function Ids(queue: seq<Truck>): (ids: seq<int>)
    ensures |ids| == |queue|
    ensures forall k :: 0 <= k < |queue| ==> ids[k] == queue[k].id
  {
    seq(|queue|, k requires 0 <= k < |queue| => queue[k].id)
  }

  /** How many threads a loop `for (int i = 0; i < n; ++i)` starts. */
  function ThreadCount(n: int): (count: nat)
    ensures n >= 0 ==> count == n
    ensures n < 0 ==> count == 0
  {
    if n < 0 then 0 else n
  }

  class Simulator {
    const numTrucks: int
    const numStations: int
    /** m_trucks: the copy of each truck taken when the truck was created. */
    var trucks: seq<TruckData>
    /** m_stations: the copy of each station taken when the station was created. */
    var stations: seq<StationData>
    /** The shared queue of trucks waiting to be unloaded, front first. */
    var dataVector: seq<Truck>
    /** Set once every truck thread has finished. */
    var finished: bool
    /** The truck owned by each truck thread, and that thread's locals. */
    var truckThreads: seq<Truck>
    var truckLocals: seq<TruckLocals>
    /** The station owned by each station thread, and whether it has left its loop. */
    var stationThreads: seq<Station>
    var stationExited: seq<bool>

    ghost function ThreadView(i: int): TruckThread
      reads this, truckThreads
      requires 0 <= i < |truckThreads| && i < |truckLocals|
    {
      var loc := truckLocals[i];
      TruckThread(truckThreads[i].Snapshot(), loc.elapsedTime, loc.sleepTime, loc.position, loc.phase)
    }

    /** The whole simulation as a value of the pure model. */
    ghost function View(): World
      reads this, truckThreads, stationThreads
      requires |truckLocals| == |truckThreads| && |stationExited| == |stationThreads|
    {
      World(
        seq(|truckThreads|, i requires 0 <= i < |truckThreads| && |truckLocals| == |truckThreads| reads this, truckThreads => ThreadView(i)),
        seq(|stationThreads|, s requires 0 <= s < |stationThreads| && |stationExited| == |stationThreads| reads this, stationThreads =>
          StationThread(stationThreads[s].Snapshot(), stationExited[s])),
        Ids(dataVector),
        finished,
        trucks,
        stations)
    }

    /** The objects are distinct and the queue holds the very trucks the threads own. */
    ghost predicate Shape()
      reads this
    {
      && |truckLocals| == |truckThreads| && |stationExited| == |stationThreads|
      && (forall i, j :: 0 <= i < j < |truckThreads| ==> truckThreads[i] != truckThreads[j])
      && (forall s, r :: 0 <= s < r < |stationThreads| ==> stationThreads[s] != stationThreads[r])
      && (forall k :: 0 <= k < |dataVector| ==>
            0 <= dataVector[k].id < |truckThreads| && truckThreads[dataVector[k].id] == dataVector[k])
    }

    ghost predicate Valid()
      reads this, truckThreads, stationThreads
    {
      Shape() && Inv(View())
    }

    /** A step of the pure model from a valid world leaves a valid simulator. */
    lemma ValidAfter(w: World, a: Action)
      requires Shape() && Inv(w) && Enabled(w, a) && View() == Apply(w, a)
      ensures Valid()
    {
      ApplyPreservesInv(w, a);
    }

    /** The view is determined by the view of each thread and station and by the shared fields. */
    lemma ViewIs(w: World)
      requires Shape() && |truckThreads| == |w.threads| && |stationThreads| == |w.stationThreads|
      requires forall j :: 0 <= j < |truckThreads| ==> ThreadView(j) == w.threads[j]
      requires forall s :: 0 <= s < |stationThreads| ==>
        StationThread(stationThreads[s].Snapshot(), stationExited[s]) == w.stationThreads[s]
      requires Ids(dataVector) == w.dataVector && finished == w.finished
      requires trucks == w.trucks && stations == w.stations
      ensures View() == w
    {
      assert View().threads == w.threads;
      assert View().stationThreads == w.stationThreads;
    }

    /** A simulator for the given fleet, before anything has started. */
    constructor (numTrucks: int, numStations: int)
      ensures this.numTrucks == numTrucks && this.numStations == numStations
      ensures trucks == [] && stations == [] && dataVector == [] && !finished
      ensures truckThreads == [] && truckLocals == [] && stationThreads == [] && stationExited == []
      ensures Valid()
    {
      this.numTrucks := numTrucks;
      this.numStations := numStations;
      trucks := [];
      stations := [];
      dataVector := [];
      finished := false;
      truckThreads := [];
      truckLocals := [];
      stationThreads := [];
      stationExited := [];
    }

    /** Appends a copy of the truck as it is now; earlier entries are unchanged. */
    method AddTruck(truck: Truck)
      modifies this`trucks
      ensures trucks == old(trucks) + [truck.Snapshot()]
    {
      trucks := trucks + [truck.Snapshot()];
    }

    /** Appends a copy of the station as it is now; earlier entries are unchanged. */
    method AddStation(station: Station)
      modifies this`stations
      ensures stations == old(stations) + [station.Snapshot()]
    {
      stations := stations + [station.Snapshot()];
    }

    /** The recorded truck copies; nothing changes. */
    method GetTrucks() returns (r: seq<TruckData>)
      ensures r == trucks
    {
      r := trucks;
    }

    /** The recorded station copies; nothing changes. */
    method GetStations() returns (r: seq<StationData>)
      ensures r == stations
    {
      r := stations;
    }
  
    /**
     * `didStationProcessTruck`: whether the queue slot the truck was pushed
     * into no longer holds it; a slot past the end (or a negative position,
     * which the unsigned comparison also sends there) counts as processed.
     * Reads the queue and changes nothing.
     */
    method DidStationProcessTruck(truck: Truck, position: int) returns (processed: bool)
      ensures processed == HandoffQueue.DidStationProcessTruck(Ids(dataVector), truck.id, position)
      ensures processed <==> !(0 <= position < |dataVector| && dataVector[position].id == truck.id)
    {
      if 0 <= position < |dataVector| {
        var truckInVector := dataVector[position];
        processed := truckInVector.id != truck.id;
      } else {
        processed := true;
      }
    }

    /**
     * The end of one pass of the outer loop of `simulateTruck`: the horizon
     * clamp, the (simulated) sleep and the loop test. Only thread i's locals
     * change.
     */
    method EndOfIteration(i: int)
      requires |truckLocals| == |truckThreads| && 0 <= i < |truckThreads|
      modifies this`truckLocals
      ensures |truckLocals| == |truckThreads|
      ensures ThreadView(i) == EndIteration(old(ThreadView(i)))
      ensures forall j :: 0 <= j < |truckLocals| && j != i ==> truckLocals[j] == old(truckLocals[j])
    {
      var locals := truckLocals[i];
      var elapsedTime := locals.elapsedTime;
      var sleepTime := locals.sleepTime;
      if elapsedTime + sleepTime > kMaxMiningDurationMins {
        sleepTime := kMaxMiningDurationMins - elapsedTime;
      }
      elapsedTime := elapsedTime + sleepTime;
      var phase := if elapsedTime < kMaxMiningDurationMins then Running else Done;
      truckLocals := truckLocals[i := TruckLocals(elapsedTime, sleepTime, locals.position, phase)];
    }

    /**
     * The switch of `simulateTruck` on one truck: the arm of its current
     * state updates its fields through the setters and gives the sleep.
     */
    method TruckSwitch(miningTruck: Truck, minedDuration: int) returns (sleepTime: int)
      modifies miningTruck
      ensures (miningTruck.Snapshot(), sleepTime) == MachineStep(old(miningTruck.Snapshot()), minedDuration)
    {
      match miningTruck.currentState {
        case Mining =>
          miningTruck.SetCurrentMiningTime(minedDuration);
          miningTruck.SetCurrentMinedHelium(miningTruck.currentMiningTime * kHeliumMiningRatePerMin);
          miningTruck.SetTotalMiningTime(miningTruck.currentMiningTime + miningTruck.totalMiningTime);
          miningTruck.SaveMiningDuration(miningTruck.currentMiningTime);
          sleepTime := miningTruck.currentMiningTime;
          miningTruck.SetCurrentState(TravelToUnloadStation);
        case TravelToMiningSite =>
          sleepTime := kTruckTravelTimeMins;
          miningTruck.SetCurrentState(Mining);
        case TravelToUnloadStation =>
          sleepTime := kTruckTravelTimeMins;
          miningTruck.SetCurrentState(Unloading);
        case Unloading =>
          sleepTime := kUnloadTimeMins;
          miningTruck.SetTotalMinedHelium(miningTruck.totalMinedHelium + miningTruck.currentMinedHelium);
          miningTruck.SetCurrentState(TravelToMiningSite);
      }
    }

    /**
     * One pass of the outer loop of `simulateTruck` for thread i: the switch
     * on the truck's state, then the end of the pass, or, in the UNLOADING
     * state, a stop just before the push onto the queue.
     */
    method TruckIteration(i: int, minedDuration: int)
      requires Valid() && Enabled(View(), Action.TruckStep(i, minedDuration))
      modifies this`truckLocals, truckThreads[i]
      ensures Valid()
      ensures View() == Apply(old(View()), Action.TruckStep(i, minedDuration))
    {
      ghost var before := View();
      ghost var after := Apply(before, Action.TruckStep(i, minedDuration));
      var miningTruck := truckThreads[i];
      SwitchPass(i, minedDuration);
      forall j | 0 <= j < |truckThreads| && j != i
        ensures ThreadView(j) == after.threads[j]
      {
        assert truckThreads[j] != miningTruck;
        assert ThreadView(j) == old(ThreadView(j));
      }
      ViewIs(after);
      ValidAfter(before, Action.TruckStep(i, minedDuration));
    }

    /** The switch and what follows it, for thread i alone: the step of the pure model. */
    method SwitchPass(i: int, minedDuration: int)
      requires |truckLocals| == |truckThreads| && 0 <= i < |truckThreads|
      modifies this`truckLocals, truckThreads[i]
      ensures |truckLocals| == |truckThreads|
      ensures ThreadView(i) == StepThread(old(ThreadView(i)), minedDuration)
      ensures forall j :: 0 <= j < |truckLocals| && j != i ==> truckLocals[j] == old(truckLocals[j])
    {
      var miningTruck := truckThreads[i];
      var locals := truckLocals[i];
      var currentState := miningTruck.currentState;
      var sleepTime := TruckSwitch(miningTruck, minedDuration);
      if currentState == Unloading {
        truckLocals := truckLocals[i := locals.(sleepTime := sleepTime, phase := Enqueueing)];
      } else {
        truckLocals := truckLocals[i := locals.(sleepTime := sleepTime)];
        EndOfIteration(i);
      }
    }

    /**
     * The push of `simulateTruck` after the UNLOADING arm: the truck goes to
     * the back of the queue, remembers the slot it was given and raises its
     * in-queue flag; then the thread starts polling.
     */
    method PushToQueue(i: int)
      requires Valid() && Enabled(View(), Action.TruckEnqueue(i))
      modifies this`truckLocals, this`dataVector, truckThreads[i]
      ensures Valid()
      ensures View() == Apply(old(View()), Action.TruckEnqueue(i))
    {
      ghost var before := View();
      ghost var after := Enqueued(before, i);
      var miningTruck := truckThreads[i];
      assert miningTruck.id == i;
      PushPass(i);
      assert Ids(dataVector) == after.dataVector;
      forall j | 0 <= j < |truckThreads| && j != i
        ensures ThreadView(j) == after.threads[j]
      {
        assert truckThreads[j] != miningTruck;
        assert ThreadView(j) == old(ThreadView(j));
      }
      ViewIs(after);
      ApplyEnqueue(before, i);
      ValidAfter(before, Action.TruckEnqueue(i));
    }

    /** The push itself, for thread i alone: its truck joins the back of the queue. */
    method PushPass(i: int)
      requires |truckLocals| == |truckThreads| && 0 <= i < |truckThreads|
      modifies this`truckLocals, this`dataVector, truckThreads[i]
      ensures |truckLocals| == |truckThreads|
      ensures dataVector == old(dataVector) + [truckThreads[i]]
      ensures ThreadView(i) == old(ThreadView(i)).(truck := old(ThreadView(i)).truck.(isInDataQueue := true),
                                                  position := |old(dataVector)|, phase := Polling)
      ensures forall j :: 0 <= j < |truckLocals| && j != i ==> truckLocals[j] == old(truckLocals[j])
    {
      var miningTruck := truckThreads[i];
      dataVector := dataVector + [miningTruck];
      var truckPositionInVector := |dataVector| - 1;
      miningTruck.SetIsInDataQueue(true);
      truckLocals := truckLocals[i := truckLocals[i].(position := truckPositionInVector, phase := Polling)];
    }

    /**
     * The wait a polling truck is charged when some truck ahead of it has
     * been served: one minute on its trip's queue wait and on its clock.
     */
    method ChargeQueueWait(i: int)
      requires |truckLocals| == |truckThreads| && 0 <= i < |truckThreads|
      modifies this`truckLocals, truckThreads[i]
      ensures |truckLocals| == |truckThreads|
      ensures ThreadView(i) == old(ThreadView(i)).(
        truck := old(ThreadView(i)).truck.(currentTripQueueWait := old(ThreadView(i)).truck.currentTripQueueWait + 1),
        elapsedTime := old(ThreadView(i)).elapsedTime + 1)
      ensures forall j :: 0 <= j < |truckLocals| && j != i ==> truckLocals[j] == old(truckLocals[j])
    {
      var miningTruck := truckThreads[i];
      var waitTime := 1;
      miningTruck.SetCurrentTripQueueWait(miningTruck.currentTripQueueWait + waitTime);
      truckLocals := truckLocals[i := truckLocals[i].(elapsedTime := truckLocals[i].elapsedTime + waitTime)];
    }

    /**
     * One pass of the poll loop of `simulateTruck`: once a station has
     * cleared the flag the thread finishes the pass of the outer loop;
     * otherwise, when the check finds that some truck has been served, the
     * truck is charged one minute of queue wait. Only thread i changes.
     */
    method PollPass(i: int)
      requires |truckLocals| == |truckThreads| && 0 <= i < |truckThreads|
      modifies this`truckLocals, truckThreads[i]
      ensures |truckLocals| == |truckThreads|
      ensures ThreadView(i) == PollThread(old(ThreadView(i)), Ids(dataVector))
      ensures forall j :: 0 <= j < |truckLocals| && j != i ==> truckLocals[j] == old(truckLocals[j])
    {
      var miningTruck := truckThreads[i];
      if !miningTruck.isInDataQueue {
        EndOfIteration(i);
      } else {
        var processed := DidStationProcessTruck(miningTruck, truckLocals[i].position);
        if processed {
          ChargeQueueWait(i);
        }
      }
    }

    /** A poll pass of thread i is the poll step of the pure model. */
    method PollQueue(i: int)
      requires Valid() && Enabled(View(), Action.TruckPoll(i))
      modifies this`truckLocals, truckThreads[i]
      ensures Valid()
      ensures View() == Apply(old(View()), Action.TruckPoll(i))
    {
      ghost var before := View();
      ghost var after := Apply(before, Action.TruckPoll(i));
      var miningTruck := truckThreads[i];
      PollPass(i);
      forall j | 0 <= j < |truckThreads| && j != i
        ensures ThreadView(j) == after.threads[j]
      {
        assert truckThreads[j] != miningTruck;
        assert ThreadView(j) == old(ThreadView(j));
      }
      ViewIs(after);
      ValidAfter(before, Action.TruckPoll(i));
    }

    /** The station's side of an unload: one more truck served and the truck's helium received. */
    method CreditStation(unloadStation: Station, truck: Truck)
      modifies unloadStation
      ensures unloadStation.Snapshot() == ServeStation(old(unloadStation.Snapshot()), truck.Snapshot())
    {
      unloadStation.IncrementTotalTrucksUnloaded();
      unloadStation.SetTotalHeliumReceived(unloadStation.totalHeliumReceived + truck.currentMinedHelium);
    }

    /** The truck's side of an unload: its unload count and queue wait are credited and its flag cleared. */
    method ReleaseTruck(truck: Truck)
      modifies truck
      ensures truck.Snapshot() == ServeTruck(old(truck.Snapshot()))
    {
      truck.IncrementTotalNumberUnloads();
      truck.SetTotalQueueWait(truck.totalQueueWait + truck.currentTripQueueWait);
      truck.SetCurrentTripQueueWait(0);
      truck.SetIsInDataQueue(false);
    }

    /**
     * One pass of the inner loop of `simulateStation`: station s takes the
     * truck at the front of the queue, adds one unload and the truck's
     * helium to its totals, credits the truck with the unload and its queue
     * wait, and clears the truck's wait and flag.
     */
    method UnloadFrontTruck(s: int)
      requires Valid() && Enabled(View(), Action.StationServe(s))
      modifies this`dataVector, stationThreads[s], dataVector[0]
      ensures Valid()
      ensures View() == Apply(old(View()), Action.StationServe(s))
    {
      ghost var before := View();
      ghost var after := ServedFront(before, s);
      var unloadStation := stationThreads[s];
      var truck := dataVector[0];
      ghost var j := truck.id;
      dataVector := dataVector[1..];
      CreditStation(unloadStation, truck);
      ReleaseTruck(truck);
      assert Ids(dataVector) == after.dataVector;
      assert ThreadView(j) == after.threads[j];
      forall k | 0 <= k < |truckThreads| && k != j
        ensures ThreadView(k) == after.threads[k]
      {
        assert truckThreads[k] != truck;
        assert ThreadView(k) == old(ThreadView(k));
      }
      forall r | 0 <= r < |stationThreads|
        ensures StationThread(stationThreads[r].Snapshot(), stationExited[r]) == after.stationThreads[r]
      {
        if r != s {
          assert stationThreads[r] != unloadStation;
        }
      }
      ViewIs(after);
      ApplyServe(before, s);
      ValidAfter(before, Action.StationServe(s));
    }

    /**
     * The exit test at the bottom of the loop of `simulateStation`: station s
     * leaves its loop exactly when the trucks are finished and the queue is
     * empty; otherwise nothing changes and it waits again.
     */
    method StationExitCheck(s: int) returns (exited: bool)
      requires Valid() && 0 <= s < |stationThreads| && !stationExited[s]
      modifies this`stationExited
      ensures Valid()
      ensures exited <==> finished && |dataVector| == 0
      ensures exited ==> View() == Apply(old(View()), Action.StationExit(s))
      ensures !exited ==> View() == old(View())
    {
      ghost var before := View();
      exited := finished && |dataVector| == 0;
      if exited {
        stationExited := stationExited[s := true];
        ghost var after := Apply(before, Action.StationExit(s));
        ViewIs(after);
        ValidAfter(before, Action.StationExit(s));
      }
    }

    /**
     * The end of the truck phase of `startSimulator`: once every truck thread
     * has left its loop, the finished flag is raised.
     */
    method SignalFinished()
      requires Valid() && Enabled(View(), Action.FinishTrucks)
      modifies this`finished
      ensures Valid()
      ensures View() == Apply(old(View()), Action.FinishTrucks)
    {
      ghost var before := View();
      finished := true;
      ViewIs(Apply(before, Action.FinishTrucks));
      ValidAfter(before, Action.FinishTrucks);
    }

    /** The truck threads of a fresh simulator: thread i owns truck i, recorded once. */
    ghost predicate FreshTrucks()
      reads this, truckThreads
    {
      && |truckThreads| == |truckLocals| == |trucks|
      && (forall j :: 0 <= j < |truckThreads| ==>
            truckThreads[j].Snapshot() == NewTruck(j) && trucks[j] == NewTruck(j)
            && truckLocals[j] == TruckLocals(0, 0, 0, Running))
      && (forall j, l :: 0 <= j < l < |truckThreads| ==> truckThreads[j] != truckThreads[l])
    }

    /** The station threads of a fresh simulator: thread s owns station s, recorded once. */
    ghost predicate FreshStations()
      reads this, stationThreads
    {
      && |stationThreads| == |stationExited| == |stations|
      && (forall r :: 0 <= r < |stationThreads| ==>
            stationThreads[r].Snapshot() == NewStation(r) && stations[r] == NewStation(r) && !stationExited[r])
      && (forall r, q :: 0 <= r < q < |stationThreads| ==> stationThreads[r] != stationThreads[q])
    }

    /**
     * The first loop of `startSimulator`: truck thread i starts with a new
     * truck of id i and records a copy of it through `addTruck`.
     */
    method CreateTruckThreads()
      requires truckThreads == [] && truckLocals == [] && trucks == []
      modifies this`truckThreads, this`truckLocals, this`trucks
      ensures FreshTrucks() && |truckThreads| == ThreadCount(numTrucks)
      ensures forall j :: 0 <= j < |truckThreads| ==> fresh(truckThreads[j])
    {
      var i := 0;
      while i < numTrucks
        invariant 0 <= i <= ThreadCount(numTrucks)
        invariant FreshTrucks() && |truckThreads| == i
        invariant forall j :: 0 <= j < i ==> fresh(truckThreads[j])
      {
        var miningTruck := new Truck(i);
        AddTruck(miningTruck);
        truckThreads := truckThreads + [miningTruck];
        truckLocals := truckLocals + [TruckLocals(0, 0, 0, Running)];
        i := i + 1;
      }
    }

    /**
     * The second loop of `startSimulator`: station thread s starts with a
     * new station of id s and records a copy of it through `addStation`.
     */
    method CreateStationThreads()
      requires stationThreads == [] && stationExited == [] && stations == []
      modifies this`stationThreads, this`stationExited, this`stations
      ensures FreshStations() && |stationThreads| == ThreadCount(numStations)
      ensures forall r :: 0 <= r < |stationThreads| ==> fresh(stationThreads[r])
    {
      var s := 0;
      while s < numStations
        invariant 0 <= s <= ThreadCount(numStations)
        invariant FreshStations() && |stationThreads| == s
        invariant forall r :: 0 <= r < s ==> fresh(stationThreads[r])
      {
        var unloadStation := new Station(s);
        AddStation(unloadStation);
        stationThreads := stationThreads + [unloadStation];
        stationExited := stationExited + [false];
        s := s + 1;
      }
    }

    /** Both loops of `startSimulator` leave the simulator in the initial world. */
    method CreateThreads()
      requires trucks == [] && stations == [] && dataVector == [] && !finished
      requires truckThreads == [] && truckLocals == [] && stationThreads == [] && stationExited == []
      modifies this
      ensures Valid()
      ensures View() == Init(ThreadCount(numTrucks), ThreadCount(numStations))
      ensures forall j :: 0 <= j < |truckThreads| ==> fresh(truckThreads[j])
      ensures forall s :: 0 <= s < |stationThreads| ==> fresh(stationThreads[s])
    {
      CreateTruckThreads();
      CreateStationThreads();
      ghost var init := Init(ThreadCount(numTrucks), ThreadCount(numStations));
      assert trucks == init.trucks;
      assert stations == init.stations;
      ViewIs(init);
      Properties.InitSatisfiesInv(ThreadCount(numTrucks), ThreadCount(numStations));
    }

    /** The scheduler runs one enabled step of one thread. */
    method Step(a: Action)
      requires Valid() && Enabled(View(), a)
      modifies this, truckThreads, stationThreads
      ensures Valid()
      ensures truckThreads == old(truckThreads) && stationThreads == old(stationThreads)
      ensures View() == Apply(old(View()), a)
    {
      if a.TruckStep? || a.TruckEnqueue? || a.TruckPoll? {
        TruckTurn(a);
      } else {
        SharedTurn(a);
      }
    }

    /** A step of one truck thread. */
    method TruckTurn(a: Action)
      requires Valid() && Enabled(View(), a) && (a.TruckStep? || a.TruckEnqueue? || a.TruckPoll?)
      modifies this, truckThreads
      ensures Valid()
      ensures truckThreads == old(truckThreads) && stationThreads == old(stationThreads)
      ensures View() == Apply(old(View()), a)
    {
      match a {
        case TruckStep(i, minedDuration) => TruckIteration(i, minedDuration);
        case TruckEnqueue(i) => PushToQueue(i);
        case TruckPoll(i) => PollQueue(i);
      }
    }

    /** A step of one station thread, or of the main thread raising the finished flag. */
    method SharedTurn(a: Action)
      requires Valid() && Enabled(View(), a) && (a.StationServe? || a.StationExit? || a.FinishTrucks?)
      modifies this, truckThreads, stationThreads
      ensures Valid()
      ensures truckThreads == old(truckThreads) && stationThreads == old(stationThreads)
      ensures View() == Apply(old(View()), a)
    {
      match a {
        case StationServe(s) => UnloadFrontTruck(s);
        case StationExit(s) => var exited := StationExitCheck(s);
        case FinishTrucks => SignalFinished();
      }
    }

    /**
     * The threads at work: the steps of the given interleaving, one after
     * the other. The interleaving stands for the operating system's
     * scheduler and, in each truck step, the site's random mining duration.
     */
    method RunSchedule(schedule: seq<Action>)
      requires Valid() && Run(View(), schedule).Some?
      modifies this, truckThreads, stationThreads
      ensures Valid()
      ensures View() == Run(old(View()), schedule).value
    {
      var k := 0;
      while k < |schedule|
        invariant 0 <= k <= |schedule|
        invariant Valid()
        invariant truckThreads == old(truckThreads) && stationThreads == old(stationThreads)
        invariant Run(View(), schedule[k..]) == Run(old(View()), schedule)
      {
        assert schedule[k..][1..] == schedule[k + 1..];
        Step(schedule[k]);
        k := k + 1;
      }
      assert schedule[k..] == [];
    }

    /** The state a complete run leaves: every thread out of its loop and the live totals balanced. */
    lemma Finished(w: World)
      requires Valid() && View() == w && w.finished
      requires forall s :: 0 <= s < |w.stationThreads| ==> w.stationThreads[s].exited
      ensures dataVector == []
      ensures forall i :: 0 <= i < |truckThreads| ==> truckLocals[i].phase == Done
      ensures forall s :: 0 <= s < |stationExited| ==> stationExited[s]
      ensures SumOf(Findings.LiveStations(w.stationThreads), Findings.StationHelium)
           == SumOf(Findings.LiveTrucks(w.threads), Findings.TruckHelium)
      ensures SumOf(Findings.LiveStations(w.stationThreads), Findings.StationUnloads)
           == SumOf(Findings.LiveTrucks(w.threads), Findings.TruckUnloads)
    {
      Properties.BalancedWhenFinished(w);
      Findings.LiveTotalsBalance(w);
      assert |dataVector| == |w.dataVector|;
      forall i | 0 <= i < |truckThreads|
        ensures truckLocals[i].phase == Done
      {
        assert w.threads[i] == ThreadView(i);
      }
      forall s | 0 <= s < |stationExited|
        ensures stationExited[s]
      {
        assert w.stationThreads[s].exited == stationExited[s];
      }
    }

    /**
     * `startSimulator` on a fresh simulator: create every thread, then run
     * the interleaving the scheduler picks. The call returns only once every
     * truck thread has been joined, `finished` has been set and every station
     * thread has been joined, so the interleaving is a complete one: it ends
     * with `finished` set and every station out of its loop.
     */
    method StartSimulator(schedule: seq<Action>)
      requires trucks == [] && stations == [] && dataVector == [] && !finished
      requires truckThreads == [] && truckLocals == [] && stationThreads == [] && stationExited == []
      requires var r := Run(Init(ThreadCount(numTrucks), ThreadCount(numStations)), schedule);
        && r.Some? && r.value.finished
        && forall s :: 0 <= s < |r.value.stationThreads| ==> r.value.stationThreads[s].exited
      modifies this
      ensures Valid()
      ensures View() == Run(Init(ThreadCount(numTrucks), ThreadCount(numStations)), schedule).value
      ensures finished && dataVector == []
      ensures forall i :: 0 <= i < |truckThreads| ==> truckLocals[i].phase == Done
      ensures forall s :: 0 <= s < |stationExited| ==> stationExited[s]
      // what getTrucks and getStations report: the copies taken at creation
      ensures trucks == seq(ThreadCount(numTrucks), i => NewTruck(i))
      ensures stations == seq(ThreadCount(numStations), s => NewStation(s))
      // what the live objects hold: the stations received what the trucks mined
      ensures SumOf(Findings.LiveStations(View().stationThreads), Findings.StationHelium)
           == SumOf(Findings.LiveTrucks(View().threads), Findings.TruckHelium)
      ensures SumOf(Findings.LiveStations(View().stationThreads), Findings.StationUnloads)
           == SumOf(Findings.LiveTrucks(View().threads), Findings.TruckUnloads)
    {
      CreateThreads();
      RunSchedule(schedule);
      Findings.RecordedTotalsStayZero(ThreadCount(numTrucks), ThreadCount(numStations), schedule);
      Finished(View());
    }
}
}
