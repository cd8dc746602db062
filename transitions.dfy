/**
 * The truck and station threads of Simulator.cpp as an atomic-step
 * transition system. The locks, the condition variable and the sleeps are
 * gone; every truck step, enqueue, poll and serve is one indivisible
 * transition, and any interleaving of them is a run.
 */
module Transitions {
  import opened Trucks
  import opened Stations
  import opened Limits
  import Site
  import HandoffQueue

  datatype Option<T> = None | Some(value: T)

  /** Where a truck thread stands inside `simulateTruck`. */
  datatype Phase =
    | Running     // at the top of the outer loop, below the horizon
    | Enqueueing  // the UNLOADING arm of the switch ran; the push onto the queue is next
    | Polling     // inside the poll loop, waiting to be served
    | Done        // the outer loop has exited

  /** A truck thread: the truck and the locals of `simulateTruck`. */
  datatype TruckThread = TruckThread(
    truck: TruckData,
    elapsedTime: int,
    sleepTime: int,
    position: int,   // truckPositionInVector
    phase: Phase)

  /** A station thread: the station and whether it has left its loop. */
  datatype StationThread = StationThread(station: StationData, exited: bool)

  /**
   * The whole simulation: truck i is the truck of thread i and has id i;
   * `trucks` and `stations` are the simulator's recorded copies, taken when
   * each truck and station was created.
   */
  datatype World = World(
    threads: seq<TruckThread>,
    stationThreads: seq<StationThread>,
    dataVector: seq<int>,
    finished: bool,
    trucks: seq<TruckData>,
    stations: seq<StationData>)

  /** One atomic step of one thread, or of the controller. */
  datatype Action =
    | TruckStep(truck: int, minedDuration: int)
    | TruckEnqueue(truck: int)
    | TruckPoll(truck: int)
    | StationServe(station: int)
    | StationExit(station: int)
    | FinishTrucks

  /** The state that follows each state in a truck's cycle. */
  function NextState(s: State): State {
    match s
    case Mining => TravelToUnloadStation
    case TravelToUnloadStation => Unloading
    case Unloading => TravelToMiningSite
    case TravelToMiningSite => Mining
  }

  /**
   * One arm of the switch in `simulateTruck`: the truck's new fields and the
   * sleep the state asks for. `minedDuration` is the site's random draw and
   * is used only in the MINING arm.
   */
  function MachineStep(t: TruckData, minedDuration: int): (r: (TruckData, int))
    ensures r.0.currentState == NextState(t.currentState)
    ensures r.0.id == t.id && r.0.isInDataQueue == t.isInDataQueue
    ensures r.0.totalUnloadedTrips == t.totalUnloadedTrips && r.0.totalQueueWait == t.totalQueueWait
    ensures r.0.currentTripQueueWait == t.currentTripQueueWait
    ensures t.currentState == Mining ==>
      && r.1 == minedDuration
      && r.0.miningDurations == t.miningDurations + [minedDuration]
      && r.0.totalMiningTime == t.totalMiningTime + minedDuration
      && r.0.currentMiningTime == minedDuration
      && r.0.currentMinedHelium == minedDuration * kHeliumMiningRatePerMin
    ensures t.currentState != Mining ==>
      && r.0.miningDurations == t.miningDurations
      && r.0.totalMiningTime == t.totalMiningTime
      && r.0.currentMiningTime == t.currentMiningTime
      && r.0.currentMinedHelium == t.currentMinedHelium
      && r.1 == (if t.currentState == Unloading then kUnloadTimeMins else kTruckTravelTimeMins)
    ensures r.0.totalMinedHelium == t.totalMinedHelium + (if t.currentState == Unloading then t.currentMinedHelium else 0)
  {
    match t.currentState
    case Mining =>
      var mined := t.(currentMiningTime := minedDuration,
                      currentMinedHelium := minedDuration * kHeliumMiningRatePerMin);
      var counted := mined.(totalMiningTime := minedDuration + t.totalMiningTime,
                            miningDurations := t.miningDurations + [minedDuration]);
      (counted.(currentState := TravelToUnloadStation), minedDuration)
    case TravelToMiningSite =>
      (t.(currentState := Mining), kTruckTravelTimeMins)
    case TravelToUnloadStation =>
      (t.(currentState := Unloading), kTruckTravelTimeMins)
    case Unloading =>
      (t.(totalMinedHelium := t.totalMinedHelium + t.currentMinedHelium,
          currentState := TravelToMiningSite), kUnloadTimeMins)
  }

  /**
   * The horizon clamp: a sleep that would carry the clock past the horizon is
   * shortened to end exactly on it; when the clock is already past the
   * horizon the shortened sleep is negative and pulls it back.
   */
  function ClampSleep(elapsedTime: int, sleepTime: int): (s: int)
    ensures elapsedTime + s <= kMaxMiningDurationMins
    ensures elapsedTime + sleepTime <= kMaxMiningDurationMins ==> s == sleepTime
    ensures elapsedTime + sleepTime > kMaxMiningDurationMins ==> elapsedTime + s == kMaxMiningDurationMins
  {
    if elapsedTime + sleepTime > kMaxMiningDurationMins then kMaxMiningDurationMins - elapsedTime else sleepTime
  }

  /** The end of one iteration of the outer loop: clamp, sleep, test the loop condition. */
  function EndIteration(th: TruckThread): (r: TruckThread)
    ensures r.elapsedTime <= kMaxMiningDurationMins
    ensures r.phase == Done <==> r.elapsedTime == kMaxMiningDurationMins
    ensures r.phase == Running ==> r.elapsedTime == th.elapsedTime + th.sleepTime
    ensures r.phase == Running || r.phase == Done
    ensures r.truck == th.truck && r.position == th.position
  {
    var sleep := ClampSleep(th.elapsedTime, th.sleepTime);
    var elapsed := th.elapsedTime + sleep;
    th.(sleepTime := sleep, elapsedTime := elapsed,
        phase := if elapsed < kMaxMiningDurationMins then Running else Done)
  }

  /**
   * One iteration of the outer loop up to the point where it touches the
   * queue: the switch, then either the end of the iteration or, in the
   * UNLOADING state, the push that comes next.
   */
  function StepThread(th: TruckThread, minedDuration: int): (r: TruckThread)
    ensures r.truck.currentState == NextState(th.truck.currentState)
    ensures r.phase == Enqueueing <==> th.truck.currentState == Unloading
    ensures r.phase != Polling && r.position == th.position
    ensures th.truck.currentState == Unloading ==> r.elapsedTime == th.elapsedTime
    ensures th.truck.currentState != Unloading ==> r.elapsedTime <= kMaxMiningDurationMins
  {
    var (t, sleep) := MachineStep(th.truck, minedDuration);
    if th.truck.currentState == Unloading then
      th.(truck := t, sleepTime := sleep, phase := Enqueueing)
    else
      EndIteration(th.(truck := t, sleepTime := sleep))
  }

  /**
   * One pass of the poll loop: leave it once a station has cleared the flag;
   * otherwise, when the check says a station has served some truck, charge
   * one minute of queue wait; otherwise spin without charging.
   */
  function PollThread(th: TruckThread, queue: seq<int>): (r: TruckThread)
    ensures r.truck.id == th.truck.id && r.position == th.position
    ensures !th.truck.isInDataQueue ==> r.truck == th.truck && r.phase != Polling
    ensures th.truck.isInDataQueue ==>
      && r.phase == th.phase && r.truck.isInDataQueue
      && 0 <= r.elapsedTime - th.elapsedTime <= 1
      && r.truck.currentTripQueueWait - th.truck.currentTripQueueWait == r.elapsedTime - th.elapsedTime
    ensures 0 <= th.position < |queue| && queue[th.position] == th.truck.id && th.truck.isInDataQueue ==> r == th
  {
    if !th.truck.isInDataQueue then
      EndIteration(th)
    else if HandoffQueue.DidStationProcessTruck(queue, th.truck.id, th.position) then
      th.(truck := th.truck.(currentTripQueueWait := th.truck.currentTripQueueWait + 1),
          elapsedTime := th.elapsedTime + 1)
    else
      th
  }

  /** The station's update of its own totals for one served truck. */
  function ServeStation(st: StationData, t: TruckData): (r: StationData)
    ensures r.id == st.id
    ensures r.totalTrucksUnloaded - st.totalTrucksUnloaded == 1
    ensures r.totalHeliumReceived - st.totalHeliumReceived == t.currentMinedHelium
  {
    st.(totalTrucksUnloaded := st.totalTrucksUnloaded + 1,
        totalHeliumReceived := st.totalHeliumReceived + t.currentMinedHelium)
  }

  /** The station's update of the served truck's fields. */
  function ServeTruck(t: TruckData): (r: TruckData)
    ensures !r.isInDataQueue && r.currentTripQueueWait == 0
    ensures r.totalUnloadedTrips == t.totalUnloadedTrips + 1
    ensures r.totalQueueWait == t.totalQueueWait + t.currentTripQueueWait
    ensures r.id == t.id && r.currentState == t.currentState
    ensures r.totalMinedHelium == t.totalMinedHelium && r.miningDurations == t.miningDurations
  {
    t.(totalUnloadedTrips := t.totalUnloadedTrips + 1,
       totalQueueWait := t.totalQueueWait + t.currentTripQueueWait,
       currentTripQueueWait := 0,
       isInDataQueue := false)
  }

  predicate AllTrucksDone(w: World) {
    forall i :: 0 <= i < |w.threads| ==> w.threads[i].phase == Done
  }

  /** When an action may happen. */
  predicate Enabled(w: World, a: Action)
    ensures Enabled(w, a) && (a.TruckStep? || a.TruckEnqueue? || a.TruckPoll?) ==>
      0 <= a.truck < |w.threads| && w.threads[a.truck].phase != Done
    ensures Enabled(w, a) && (a.StationServe? || a.StationExit?) ==>
      0 <= a.station < |w.stationThreads| && !w.stationThreads[a.station].exited
    ensures Enabled(w, a) && a.FinishTrucks? ==> !w.finished
  {
    match a
    case TruckStep(i, d) =>
      0 <= i < |w.threads| && w.threads[i].phase == Running && Site.IsMiningDuration(d)
    case TruckEnqueue(i) =>
      0 <= i < |w.threads| && w.threads[i].phase == Enqueueing
    case TruckPoll(i) =>
      0 <= i < |w.threads| && w.threads[i].phase == Polling
    case StationServe(s) =>
      0 <= s < |w.stationThreads| && !w.stationThreads[s].exited
      && |w.dataVector| > 0 && 0 <= w.dataVector[0] < |w.threads|
    case StationExit(s) =>
      // the exit test of simulateStation: finished and nothing left to serve
      0 <= s < |w.stationThreads| && !w.stationThreads[s].exited
      && w.finished && |w.dataVector| == 0
    case FinishTrucks =>
      // startSimulator sets `finished` once every truck thread has been joined
      !w.finished && AllTrucksDone(w)
  }

  /** The effect of an enabled action. */
  function Apply(w: World, a: Action): (r: World)
    requires Enabled(w, a)
    ensures |r.threads| == |w.threads| && |r.stationThreads| == |w.stationThreads|
    ensures w.finished ==> r.finished
    ensures a.TruckEnqueue? ==> r.dataVector == w.dataVector + [w.threads[a.truck].truck.id]
    ensures a.StationServe? ==> r.dataVector == w.dataVector[1..]
    ensures !a.TruckEnqueue? && !a.StationServe? ==> r.dataVector == w.dataVector
  {
    match a
    case TruckStep(i, d) =>
      w.(threads := w.threads[i := StepThread(w.threads[i], d)])
    case TruckEnqueue(i) =>
      var th := w.threads[i];
      var (queue, position) := HandoffQueue.Push(w.dataVector, th.truck.id);
      var th' := th.(truck := th.truck.(isInDataQueue := true), position := position, phase := Polling);
      w.(threads := w.threads[i := th'], dataVector := queue)
    case TruckPoll(i) =>
      w.(threads := w.threads[i := PollThread(w.threads[i], w.dataVector)])
    case StationServe(s) =>
      var (j, rest) := HandoffQueue.PopFront(w.dataVector);
      var t := w.threads[j].truck;
      var st := w.stationThreads[s].station;
      w.(dataVector := rest,
         stationThreads := w.stationThreads[s := StationThread(ServeStation(st, t), false)],
         threads := w.threads[j := w.threads[j].(truck := ServeTruck(t))])
    case StationExit(s) =>
      w.(stationThreads := w.stationThreads[s := w.stationThreads[s].(exited := true)])
    case FinishTrucks =>
      w.(finished := true)
  }

  /** The world after a sequence of actions, or None if one of them is not enabled. */
  function Run(w: World, actions: seq<Action>): (r: Option<World>)
    ensures r.Some? ==> |r.value.threads| == |w.threads| && |r.value.stationThreads| == |w.stationThreads|
    ensures r.Some? && w.finished ==> r.value.finished
    decreases |actions|
  {
    if actions == [] then Some(w)
    else if !Enabled(w, actions[0]) then None
    else Run(Apply(w, actions[0]), actions[1..])
  }

  /**
   * The world right after `startSimulator` has created every thread: truck i
   * and station s exist with their initial fields, and the simulator has
   * recorded a copy of each.
   */
  function Init(numTrucks: nat, numStations: nat): (r: World)
    ensures |r.threads| == numTrucks && |r.stationThreads| == numStations
    ensures r.dataVector == [] && !r.finished
    ensures forall i :: 0 <= i < numTrucks ==>
      r.threads[i].truck == NewTruck(i) && r.threads[i].phase == Running && r.threads[i].elapsedTime == 0
    ensures forall s :: 0 <= s < numStations ==> r.stationThreads[s] == StationThread(NewStation(s), false)
  {
    World(
      seq(numTrucks, i => TruckThread(NewTruck(i), 0, 0, 0, Running)),
      seq(numStations, s => StationThread(NewStation(s), false)),
      [],
      false,
      seq(numTrucks, i => NewTruck(i)),
      seq(numStations, s => NewStation(s)))
  }
}
