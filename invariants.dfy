/**
 * What stays true along every run of the transition system: each truck's
 * ledger and clock, the shape of the hand-off queue, and the conservation of
 * helium and unload counts between trucks and stations.
 */
module Invariants {
  import opened Sums
  import opened Trucks
  import opened Stations
  import opened Limits
  import Site
  import HandoffQueue
  import opened Transitions

  /**
   * How many times the truck has run the UNLOADING arm of the switch: its
   * served unloads, plus one while its last load waits to be pushed or served.
   */
  function Trips(th: TruckThread): int {
    th.truck.totalUnloadedTrips + (if th.truck.isInDataQueue || th.phase == Enqueueing then 1 else 0)
  }

  /** States in which the current trip's helium is mined but not yet added to the truck's total. */
  predicate AwaitingCredit(s: State) {
    s == TravelToUnloadStation || s == Unloading
  }

  /** How far past mining time plus 65 minutes per trip the clock is, at least, in each state. */
  function StateOffset(s: State): int {
    match s
    case Mining => 0
    case TravelToUnloadStation => 0
    case Unloading => kTruckTravelTimeMins
    case TravelToMiningSite => -kTruckTravelTimeMins
  }

  /** The truck's accounting, which no interleaving can break. */
  ghost predicate Ledger(th: TruckThread) {
    var t := th.truck;
    var n := Trips(th);
    var durations := t.miningDurations;
    && t.totalUnloadedTrips >= 0
    && AllMiningDurations(durations)
    && t.totalMiningTime == Sum(durations)
    && t.currentMinedHelium == t.currentMiningTime * kHeliumMiningRatePerMin
    && (if durations == [] then t.currentMiningTime == 0 else t.currentMiningTime == durations[|durations| - 1])
    && |durations| == n + (if AwaitingCredit(t.currentState) then 1 else 0)
    && t.totalMinedHelium == Sum(durations[..n])
    // the last UNLOADING arm ran before the horizon, and it cannot have run
    // earlier than all mining so far plus 30 minutes per trip and 35 per earlier trip
    && (n >= 1 ==> t.totalMinedHelium + 65 * n - 35 < kMaxMiningDurationMins)
    && t.currentTripQueueWait >= 0 && t.totalQueueWait >= 0
    && (!t.isInDataQueue ==> t.currentTripQueueWait == 0)
  }

  /** The truck's clock: a lower bound in each phase, and the horizon. */
  ghost predicate Timing(th: TruckThread) {
    var t := th.truck;
    var least := t.totalMiningTime + 65 * Trips(th);
    match th.phase
    case Running =>
      && th.elapsedTime < kMaxMiningDurationMins && !t.isInDataQueue
      && (t.currentState == TravelToMiningSite ==> Trips(th) >= 1)
      && th.elapsedTime >= least + StateOffset(t.currentState)
    case Enqueueing =>
      && th.elapsedTime < kMaxMiningDurationMins && !t.isInDataQueue
      && t.currentState == TravelToMiningSite && th.sleepTime == kUnloadTimeMins
      && th.elapsedTime >= least - 35
    case Polling =>
      && Trips(th) >= 1 && t.currentState == TravelToMiningSite && th.sleepTime == kUnloadTimeMins
      && th.elapsedTime >= least - 35
    case Done =>
      th.elapsedTime == kMaxMiningDurationMins && !t.isInDataQueue
  }

  ghost predicate ThreadInv(th: TruckThread) {
    Ledger(th) && Timing(th)
  }

  /** Helium counted in the truck's total but not yet in any station's. */
  function Pending(th: TruckThread): int {
    if th.truck.isInDataQueue || th.phase == Enqueueing then th.truck.currentMinedHelium else 0
  }

  function Mined(th: TruckThread): int { th.truck.totalMinedHelium }
  function Unloads(th: TruckThread): int { th.truck.totalUnloadedTrips }
  function Received(st: StationThread): int { st.station.totalHeliumReceived }
  function Served(st: StationThread): int { st.station.totalTrucksUnloaded }

  /** The postcondition every truck step satisfies. */
  ghost predicate StepKept(th: TruckThread, th': TruckThread) {
    && ThreadInv(th')
    && th'.truck.id == th.truck.id
    && !th'.truck.isInDataQueue && th'.phase != Polling
    && Unloads(th') == Unloads(th)
    && Mined(th') - Pending(th') == Mined(th) - Pending(th)
  }

  /** The thread right after the MINING arm, before the end of the iteration. */
  function AfterMining(th: TruckThread, d: int): TruckThread {
    var t := th.truck;
    th.(truck := t.(currentMiningTime := d, currentMinedHelium := d * kHeliumMiningRatePerMin,
                    totalMiningTime := d + t.totalMiningTime, miningDurations := t.miningDurations + [d],
                    currentState := TravelToUnloadStation),
        sleepTime := d)
  }

  /** A step from the MINING state runs the MINING arm and ends the iteration. */
  lemma StepFromMining(th: TruckThread, d: int)
    requires th.truck.currentState == Mining
    ensures StepThread(th, d) == EndIteration(AfterMining(th, d))
  {
    assert MachineStep(th.truck, d) == (AfterMining(th, d).truck, d);
  }

  /** The MINING arm records one more duration and keeps the ledger. */
  lemma {:induction false} MiningLedger(th: TruckThread, d: int)
    requires ThreadInv(th) && th.phase == Running && Site.IsMiningDuration(d)
    requires th.truck.currentState == Mining
    ensures Ledger(AfterMining(th, d)) && Trips(AfterMining(th, d)) == Trips(th)
  {
    var n := Trips(th);
    var durations := th.truck.miningDurations;
    var durations' := durations + [d];
    assert |durations| == n;
    SumAppend(durations, d);
    assert durations'[..n] == durations[..n] by { assert durations[..n] == durations; }
    assert AllMiningDurations(durations') by {
      forall k | 0 <= k < |durations'| ensures Site.IsMiningDuration(durations'[k]) {
        if k < |durations| { assert durations'[k] == durations[k]; }
      }
    }
  }

  /** Ending an iteration from a running thread whose sleep keeps its clock bound keeps the invariant. */
  lemma EndIterationKeeps(mid: TruckThread)
    requires Ledger(mid) && mid.phase == Running && !mid.truck.isInDataQueue
    requires mid.elapsedTime < kMaxMiningDurationMins
    requires mid.truck.currentState == TravelToMiningSite ==> Trips(mid) >= 1
    requires mid.elapsedTime + mid.sleepTime
             >= mid.truck.totalMiningTime + 65 * Trips(mid) + StateOffset(mid.truck.currentState)
    ensures ThreadInv(EndIteration(mid)) && EndIteration(mid).phase != Polling
    ensures EndIteration(mid).truck == mid.truck
  {
    assert Trips(EndIteration(mid)) == Trips(mid);
  }

  lemma {:induction false} StepMiningPreserves(th: TruckThread, d: int)
    requires ThreadInv(th) && th.phase == Running && Site.IsMiningDuration(d)
    requires th.truck.currentState == Mining
    ensures StepKept(th, StepThread(th, d))
  {
    var mid := AfterMining(th, d);
    StepFromMining(th, d);
    MiningLedger(th, d);
    assert mid.elapsedTime + mid.sleepTime
           >= mid.truck.totalMiningTime + 65 * Trips(mid) + StateOffset(mid.truck.currentState);
    EndIterationKeeps(mid);
    var th' := EndIteration(mid);
    assert Pending(th') == 0 && Pending(th) == 0;
    assert Mined(th') == Mined(th) && Unloads(th') == Unloads(th);
  }

  lemma {:induction false} StepTravelToUnloadPreserves(th: TruckThread, d: int)
    requires ThreadInv(th) && th.phase == Running
    requires th.truck.currentState == TravelToUnloadStation
    ensures StepKept(th, StepThread(th, d))
  {
    var (t', sleep) := MachineStep(th.truck, d);
    var mid := th.(truck := t', sleepTime := sleep);
    assert Trips(mid) == Trips(th) && Ledger(mid);
  }

  /** The thread right after the UNLOADING arm, on its way to the push. */
  function AfterUnloading(th: TruckThread): TruckThread {
    var t := th.truck;
    th.(truck := t.(totalMinedHelium := t.totalMinedHelium + t.currentMinedHelium,
                    currentState := TravelToMiningSite),
        sleepTime := kUnloadTimeMins, phase := Enqueueing)
  }

  /** The UNLOADING arm credits the last recorded duration and keeps the ledger. */
  lemma {:induction false} UnloadingLedger(th: TruckThread)
    requires ThreadInv(th) && th.phase == Running
    requires th.truck.currentState == Unloading
    ensures Ledger(AfterUnloading(th)) && Trips(AfterUnloading(th)) == Trips(th) + 1
  {
    var t := th.truck;
    var n := Trips(th);
    var durations := t.miningDurations;
    assert |durations| == n + 1;
    assert durations[..n + 1] == durations;
    assert durations[..n + 1] == durations[..n] + [durations[n]];
    SumAppend(durations[..n], durations[n]);
  }

  lemma {:induction false} StepUnloadingPreserves(th: TruckThread, d: int)
    requires ThreadInv(th) && th.phase == Running
    requires th.truck.currentState == Unloading
    ensures StepKept(th, StepThread(th, d))
  {
    assert StepThread(th, d) == AfterUnloading(th);
    UnloadingLedger(th);
  }

  lemma {:induction false} StepTravelToMiningPreserves(th: TruckThread, d: int)
    requires ThreadInv(th) && th.phase == Running
    requires th.truck.currentState == TravelToMiningSite
    ensures StepKept(th, StepThread(th, d))
  {
    var (t', sleep) := MachineStep(th.truck, d);
    var mid := th.(truck := t', sleepTime := sleep);
    assert Trips(mid) == Trips(th) && Ledger(mid);
  }

  /** A truck step keeps the thread invariant and moves helium from "mined" to "pending" in step. */
  lemma StepThreadPreserves(th: TruckThread, d: int)
    requires ThreadInv(th) && th.phase == Running && Site.IsMiningDuration(d)
    ensures StepKept(th, StepThread(th, d))
  {
    match th.truck.currentState
    case Mining => StepMiningPreserves(th, d);
    case TravelToUnloadStation => StepTravelToUnloadPreserves(th, d);
    case Unloading => StepUnloadingPreserves(th, d);
    case TravelToMiningSite => StepTravelToMiningPreserves(th, d);
  }

  /** One pass of the poll loop keeps the thread invariant and every total. */
  lemma PollThreadPreserves(th: TruckThread, queue: seq<int>)
    requires ThreadInv(th) && th.phase == Polling
    ensures var th' := PollThread(th, queue);
      && ThreadInv(th')
      && th'.truck.id == th.truck.id
      && th'.truck.isInDataQueue == th.truck.isInDataQueue
      && (th.truck.isInDataQueue ==> th'.phase == Polling && th'.position == th.position)
      && Unloads(th') == Unloads(th) && Mined(th') == Mined(th) && Pending(th') == Pending(th)
  {
    if !th.truck.isInDataQueue {
    }
  }

  /** The push keeps the thread invariant and every total; the truck is now waiting at `position`. */
  lemma EnqueueThreadPreserves(th: TruckThread, position: int)
    requires ThreadInv(th) && th.phase == Enqueueing
    ensures var th' := th.(truck := th.truck.(isInDataQueue := true), position := position, phase := Polling);
      && ThreadInv(th')
      && Unloads(th') == Unloads(th) && Mined(th') == Mined(th) && Pending(th') == Pending(th)
  {
  }

  /** Being served keeps the thread invariant: one more unload, and the pending helium is gone. */
  lemma ServeThreadPreserves(th: TruckThread)
    requires ThreadInv(th) && th.phase == Polling && th.truck.isInDataQueue
    ensures var th' := th.(truck := ServeTruck(th.truck));
      && ThreadInv(th')
      && Unloads(th') == Unloads(th) + 1 && Mined(th') == Mined(th)
      && Pending(th) == th.truck.currentMinedHelium && Pending(th') == 0
  {
  }

  /** The shape of the hand-off queue. */
  ghost predicate QueueInv(w: World) {
    var queue := w.dataVector;
    && HandoffQueue.Unique(queue)
    && (forall k :: 0 <= k < |queue| ==> 0 <= queue[k] < |w.threads|)
    // a queued truck is polling, and has only moved forward from where it was pushed
    && (forall k :: 0 <= k < |queue| ==>
          w.threads[queue[k]].phase == Polling && k <= w.threads[queue[k]].position)
    && (forall i :: 0 <= i < |w.threads| ==> (w.threads[i].truck.isInDataQueue <==> i in queue))
  }

  /**
   * Helium and unloads are conserved: what the stations received plus what
   * is still pending is what the trucks count as mined, and the stations'
   * unload counts add up to the trucks'.
   */
  ghost predicate Conservation(w: World) {
    && SumOf(w.stationThreads, Received) + SumOf(w.threads, Pending) == SumOf(w.threads, Mined)
    && SumOf(w.stationThreads, Served) == SumOf(w.threads, Unloads)
  }

  ghost predicate Inv(w: World) {
    && (forall i :: 0 <= i < |w.threads| ==> w.threads[i].truck.id == i && ThreadInv(w.threads[i]))
    && QueueInv(w)
    && Conservation(w)
    && (w.finished ==> AllTrucksDone(w))
    && (forall s :: 0 <= s < |w.stationThreads| && w.stationThreads[s].exited ==> w.finished)
  }

  /** The sums after one thread has been replaced. */
  lemma ReplaceThreadSums(threads: seq<TruckThread>, i: int, th': TruckThread)
    requires 0 <= i < |threads|
    ensures SumOf(threads[i := th'], Pending) == SumOf(threads, Pending) - Pending(threads[i]) + Pending(th')
    ensures SumOf(threads[i := th'], Mined) == SumOf(threads, Mined) - Mined(threads[i]) + Mined(th')
    ensures SumOf(threads[i := th'], Unloads) == SumOf(threads, Unloads) - Unloads(threads[i]) + Unloads(th')
  {
    SumOfUpdate(threads, Pending, i, th');
    SumOfUpdate(threads, Mined, i, th');
    SumOfUpdate(threads, Unloads, i, th');
  }

  lemma ReplaceStationSums(stations: seq<StationThread>, s: int, st': StationThread)
    requires 0 <= s < |stations|
    ensures SumOf(stations[s := st'], Received) == SumOf(stations, Received) - Received(stations[s]) + Received(st')
    ensures SumOf(stations[s := st'], Served) == SumOf(stations, Served) - Served(stations[s]) + Served(st')
  {
    SumOfUpdate(stations, Received, s, st');
    SumOfUpdate(stations, Served, s, st');
  }

  /** A truck that is not queued sits at no index of the queue. */
  lemma NotQueued(w: World, i: int)
    requires QueueInv(w) && 0 <= i < |w.threads| && !w.threads[i].truck.isInDataQueue
    ensures forall k :: 0 <= k < |w.dataVector| ==> w.dataVector[k] != i
  {
  }

  lemma TruckStepPreservesInv(w: World, i: int, d: int)
    requires Inv(w) && Enabled(w, TruckStep(i, d))
    ensures Inv(Apply(w, TruckStep(i, d)))
  {
    var th' := StepThread(w.threads[i], d);
    StepThreadPreserves(w.threads[i], d);
    NotQueued(w, i);
    ReplaceThreadSums(w.threads, i, th');
    var w' := Apply(w, TruckStep(i, d));
    assert w'.threads == w.threads[i := th'];
    assert QueueInv(w');
  }

  /** The world right after the push of thread i. */
  function Enqueued(w: World, i: int): World
    requires 0 <= i < |w.threads|
  {
    var th := w.threads[i];
    w.(threads := w.threads[i := th.(truck := th.truck.(isInDataQueue := true),
                                     position := |w.dataVector|, phase := Polling)],
       dataVector := w.dataVector + [i])
  }

  /** The push step of the model is `Enqueued` when thread i owns truck i. */
  lemma ApplyEnqueue(w: World, i: int)
    requires Enabled(w, TruckEnqueue(i)) && w.threads[i].truck.id == i
    ensures Apply(w, TruckEnqueue(i)) == Enqueued(w, i)
  {
    var (queue, position) := HandoffQueue.Push(w.dataVector, i);
    assert queue == w.dataVector + [i] && position == |w.dataVector|;
  }

  lemma EnqueueQueueInv(w: World, i: int)
    requires Inv(w) && Enabled(w, TruckEnqueue(i))
    ensures QueueInv(Enqueued(w, i))
  {
    var queue := w.dataVector;
    var w' := Enqueued(w, i);
    NotQueued(w, i);
    assert HandoffQueue.Unique(w'.dataVector);
    forall k | 0 <= k < |w'.dataVector|
      ensures w'.threads[w'.dataVector[k]].phase == Polling
      ensures k <= w'.threads[w'.dataVector[k]].position
    {
      if k < |queue| { assert w'.dataVector[k] == queue[k]; }
    }
    forall j | 0 <= j < |w'.threads|
      ensures w'.threads[j].truck.isInDataQueue <==> j in w'.dataVector
    {
      if j != i {
        assert j in w'.dataVector <==> j in queue;
      }
    }
  }

  lemma TruckEnqueuePreservesInv(w: World, i: int)
    requires Inv(w) && Enabled(w, TruckEnqueue(i))
    ensures Inv(Apply(w, TruckEnqueue(i)))
  {
    var th := w.threads[i];
    var w' := Enqueued(w, i);
    var th' := w'.threads[i];
    ApplyEnqueue(w, i);
    EnqueueThreadPreserves(th, |w.dataVector|);
    ReplaceThreadSums(w.threads, i, th');
    EnqueueQueueInv(w, i);
    assert forall j :: 0 <= j < |w'.threads| ==> w'.threads[j].truck.id == j && ThreadInv(w'.threads[j]);
    assert Conservation(w');
  }

  lemma PollQueueInv(w: World, i: int)
    requires Inv(w) && Enabled(w, TruckPoll(i))
    ensures QueueInv(w.(threads := w.threads[i := PollThread(w.threads[i], w.dataVector)]))
  {
    PollThreadPreserves(w.threads[i], w.dataVector);
    if !w.threads[i].truck.isInDataQueue {
      NotQueued(w, i);
    }
  }

  lemma TruckPollPreservesInv(w: World, i: int)
    requires Inv(w) && Enabled(w, TruckPoll(i))
    ensures Inv(Apply(w, TruckPoll(i)))
  {
    var th' := PollThread(w.threads[i], w.dataVector);
    PollThreadPreserves(w.threads[i], w.dataVector);
    ReplaceThreadSums(w.threads, i, th');
    PollQueueInv(w, i);
    var w' := Apply(w, TruckPoll(i));
    assert w' == w.(threads := w.threads[i := th']);
  }

  /** The world right after station s has served the front of the queue. */
  function ServedFront(w: World, s: int): World
    requires 0 <= s < |w.stationThreads| && |w.dataVector| > 0 && 0 <= w.dataVector[0] < |w.threads|
  {
    var j := w.dataVector[0];
    var t := w.threads[j].truck;
    w.(dataVector := w.dataVector[1..],
       stationThreads := w.stationThreads[s := StationThread(ServeStation(w.stationThreads[s].station, t), false)],
       threads := w.threads[j := w.threads[j].(truck := ServeTruck(t))])
  }

  /** The serve step of the model is `ServedFront`. */
  lemma ApplyServe(w: World, s: int)
    requires Enabled(w, StationServe(s))
    ensures Apply(w, StationServe(s)) == ServedFront(w, s)
  {
    var (j, rest) := HandoffQueue.PopFront(w.dataVector);
    assert j == w.dataVector[0] && rest == w.dataVector[1..];
  }

  lemma ServeQueueInv(w: World, s: int)
    requires Inv(w) && Enabled(w, StationServe(s))
    ensures QueueInv(ServedFront(w, s))
  {
    var queue := w.dataVector;
    var j := queue[0];
    var w' := ServedFront(w, s);
    forall k | 0 <= k < |w'.dataVector|
      ensures w'.dataVector[k] != j
      ensures w'.threads[w'.dataVector[k]].phase == Polling
      ensures k <= w'.threads[w'.dataVector[k]].position
    {
      assert w'.dataVector[k] == queue[k + 1];
    }
    forall i | 0 <= i < |w'.threads|
      ensures w'.threads[i].truck.isInDataQueue <==> i in w'.dataVector
    {
      if i != j {
        assert i in queue <==> i in w'.dataVector by {
          if i in queue {
            var k :| 0 <= k < |queue| && queue[k] == i;
            assert k != 0 && w'.dataVector[k - 1] == i;
          }
        }
      }
    }
  }

  lemma ServeConservation(w: World, s: int)
    requires Inv(w) && Enabled(w, StationServe(s))
    ensures Conservation(ServedFront(w, s))
    ensures forall i :: 0 <= i < |w.threads| ==>
      ServedFront(w, s).threads[i].truck.id == i && ThreadInv(ServedFront(w, s).threads[i])
  {
    var j := w.dataVector[0];
    var th := w.threads[j];
    var w' := ServedFront(w, s);
    assert th.phase == Polling && th.truck.isInDataQueue;
    ServeThreadPreserves(th);
    ReplaceThreadSums(w.threads, j, w'.threads[j]);
    ReplaceStationSums(w.stationThreads, s, w'.stationThreads[s]);
  }

  lemma StationServePreservesInv(w: World, s: int)
    requires Inv(w) && Enabled(w, StationServe(s))
    ensures Inv(Apply(w, StationServe(s)))
  {
    ApplyServe(w, s);
    ServeQueueInv(w, s);
    ServeConservation(w, s);
  }

  lemma StationExitPreservesInv(w: World, s: int)
    requires Inv(w) && Enabled(w, StationExit(s))
    ensures Inv(Apply(w, StationExit(s)))
  {
    ReplaceStationSums(w.stationThreads, s, w.stationThreads[s].(exited := true));
  }

  /** Every enabled action keeps the invariant. */
  lemma ApplyPreservesInv(w: World, a: Action)
    requires Inv(w) && Enabled(w, a)
    ensures Inv(Apply(w, a))
  {
    match a
    case TruckStep(i, d) => TruckStepPreservesInv(w, i, d);
    case TruckEnqueue(i) => TruckEnqueuePreservesInv(w, i);
    case TruckPoll(i) => TruckPollPreservesInv(w, i);
    case StationServe(s) => StationServePreservesInv(w, s);
    case StationExit(s) => StationExitPreservesInv(w, s);
    case FinishTrucks =>
  }
}
