/**
 * Two defects of the source, each shown on a concrete run and each paired
 * with the corrected definition and its proof.
 *
 * 1. `addTruck` / `addStation` store a copy of the truck or station taken
 *    when its thread starts, so `getTrucks` / `getStations` report the
 *    initial all-zero counters and the balance the unit test checks compares
 *    zero with zero. Corrected: report the live trucks and stations, whose
 *    totals balance once the trucks are finished.
 * 2. `calculateMaximumHeliumPossible(4320)` is 3570, yet a truck can mine
 *    3574: eleven 300-minute trips and one of 274 minutes, with no queue
 *    wait, run the twelfth UNLOADING arm at minute 4319. Corrected: the tight
 *    bound max over n of min(300n, t + 34 - 65n), which is 3574 at 4320.
 */
module Findings {
  import opened Sums
  import opened Trucks
  import opened Stations
  import opened Limits
  import Site
  import opened Transitions
  import opened Invariants
  import Properties

  // ---------------------------------------------------------------------
  // Runs compose
  // ---------------------------------------------------------------------

  lemma {:induction false} RunAppend(w: World, a: seq<Action>, b: seq<Action>)
    ensures Run(w, a + b) == if Run(w, a).Some? then Run(Run(w, a).value, b) else None
    decreases |a|
  {
    if a == [] {
      assert a + b == b;
    } else {
      assert (a + b)[0] == a[0];
      assert (a + b)[1..] == a[1..] + b;
      if Enabled(w, a[0]) {
        RunAppend(Apply(w, a[0]), a[1..], b);
      }
    }
  }

  // ---------------------------------------------------------------------
  // One truck, one station: the run that shows both defects
  // ---------------------------------------------------------------------

  /** Truck 0 back at the mine after k trips of 300 minutes each. */
  function CycleTruck(k: nat): TruckData {
    var last := if k == 0 then 0 else 300;
    TruckData(0, Mining, last, last, 0, 300 * k, 300 * k, k, 0, false, seq(k, j => 300))
  }

  /** The world after k such trips, each served at once by station 0. */
  function CycleWorld(k: nat): World {
    World([TruckThread(CycleTruck(k), 365 * k, if k == 0 then 0 else 30, 0, Running)],
          [StationThread(StationData(0, 300 * k, k), false)],
          [], false, [NewTruck(0)], [NewStation(0)])
  }

  /** One whole trip of truck 0 with mining time d: mine, travel, unload, be served, travel back. */
  function Cycle(d: int): seq<Action> {
    [TruckStep(0, d), TruckStep(0, d), TruckStep(0, d), TruckEnqueue(0), StationServe(0),
     TruckPoll(0), TruckStep(0, d)]
  }

  function Cycles(k: nat): seq<Action> {
    if k == 0 then [] else Cycles(k - 1) + Cycle(300)
  }

  /** The twelfth trip, 274 minutes of mining, then the end of the simulation. */
  function LastLeg(): seq<Action> {
    [TruckStep(0, 274), TruckStep(0, 274), TruckStep(0, 274), TruckEnqueue(0), StationServe(0),
     TruckPoll(0), FinishTrucks, StationExit(0)]
  }

  function Showcase(): seq<Action> {
    Cycles(11) + LastLeg()
  }

  /** The world at the end of the showcase run. */
  function FinalWorld(): World {
    var truck := TruckData(0, TravelToMiningSite, 274, 274, 0, 3574, 3574, 12, 0, false,
                           seq(11, j => 300) + [274]);
    World([TruckThread(truck, kMaxMiningDurationMins, 1, 0, Done)],
          [StationThread(StationData(0, 3574, 12), true)],
          [], true, [NewTruck(0)], [NewStation(0)])
  }

  /** Truck 0 of the k-th trip after its MINING arm. */
  function MinedTruck(k: nat): TruckData {
    CycleTruck(k).(currentMiningTime := 300, currentMinedHelium := 300, totalMiningTime := 300 * k + 300,
                   miningDurations := CycleTruck(k + 1).miningDurations, currentState := TravelToUnloadStation)
  }

  /** Truck 0 of the k-th trip after its UNLOADING arm. */
  function UnloadedTruck(k: nat): TruckData {
    MinedTruck(k).(totalMinedHelium := 300 * k + 300, currentState := TravelToMiningSite)
  }

  /** The world of the k-th trip with truck 0's thread replaced. */
  function CycleWith(k: nat, th: TruckThread): World {
    CycleWorld(k).(threads := [th])
  }

  /** The world of the k-th trip once station 0 has served truck 0. */
  function ServedWorld(k: nat, th: TruckThread): World {
    CycleWorld(k).(threads := [th], stationThreads := [StationThread(StationData(0, 300 * k + 300, k + 1), false)])
  }

  lemma CycleMine(k: nat)
    requires k <= 10
    ensures Enabled(CycleWorld(k), TruckStep(0, 300))
    ensures Apply(CycleWorld(k), TruckStep(0, 300))
            == CycleWith(k, TruckThread(MinedTruck(k), 365 * k + 300, 300, 0, Running))
  {
    assert CycleTruck(k).miningDurations + [300] == CycleTruck(k + 1).miningDurations;
  }

  lemma CycleTravel(k: nat)
    requires k <= 10
    ensures Enabled(CycleWith(k, TruckThread(MinedTruck(k), 365 * k + 300, 300, 0, Running)), TruckStep(0, 300))
    ensures Apply(CycleWith(k, TruckThread(MinedTruck(k), 365 * k + 300, 300, 0, Running)), TruckStep(0, 300))
            == CycleWith(k, TruckThread(MinedTruck(k).(currentState := Unloading), 365 * k + 330, 30, 0, Running))
  {
  }

  lemma CycleUnload(k: nat)
    ensures Enabled(CycleWith(k, TruckThread(MinedTruck(k).(currentState := Unloading), 365 * k + 330, 30, 0, Running)),
                    TruckStep(0, 300))
    ensures Apply(CycleWith(k, TruckThread(MinedTruck(k).(currentState := Unloading), 365 * k + 330, 30, 0, Running)),
                  TruckStep(0, 300))
            == CycleWith(k, TruckThread(UnloadedTruck(k), 365 * k + 330, 5, 0, Enqueueing))
  {
  }

  lemma CycleEnqueue(k: nat)
    ensures Enabled(CycleWith(k, TruckThread(UnloadedTruck(k), 365 * k + 330, 5, 0, Enqueueing)), TruckEnqueue(0))
    ensures Apply(CycleWith(k, TruckThread(UnloadedTruck(k), 365 * k + 330, 5, 0, Enqueueing)), TruckEnqueue(0))
            == CycleWith(k, TruckThread(UnloadedTruck(k).(isInDataQueue := true), 365 * k + 330, 5, 0, Polling))
               .(dataVector := [0])
  {
  }

  lemma CycleServe(k: nat)
    ensures Enabled(CycleWith(k, TruckThread(UnloadedTruck(k).(isInDataQueue := true), 365 * k + 330, 5, 0, Polling))
                    .(dataVector := [0]), StationServe(0))
    ensures Apply(CycleWith(k, TruckThread(UnloadedTruck(k).(isInDataQueue := true), 365 * k + 330, 5, 0, Polling))
                  .(dataVector := [0]), StationServe(0))
            == ServedWorld(k, TruckThread(UnloadedTruck(k).(totalUnloadedTrips := k + 1), 365 * k + 330, 5, 0, Polling))
  {
    ApplyServe(CycleWith(k, TruckThread(UnloadedTruck(k).(isInDataQueue := true), 365 * k + 330, 5, 0, Polling))
               .(dataVector := [0]), 0);
  }

  lemma CyclePoll(k: nat)
    requires k <= 10
    ensures Enabled(ServedWorld(k, TruckThread(UnloadedTruck(k).(totalUnloadedTrips := k + 1), 365 * k + 330, 5, 0, Polling)),
                    TruckPoll(0))
    ensures Apply(ServedWorld(k, TruckThread(UnloadedTruck(k).(totalUnloadedTrips := k + 1), 365 * k + 330, 5, 0, Polling)),
                  TruckPoll(0))
            == ServedWorld(k, TruckThread(UnloadedTruck(k).(totalUnloadedTrips := k + 1), 365 * k + 335, 5, 0, Running))
  {
  }

  lemma CycleReturn(k: nat)
    requires k <= 10
    ensures Enabled(ServedWorld(k, TruckThread(UnloadedTruck(k).(totalUnloadedTrips := k + 1), 365 * k + 335, 5, 0, Running)),
                    TruckStep(0, 300))
    ensures Apply(ServedWorld(k, TruckThread(UnloadedTruck(k).(totalUnloadedTrips := k + 1), 365 * k + 335, 5, 0, Running)),
                  TruckStep(0, 300))
            == CycleWorld(k + 1)
  {
  }

  /** From the push of trip k to the start of trip k + 1. */
  lemma CycleTail(k: nat, c: seq<Action>)
    requires k <= 10
    requires c == [TruckEnqueue(0), StationServe(0), TruckPoll(0), TruckStep(0, 300)]
    ensures Run(CycleWith(k, TruckThread(UnloadedTruck(k), 365 * k + 330, 5, 0, Enqueueing)), c)
            == Some(CycleWorld(k + 1))
  {
    var w3 := CycleWith(k, TruckThread(UnloadedTruck(k), 365 * k + 330, 5, 0, Enqueueing));
    var w4 := CycleWith(k, TruckThread(UnloadedTruck(k).(isInDataQueue := true), 365 * k + 330, 5, 0, Polling))
              .(dataVector := [0]);
    var w5 := ServedWorld(k, TruckThread(UnloadedTruck(k).(totalUnloadedTrips := k + 1), 365 * k + 330, 5, 0, Polling));
    var w6 := ServedWorld(k, TruckThread(UnloadedTruck(k).(totalUnloadedTrips := k + 1), 365 * k + 335, 5, 0, Running));
    CycleEnqueue(k);
    CycleServe(k);
    CyclePoll(k);
    CycleReturn(k);
    assert Run(w6, c[3..]) == Some(CycleWorld(k + 1)) by { assert c[3..][1..] == []; }
    assert Run(w5, c[2..]) == Run(w6, c[3..]) by { assert c[2..][1..] == c[3..]; }
    assert Run(w4, c[1..]) == Run(w5, c[2..]) by { assert c[1..][1..] == c[2..]; }
  }

  /** Trip k, whose seven actions are given as the list c, leads to the world of trip k + 1. */
  lemma OneCycle(k: nat, c: seq<Action>)
    requires k <= 10 && c == Cycle(300)
    ensures Run(CycleWorld(k), c) == Some(CycleWorld(k + 1))
  {
    var w1 := CycleWith(k, TruckThread(MinedTruck(k), 365 * k + 300, 300, 0, Running));
    var w2 := CycleWith(k, TruckThread(MinedTruck(k).(currentState := Unloading), 365 * k + 330, 30, 0, Running));
    var w3 := CycleWith(k, TruckThread(UnloadedTruck(k), 365 * k + 330, 5, 0, Enqueueing));
    CycleMine(k);
    CycleTravel(k);
    CycleUnload(k);
    CycleTail(k, c[3..]);
    assert Run(w2, c[2..]) == Run(w3, c[3..]) by { assert c[2..][1..] == c[3..]; }
    assert Run(w1, c[1..]) == Run(w2, c[2..]) by { assert c[1..][1..] == c[2..]; }
  }

  /** The initial world of one truck and one station is the world before the first trip. */
  lemma InitIsFirstCycle()
    ensures Init(1, 1) == CycleWorld(0)
  {
    assert seq(0, j => 300) == [];
    assert CycleTruck(0) == NewTruck(0);
    assert Init(1, 1).threads == CycleWorld(0).threads;
    assert Init(1, 1).stationThreads == CycleWorld(0).stationThreads;
    assert Init(1, 1).trucks == CycleWorld(0).trucks;
    assert Init(1, 1).stations == CycleWorld(0).stations;
  }

  /** Trip j + 1, named k: its schedule and its world. */
  lemma NextCycle(j: nat, k: nat)
    requires k == j + 1
    ensures Cycles(k) == Cycles(j) + Cycle(300)
    ensures CycleWorld(j + 1) == CycleWorld(k)
  {
  }

  lemma {:induction false} CyclesReach(k: nat)
    requires k <= 11
    ensures Run(Init(1, 1), Cycles(k)) == Some(CycleWorld(k))
  {
    if k == 0 {
      InitIsFirstCycle();
    } else {
      var j := k - 1;
      CyclesReach(j);
      OneCycle(j, Cycle(300));
      NextCycle(j, k);
      RunAppend(Init(1, 1), Cycles(j), Cycle(300));
    }
  }

  /** Truck 0 on the last trip after its MINING arm. */
  function LastMinedTruck(): TruckData {
    CycleTruck(11).(currentMiningTime := 274, currentMinedHelium := 274, totalMiningTime := 3574,
                    miningDurations := seq(11, j => 300) + [274], currentState := TravelToUnloadStation)
  }

  /** Truck 0 on the last trip after its UNLOADING arm. */
  function LastUnloadedTruck(): TruckData {
    LastMinedTruck().(totalMinedHelium := 3574, currentState := TravelToMiningSite)
  }

  /** The world of the last trip after each of its first six actions. */
  function LegWorld(n: nat): World {
    var w := CycleWorld(11);
    var t5 := LastUnloadedTruck().(totalUnloadedTrips := 12);
    var served := [StationThread(StationData(0, 3574, 12), false)];
    if n == 1 then w.(threads := [TruckThread(LastMinedTruck(), 4289, 274, 0, Running)])
    else if n == 2 then w.(threads := [TruckThread(LastMinedTruck().(currentState := Unloading), 4319, 30, 0, Running)])
    else if n == 3 then w.(threads := [TruckThread(LastUnloadedTruck(), 4319, 5, 0, Enqueueing)])
    else if n == 4 then
      w.(threads := [TruckThread(LastUnloadedTruck().(isInDataQueue := true), 4319, 5, 0, Polling)], dataVector := [0])
    else if n == 5 then w.(threads := [TruckThread(t5, 4319, 5, 0, Polling)], stationThreads := served)
    else w.(threads := [TruckThread(t5, kMaxMiningDurationMins, 1, 0, Done)], stationThreads := served)
  }

  lemma LegMine()
    ensures Enabled(CycleWorld(11), TruckStep(0, 274))
    ensures Apply(CycleWorld(11), TruckStep(0, 274)) == LegWorld(1)
  {
    assert CycleTruck(11).miningDurations + [274] == seq(11, j => 300) + [274];
  }

  lemma LegTravel()
    ensures Enabled(LegWorld(1), TruckStep(0, 274)) && Apply(LegWorld(1), TruckStep(0, 274)) == LegWorld(2)
  {
  }

  lemma LegUnload()
    ensures Enabled(LegWorld(2), TruckStep(0, 274)) && Apply(LegWorld(2), TruckStep(0, 274)) == LegWorld(3)
  {
  }

  lemma LegEnqueue()
    ensures Enabled(LegWorld(3), TruckEnqueue(0)) && Apply(LegWorld(3), TruckEnqueue(0)) == LegWorld(4)
  {
  }

  lemma LegServe()
    ensures Enabled(LegWorld(4), StationServe(0)) && Apply(LegWorld(4), StationServe(0)) == LegWorld(5)
  {
    ApplyServe(LegWorld(4), 0);
  }

  lemma LegPoll()
    ensures Enabled(LegWorld(5), TruckPoll(0)) && Apply(LegWorld(5), TruckPoll(0)) == LegWorld(6)
  {
  }

  lemma LegFinish()
    ensures Enabled(LegWorld(6), FinishTrucks)
    ensures Enabled(Apply(LegWorld(6), FinishTrucks), StationExit(0))
    ensures Apply(Apply(LegWorld(6), FinishTrucks), StationExit(0)) == FinalWorld()
  {
  }

  /** From the push of the last trip to the end of the simulation. */
  lemma LastLegTail(c: seq<Action>)
    requires c == [TruckEnqueue(0), StationServe(0), TruckPoll(0), FinishTrucks, StationExit(0)]
    ensures Run(LegWorld(3), c) == Some(FinalWorld())
  {
    LegEnqueue();
    LegServe();
    LegPoll();
    LegFinish();
    var w7 := Apply(LegWorld(6), FinishTrucks);
    assert Run(w7, c[4..]) == Some(FinalWorld()) by { assert c[4..][1..] == []; }
    assert Run(LegWorld(6), c[3..]) == Run(w7, c[4..]) by { assert c[3..][1..] == c[4..]; }
    assert Run(LegWorld(5), c[2..]) == Run(LegWorld(6), c[3..]) by { assert c[2..][1..] == c[3..]; }
    assert Run(LegWorld(4), c[1..]) == Run(LegWorld(5), c[2..]) by { assert c[1..][1..] == c[2..]; }
  }

  lemma LastLegReach()
    ensures Run(CycleWorld(11), LastLeg()) == Some(FinalWorld())
  {
    LegMine();
    LegTravel();
    LegUnload();
    var c := LastLeg();
    LastLegTail(c[3..]);
    assert Run(LegWorld(2), c[2..]) == Run(LegWorld(3), c[3..]) by { assert c[2..][1..] == c[3..]; }
    assert Run(LegWorld(1), c[1..]) == Run(LegWorld(2), c[2..]) by { assert c[1..][1..] == c[2..]; }
  }

  lemma ShowcaseReach()
    ensures Run(Init(1, 1), Showcase()) == Some(FinalWorld())
  {
    CyclesReach(11);
    LastLegReach();
    RunAppend(Init(1, 1), Cycles(11), LastLeg());
  }

  // ---------------------------------------------------------------------
  // Finding 1: the recorded copies never change
  // ---------------------------------------------------------------------

  /** No step touches the simulator's recorded copies. */
  lemma {:induction false} RecordedCopiesNeverChange(w: World, actions: seq<Action>)
    ensures Run(w, actions).Some? ==>
      Run(w, actions).value.trucks == w.trucks && Run(w, actions).value.stations == w.stations
    decreases |actions|
  {
    if actions != [] && Enabled(w, actions[0]) {
      RecordedCopiesNeverChange(Apply(w, actions[0]), actions[1..]);
    }
  }

  /**
   * As written: after any run, `getTrucks` and `getStations` report trucks
   * and stations with every counter still zero.
   */
  lemma RecordedTotalsStayZero(numTrucks: nat, numStations: nat, actions: seq<Action>)
    ensures var r := Run(Init(numTrucks, numStations), actions);
      r.Some? ==>
        && r.value.trucks == seq(numTrucks, i => NewTruck(i))
        && r.value.stations == seq(numStations, s => NewStation(s))
  {
    RecordedCopiesNeverChange(Init(numTrucks, numStations), actions);
  }

  /**
   * As written, on the showcase run: the station received 3574 units of
   * helium from 12 unloads, yet the recorded copies report 0 for both, so
   * the unit test's balance compares 0 with 0.
   */
  lemma RecordedTotalsMissTheRun()
    ensures Run(Init(1, 1), Showcase()) == Some(FinalWorld())
    ensures FinalWorld().finished
    ensures FinalWorld().stationThreads[0].station.totalHeliumReceived == 3574
    ensures FinalWorld().threads[0].truck.totalUnloadedTrips == 12
    ensures FinalWorld().stations[0].totalHeliumReceived == 0
    ensures FinalWorld().trucks[0].totalMinedHelium == 0
    ensures FinalWorld().trucks[0].totalUnloadedTrips == 0
  {
    ShowcaseReach();
    var w := FinalWorld();
    assert w.stationThreads[0].station.totalHeliumReceived == 3574;
  }

  /** Corrected: the trucks as they are now, in thread order. */
  function LiveTrucks(threads: seq<TruckThread>): (trucks: seq<TruckData>)
    ensures |trucks| == |threads|
    ensures forall i :: 0 <= i < |threads| ==> trucks[i] == threads[i].truck
  {
    if threads == [] then [] else [threads[0].truck] + LiveTrucks(threads[1..])
  }

  /** Corrected: the stations as they are now, in thread order. */
  function LiveStations(stationThreads: seq<StationThread>): (stations: seq<StationData>)
    ensures |stations| == |stationThreads|
    ensures forall s :: 0 <= s < |stationThreads| ==> stations[s] == stationThreads[s].station
  {
    if stationThreads == [] then [] else [stationThreads[0].station] + LiveStations(stationThreads[1..])
  }

  function TruckHelium(t: TruckData): int { t.totalMinedHelium }
  function TruckUnloads(t: TruckData): int { t.totalUnloadedTrips }
  function StationHelium(s: StationData): int { s.totalHeliumReceived }
  function StationUnloads(s: StationData): int { s.totalTrucksUnloaded }

  lemma {:induction false} LiveTruckSums(threads: seq<TruckThread>)
    ensures SumOf(LiveTrucks(threads), TruckHelium) == SumOf(threads, Mined)
    ensures SumOf(LiveTrucks(threads), TruckUnloads) == SumOf(threads, Unloads)
  {
    if threads != [] {
      LiveTruckSums(threads[1..]);
      assert LiveTrucks(threads)[1..] == LiveTrucks(threads[1..]);
    }
  }

  lemma {:induction false} LiveStationSums(stationThreads: seq<StationThread>)
    ensures SumOf(LiveStations(stationThreads), StationHelium) == SumOf(stationThreads, Received)
    ensures SumOf(LiveStations(stationThreads), StationUnloads) == SumOf(stationThreads, Served)
  {
    if stationThreads != [] {
      LiveStationSums(stationThreads[1..]);
      assert LiveStations(stationThreads)[1..] == LiveStations(stationThreads[1..]);
    }
  }

  /**
   * Corrected: once the trucks are finished, the helium the live stations
   * received adds up to the helium the live trucks mined, and their unload
   * counts agree, which is the balance the unit test means to check.
   */
  lemma LiveTotalsBalance(w: World)
    requires Inv(w) && w.finished
    ensures SumOf(LiveStations(w.stationThreads), StationHelium) == SumOf(LiveTrucks(w.threads), TruckHelium)
    ensures SumOf(LiveStations(w.stationThreads), StationUnloads) == SumOf(LiveTrucks(w.threads), TruckUnloads)
  {
    Properties.BalancedWhenFinished(w);
    LiveTruckSums(w.threads);
    LiveStationSums(w.stationThreads);
  }

  // ---------------------------------------------------------------------
  // Finding 2: the helium bound is too low
  // ---------------------------------------------------------------------

  /**
   * As written: a reachable, finished run in which truck 0 has mined 3574
   * units, more than `calculateMaximumHeliumPossible(4320)` = 3570, so the
   * unit test's helium check would fail on the live truck.
   */
  lemma HeliumAboveMaximum()
    ensures Run(Init(1, 1), Showcase()) == Some(FinalWorld()) && FinalWorld().finished
    ensures FinalWorld().threads[0].truck.totalMinedHelium == 3574
    ensures FinalWorld().threads[0].truck.totalMinedHelium > CalculateMaximumHeliumPossible(kMaxMiningDurationMins)
  {
    ShowcaseReach();
    MaximumHeliumAtHorizon();
    var w := FinalWorld();
    assert w.threads[0].truck.totalMinedHelium == 3574;
  }

  /** The most helium n credited trips can carry when the last one must unload before minute t. */
  function TripCap(t: int, n: int): int {
    var byMining := Site.kMaxMiningMinutes * kHeliumMiningRatePerMin * n;
    var byClock := t + 34 - kTripOverheadMins * n;
    if byMining <= byClock then byMining else byClock
  }

  /**
   * With k full cycles fitting in t + 34 minutes, trip count k is limited by
   * mining and k + 1 by the clock: no trip count does better than both.
   */
  lemma TripCapPeak(t: int, k: int)
    requires t >= 0 && k == (t + 34) / kMaxOneCycleTimeMins
    ensures TripCap(t, k) >= 0
    ensures forall n :: 0 <= n ==> TripCap(t, n) <= TripCap(t, k) || TripCap(t, n) <= TripCap(t, k + 1)
  {
    DivBounds(t + 34, kMaxOneCycleTimeMins);
    assert 365 * k <= t + 34 < 365 * (k + 1);
    assert TripCap(t, k) == 300 * k;
    assert TripCap(t, k + 1) == t + 34 - 65 * (k + 1);
    forall n | 0 <= n
      ensures TripCap(t, n) <= TripCap(t, k) || TripCap(t, n) <= TripCap(t, k + 1)
    {
      if n <= k {
        assert 300 * n <= 300 * k;
      } else {
        assert 65 * n >= 65 * (k + 1);
      }
    }
  }

  /**
   * Corrected: the largest helium total a truck can reach within t minutes.
   * The n-th UNLOADING arm runs no earlier than minute (mining so far) +
   * 65n - 35 and strictly before t, and each trip mines at most 300 units;
   * the best n is one of the two around the point where both limits meet.
   */
  function MaximumHeliumPossible(totalSimulationTime: int): (helium: int)
    requires totalSimulationTime >= 0
    ensures forall n :: 0 <= n ==> TripCap(totalSimulationTime, n) <= helium
    ensures helium >= 0
    ensures helium == TripCap(totalSimulationTime, (totalSimulationTime + 34) / kMaxOneCycleTimeMins)
         || helium == TripCap(totalSimulationTime, (totalSimulationTime + 34) / kMaxOneCycleTimeMins + 1)
  {
    var t := totalSimulationTime;
    var k := (t + 34) / kMaxOneCycleTimeMins;
    TripCapPeak(t, k);
    if TripCap(t, k) >= TripCap(t, k + 1) then TripCap(t, k) else TripCap(t, k + 1)
  }

  lemma MaximumHeliumPossibleAtHorizon()
    ensures MaximumHeliumPossible(kMaxMiningDurationMins) == 3574
    ensures MaximumHeliumPossible(kMaxMiningDurationMins) > CalculateMaximumHeliumPossible(kMaxMiningDurationMins)
  {
    assert (4320 + 34) / 365 == 11;
    MaximumHeliumAtHorizon();
  }

  /** Corrected: in every reachable world no truck exceeds the corrected maximum. */
  lemma HeliumWithinCorrectedMaximum(w: World, i: int)
    requires Inv(w) && 0 <= i < |w.threads|
    ensures w.threads[i].truck.totalMinedHelium <= MaximumHeliumPossible(kMaxMiningDurationMins)
  {
    var th := w.threads[i];
    var n := Trips(th);
    var durations := th.truck.miningDurations;
    assert ThreadInv(th);
    if n >= 1 {
      var credited := durations[..n];
      assert AllMiningDurations(credited) by {
        forall k | 0 <= k < |credited| ensures Site.IsMiningDuration(credited[k]) {
          assert credited[k] == durations[k];
        }
      }
      MiningDurationsSumBounds(credited);
      assert th.truck.totalMinedHelium <= TripCap(kMaxMiningDurationMins, n);
    } else {
      assert durations[..n] == [];
    }
  }

  /** Corrected bound is tight: the showcase run reaches it. */
  lemma CorrectedMaximumAttained()
    ensures Run(Init(1, 1), Showcase()) == Some(FinalWorld())
    ensures FinalWorld().threads[0].truck.totalMinedHelium == MaximumHeliumPossible(kMaxMiningDurationMins)
  {
    ShowcaseReach();
    MaximumHeliumPossibleAtHorizon();
    var w := FinalWorld();
    assert w.threads[0].truck.totalMinedHelium == 3574;
  }
}
