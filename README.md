# Mining truck simulator, modelled in Dafny

The simulator runs a fleet of helium mining trucks and a set of unloading
stations for 72 simulated hours (4320 minutes). Each truck cycles through
four states: MINING for a random 60 to 300 minutes, TRAVEL_TO_UNLOAD_STATION
for 30 minutes, UNLOADING for 5 minutes and TRAVEL_TO_MINING_SITE for 30
minutes. One helium unit is mined per minute. When its UNLOADING arm runs,
after crediting the trip's helium and before the five-minute unload, the
truck pushes itself onto a shared queue (`dataVector`). It then polls until
a station has taken it from the front of the queue, and it is charged one
minute of queue wait each time the poll finds that some truck ahead of it
has been served. A station serves the queue front first: it adds the
truck's helium and one unload to its own totals, credits the truck with the
unload and its queue wait, and clears the truck's in-queue flag. Trucks and
stations are threads. Once every truck has reached the horizon, the
simulator raises `finished`, and each station leaves its loop when the queue
is empty.

The model has three layers:

- **Plain records as classes.** `Trucks.Truck` and `Stations.Station` have
  one setter per field. Each setter states exactly which field changes, and
  `Truck.CalculateTotalMiningDuration` is the summing loop.
- **The concurrency as a transition system.** Every truck step, push, poll
  pass, station serve, station exit and the raising of `finished` is one
  atomic transition of a value `Transitions.World`, and any interleaving is
  a run.
  - `Invariants.Inv` holds for every reachable world. It covers each truck's
    ledger and clock, the shape of the queue, and the conservation of
    helium and unloads between trucks and stations.
  - `Properties` derives from it what the unit tests check, and more.
- **The simulator itself as an imperative class.** `SimulatorModel.Simulator`
  has the recorded copies, the queue of truck references, the `finished`
  flag, and the trucks, stations and locals of the threads. Each of its
  step methods calls the `Truck`/`Station` setters the way the threads do,
  and is proved to have exactly the effect of the matching transition.
  `StartSimulator` creates the threads and runs a schedule. The schedule is
  the operating system's interleaving together with the site's random
  mining durations. It must be complete, because `startSimulator` returns
  only after joining every thread: it ends with `finished` set and every
  station out of its loop.

`Limits` holds the constants and the two bound formulas of the simulator.
`Findings` shows two defects of the source on one concrete run and proves
the corrected definitions.

`calculateMaximumHeliumPossible` (Simulator.cpp:94-99) does not clamp its
leftover-time term at zero, so the bound it returns is negative for horizons
under 35 minutes: `Limits.MaximumHeliumUnclamped` shows the value −25 for a
10-minute horizon.

## Model

| member | source | states |
|---|---|---|
| Limits.ConstantValues | include/Simulator.h:15-20 | the horizon is 4320 minutes, the rate is 1 unit per minute, the longest cycle is 365 minutes and the shortest 125, and the shortest is no longer than the longest |
| Limits.TruncDiv | Simulator.cpp:79 | C++ integer division truncates toward zero: for a non-negative dividend the quotient q satisfies q·b ≤ a < q·b + b |
| Limits.CalculateMaximumTripsPossible | Simulator.cpp:77-81 | for a horizon t ≥ 0 the result is the number of whole shortest cycles that fit, i.e. trips·125 ≤ t < trips·125 + 125 |
| Limits.CalculateMaximumHeliumPossible | Simulator.cpp:83-102 | for t ≥ 0 the result is 300 per whole longest cycle plus the leftover time minus 35, i.e. t − 65·(t div 365) − 35 |
| Limits.MaximumTripsAtHorizon | Simulator.cpp:77-81 | the trip bound at the 4320-minute horizon is 34 |
| Limits.MaximumHeliumAtHorizon | Simulator.cpp:83-102 | the helium bound at the 4320-minute horizon is 3570 |
| Limits.MaximumHeliumUnclamped | Simulator.cpp:94-99 | the leftover term is not clamped: a 10-minute horizon gives −25 |
| Limits.MaximumHeliumNotMonotonic | Simulator.cpp:83-102 | the bound falls from 329 at 364 minutes to 265 at 365 minutes, and 329 already exceeds one full trip's 300 units |
| Sums.SumAppend | Truck.cpp:17-25 | recording one more duration d raises the calculated total mining duration by exactly d |
| Trucks.MiningDurationsSumBounds | include/Site.h:7-8 | n durations drawn from [60, 300] add up to between 60·n and 300·n |
| Trucks.Truck.constructor | include/Truck.h:19-21 | a new truck is MINING, has every counter 0, is not in the queue and has no recorded duration |
| Trucks.Truck.SetCurrentState | include/Truck.h:28 | only the state changes, to the argument |
| Trucks.Truck.SetCurrentMiningTime | include/Truck.h:32 | only the current mining time changes, to the argument |
| Trucks.Truck.SetCurrentMinedHelium | include/Truck.h:36 | only the current helium changes, to the argument |
| Trucks.Truck.SetCurrentTripQueueWait | include/Truck.h:40 | only the current trip's queue wait changes, to the argument |
| Trucks.Truck.SetTotalMiningTime | include/Truck.h:44 | only the total mining time changes, to the argument |
| Trucks.Truck.SetTotalMinedHelium | include/Truck.h:48 | only the total helium changes, to the argument |
| Trucks.Truck.IncrementTotalNumberUnloads | include/Truck.h:52 | only the unload count changes, by exactly one |
| Trucks.Truck.SetTotalQueueWait | include/Truck.h:56 | only the total queue wait changes, to the argument |
| Trucks.Truck.SetIsInDataQueue | include/Truck.h:60 | only the in-queue flag changes, to the argument |
| Trucks.Truck.SaveMiningDuration | include/Truck.h:62 | the argument is appended at the end of the durations; earlier ones and every other field are unchanged |
| Trucks.Truck.CalculateTotalMiningDuration | Truck.cpp:17-25 | returns the sum of the recorded durations and changes no field |
| Trucks.NewTruckTotalMiningDuration | Truck.cpp:19 | a fresh truck's calculated total mining duration is 0 |
| Stations.Station.constructor | Station.cpp:3 | a new station has received no helium and unloaded no truck |
| Stations.Station.SetTotalHeliumReceived | Station.cpp:15-18 | only the helium total changes, to the argument |
| Stations.Station.IncrementTotalTrucksUnloaded | Station.cpp:25-28 | only the unload count changes, by exactly one |
| HandoffQueue.Push | Simulator.cpp:184-185 | the truck goes to the back, every earlier entry stays, and its position is the old length |
| HandoffQueue.PopFront | Simulator.cpp:256-257 | the front entry is removed and every other entry moves exactly one place forward |
| HandoffQueue.ProcessedIffMovedForward | Simulator.cpp:291-314 | for a queued truck the check answers true exactly when the truck has moved forward from the slot it was pushed to |
| HandoffQueue.PopFrontKeepsProcessed | Simulator.cpp:256-257 | serving the front keeps a true answer true for a truck still queued behind it |
| HandoffQueue.PushKeepsAnswer | Simulator.cpp:184 | another truck joining at the back leaves a queued truck's answer unchanged |
| Transitions.ClampSleep | Simulator.cpp:224-233 | after the clamp the clock is at most 4320; a sleep that fits is kept, and one that overshoots ends exactly at 4320 |
| Transitions.EndIteration | Simulator.cpp:224-233 | the end of every iteration leaves the clock at most 4320, the loop exits exactly when it is 4320, otherwise the full sleep was taken; truck and queue position are untouched |
| Transitions.MachineStep | Simulator.cpp:120-179 | one switch arm moves the truck to the next state of its cycle; MINING records the drawn duration, its helium and mining time and sleeps that long; UNLOADING adds the trip's helium to the total and sleeps 5 minutes; the travel arms sleep 30; id, flag, unloads and queue waits are untouched |
| Transitions.StepThread | Simulator.cpp:120-191 | one outer-loop iteration advances the truck's state; from UNLOADING it stops before the push with the clock unchanged, otherwise it ends the iteration with the clock at most 4320; it never leaves the thread polling |
| Transitions.PollThread | Simulator.cpp:196-222 | a pass of the poll loop leaves the loop once the flag is cleared; while queued it stays in the loop and charges at most one minute, the charge going equally to the clock and the trip's queue wait; it charges nothing while the truck still sits at its pushed slot |
| Transitions.ServeStation | Simulator.cpp:259-260 | serving a truck adds one unload and exactly that truck's current helium to the station's totals |
| Transitions.ServeTruck | Simulator.cpp:262-272 | the served truck gains one unload, its trip queue wait moves into its total and is reset to 0, its flag is cleared, and its state and helium are untouched |
| Transitions.Enabled | Simulator.cpp:107-289 | a truck action needs a live truck thread, a station action a station that has not left its loop, and the finish step a simulation not yet finished |
| Transitions.Apply | Simulator.cpp:107-289 | no action adds or removes a thread or un-finishes the simulation; an enqueue appends the truck's id to the queue, a serve removes the front entry, every other action leaves the queue alone |
| Transitions.Run | Simulator.cpp:107-289 | a run that completes keeps the number of truck and station threads and never un-finishes the simulation |
| Transitions.Init | Simulator.cpp:32-54 | the start has one running truck thread per truck with a new truck of that id at minute 0, one live station thread per station with a new station, an empty queue and `finished` false |
| HandoffQueue.DidStationProcessTruck | Simulator.cpp:291-314 | the check answers false only for a truck that is in the queue, and true whenever the stored position is out of range |
| Invariants.StepThreadPreserves | Simulator.cpp:120-179 | every arm of the switch keeps the truck's ledger and clock invariant and adds to the helium counted as mined only what becomes pending |
| Invariants.PollThreadPreserves | Simulator.cpp:196-222 | a poll pass keeps the truck's invariant and changes no helium or unload total |
| Invariants.EnqueueThreadPreserves | Simulator.cpp:180-191 | the push keeps the truck's invariant |
| Invariants.ServeThreadPreserves | Simulator.cpp:264-273 | crediting a served truck keeps its invariant, adds one unload and moves its helium from pending to delivered |
| Invariants.ApplyPreservesInv | Simulator.cpp:107-289 | every atomic step of any truck or station thread keeps the whole invariant: ledgers, clocks, queue shape and conservation of helium and unloads |
| Properties.InitSatisfiesInv | Simulator.cpp:32-54 | the freshly started simulation satisfies the invariant |
| Properties.RunPreservesInv | Simulator.cpp:32-75 | the invariant holds after any interleaving of enabled steps |
| Properties.ReachableSatisfiesInv | Simulator.cpp:32-75 | every world reachable from a fresh start satisfies the invariant |
| Properties.QueuedTruckIsPolling | Simulator.cpp:196 | a truck in the queue is inside its poll loop |
| Properties.BalancedWhenFinished | test/test_main.cpp:67-71 | once the trucks are finished the queue is empty, the stations' helium equals the trucks' mined helium, and the unload counts agree |
| Properties.BalancedWhenStationExits | Simulator.cpp:281-284 | a station leaves its loop only when every truck is done and both totals balance |
| Properties.UnloadsWithinMaximumTrips | test/test_main.cpp:48 | no truck's unload count ever exceeds the trip bound for the horizon, 34 |
| Properties.TotalMiningDurationMatches | Simulator.cpp:128-129 | a truck's recorded durations always add up to its total mining time |
| Properties.HorizonRespected | Simulator.cpp:116 | a running truck's clock is below 4320, and a finished truck's clock is exactly 4320 |
| Properties.ProcessedStaysProcessed | Simulator.cpp:196-213 | once the poll check answers true for a waiting truck it keeps answering true, whatever step comes next, until the truck is served |
| Properties.StateCycle | Simulator.cpp:120-171 | each arm moves to the next state of the four-state cycle, which closes after four steps, and sleeps d, 30, 5 and 30 minutes |
| Properties.MachineStepAccounting | Simulator.cpp:123-166 | MINING records d as current time, helium and one more duration and adds it to the total time; UNLOADING adds the current helium to the total; travel changes only the state; the id, unloads, waits and flag are untouched |
| Properties.OnlyUnloadingEnqueues | Simulator.cpp:180 | a pass heads for the queue exactly when the truck was UNLOADING |
| Properties.EnqueueAppends | Simulator.cpp:180-191 | the push appends the truck's id, keeps earlier entries, records the old length as position and raises the flag |
| Properties.PollChargesOnlyWhenProcessed | Simulator.cpp:196-213 | a poll pass charges one minute of wait and of clock exactly when the flag is set and the check answers true; with the flag cleared the iteration ends |
| Properties.ServeTakesFront | Simulator.cpp:254-273 | serving removes the front entry only, adds one unload and the truck's helium to the station, credits the truck with one unload and its wait, resets the wait and clears the flag |
| SimulatorModel.Simulator.constructor | include/Simulator.h:31 | a new simulator stores the counts and has no truck, station, queue entry or thread, and is not finished; it is already valid |
| SimulatorModel.Simulator.AddTruck | include/Simulator.h:58 | appends exactly one copy of the truck as it is now and keeps earlier entries |
| SimulatorModel.Simulator.AddStation | include/Simulator.h:76 | appends exactly one copy of the station as it is now and keeps earlier entries |
| SimulatorModel.Simulator.GetTrucks | include/Simulator.h:49 | returns the recorded trucks and changes nothing |
| SimulatorModel.Simulator.GetStations | include/Simulator.h:67 | returns the recorded stations and changes nothing |
| SimulatorModel.Simulator.DidStationProcessTruck | Simulator.cpp:291-314 | changes nothing and answers false exactly when the position is in range and holds the truck's id |
| SimulatorModel.Simulator.EndOfIteration | Simulator.cpp:224-233 | the clamp, sleep and loop test change only thread i's locals, as the end of an iteration prescribes |
| SimulatorModel.Simulator.TruckSwitch | Simulator.cpp:120-179 | the setters called in each arm give exactly the arm's new truck fields and sleep |
| SimulatorModel.Simulator.TruckIteration | Simulator.cpp:116-179 | one pass of the truck loop is exactly the truck step of the transition system, and the simulator stays valid |
| SimulatorModel.Simulator.SwitchPass | Simulator.cpp:120-233 | the switch and the end of the pass, or the stop before the push, change thread i exactly as the truck step of the model prescribes and leave every other thread's locals alone |
| SimulatorModel.Simulator.PushToQueue | Simulator.cpp:180-191 | the push is exactly the enqueue step of the transition system, and the simulator stays valid |
| SimulatorModel.Simulator.PushPass | Simulator.cpp:180-191 | the queue gains exactly this truck at the back, the truck raises its flag and remembers the old queue length as its slot, and thread i starts polling |
| SimulatorModel.Simulator.ChargeQueueWait | Simulator.cpp:200-212 | one more minute on the truck's trip wait and on its clock, and nothing else of thread i |
| SimulatorModel.Simulator.PollPass | Simulator.cpp:196-222 | one poll pass changes thread i exactly as the poll step prescribes |
| SimulatorModel.Simulator.PollQueue | Simulator.cpp:196-222 | one poll pass is exactly the poll step of the transition system, and the simulator stays valid |
| SimulatorModel.Simulator.UnloadFrontTruck | Simulator.cpp:254-273 | one serve is exactly the serve step of the transition system, and the simulator stays valid |
| SimulatorModel.Simulator.CreditStation | Simulator.cpp:259-260 | the station gains exactly one unload and the truck's current helium, and nothing else of it changes |
| SimulatorModel.Simulator.ReleaseTruck | Simulator.cpp:263-272 | the truck gains one unload and its trip wait on its total wait, its trip wait is reset and its flag cleared |
| SimulatorModel.Simulator.StationExitCheck | Simulator.cpp:281-284 | the station leaves exactly when the trucks are finished and the queue is empty; otherwise nothing changes |
| SimulatorModel.Simulator.SignalFinished | Simulator.cpp:57-64 | raising the flag after every truck is done is exactly the finish step, and the simulator stays valid |
| SimulatorModel.Simulator.CreateThreads | Simulator.cpp:38-54 | thread i gets a new truck i and thread s a new station s, each recorded once, and the simulator is the initial world |
| SimulatorModel.Simulator.CreateTruckThreads | Simulator.cpp:39-45 | thread i gets a fresh truck i with zeroed locals, and a copy of each is recorded in id order |
| SimulatorModel.Simulator.CreateStationThreads | Simulator.cpp:48-54 | thread s gets a fresh station s, and a copy of each is recorded in id order |
| SimulatorModel.Simulator.Step | Simulator.cpp:107-289 | any enabled step of any thread has exactly the effect of that transition |
| SimulatorModel.Simulator.RunSchedule | Simulator.cpp:107-289 | running an interleaving leaves the simulator exactly in the world the transition system reaches |
| SimulatorModel.Simulator.Finished | Simulator.cpp:56-70 | once `finished` is set and every station has left its loop, the queue is empty, every truck thread has left its loop, and the stations' helium and unload totals equal the trucks' |
| SimulatorModel.Simulator.StartSimulator | Simulator.cpp:32-75 | a fresh simulator that starts its threads and runs a complete interleaving ends valid, in exactly the world the transition system reaches from the initial one, with `finished` set, every thread joined and the queue empty; the recorded copies still hold every new truck and station with zero totals, while the live trucks and stations balance |
| Findings.RecordedCopiesNeverChange | Simulator.cpp:113 | no step of any thread touches the simulator's recorded copies |
| Findings.RecordedTotalsStayZero | include/Simulator.h:49 | after any run the recorded trucks and stations are still the fresh ones, with every counter 0 |
| Findings.RecordedTotalsMissTheRun | test/test_main.cpp:67-71 | on a concrete finished run the station received 3574 units over 12 unloads, while the recorded copies report 0 helium and 0 unloads |
| Findings.LiveTrucks | include/Simulator.h:49 | the corrected report has one entry per truck thread, the truck as it is now |
| Findings.LiveStations | include/Simulator.h:67 | the corrected report has one entry per station thread, the station as it is now |
| Findings.LiveTotalsBalance | test/test_main.cpp:67-71 | once the trucks are finished, the live stations' helium and unloads add up to the live trucks' helium and unloads |
| Findings.ShowcaseReach | Simulator.cpp:107-289 | eleven 300-minute trips and one 274-minute trip of one truck served by one station form a valid run ending in the stated final world |
| Findings.HeliumAboveMaximum | test/test_main.cpp:44 | in a reachable finished run a truck mines 3574 units, more than the bound of 3570 |
| Findings.MaximumHeliumPossible | Simulator.cpp:83-102 | the corrected bound is non-negative and at least min(300n, t + 34 − 65n) for every trip count n |
| Findings.TripCapPeak | Simulator.cpp:83-102 | with k whole longest cycles fitting in t + 34 minutes, no trip count gives more than trip count k (bounded by mining) or k + 1 (bounded by the clock) |
| Findings.MaximumHeliumPossibleAtHorizon | Simulator.cpp:83-102 | the corrected bound at 4320 minutes is 3574, above the source's 3570 |
| Findings.HeliumWithinCorrectedMaximum | test/test_main.cpp:44 | in every world satisfying the invariant no truck's mined helium exceeds the corrected bound |
| Findings.CorrectedMaximumAttained | test/test_main.cpp:44 | the corrected bound is tight: the concrete run reaches it |

## Left out

- Threads, the mutex, the condition variable, the atomic `finished` flag and the joins are replaced by atomic steps and an explicit schedule. Each truck step, push, poll pass, serve and station exit is one indivisible transition.
- The sleeps only pace the simulation. They are modelled as additions to the thread's clock, and the station's five-minute unload sleep does not touch any simulated clock.
- Thread start order is fixed: `CreateThreads` creates every truck and station, and records each copy, before any step runs. In the source each thread constructs and records its own object concurrently, so the order of `m_trucks`/`m_stations` can differ from the id order. The concurrent `push_back` into those vectors is a data race in the source and is not modelled.
- The concurrent writes to `currentTripQueueWait` by a polling truck and a serving station are a data race. The model treats the poll pass and the serve as atomic.
- `getRandomMinedDuration` is the mining duration that each truck step takes as a parameter, restricted to [60, 300]. The Mersenne Twister generator is not modelled.
- `printTruckResults`, `printStationResults`, `printMessage`, `composeDebugMsg`, the log files and the console input loop of main.cpp are output or input and are not modelled.
- The floating-point helpers `calculateAverageQueueTime`, `convertAverageQueueTimeToPercent` and `convertTruckEfficiencyToPercent`, and the efficiency ratio, are not modelled.
- `calcMinTripsPossible`, `calcMaxTripsPossible`, `calcMinHeliumPossible` and `calcMaxHeliumPossible` are declared in include/Simulator.h without a body, so there is nothing to model.
- The getters of `Truck` and `Station` are reads of the class fields. The id is a `const`, so it never changes.
- The `default` arm of the switch is unreachable because the state type has only four values.
- The null test in `didStationProcessTruck` is dropped: the queue only ever holds trucks.
- Integers are unbounded. No counter comes near 32-bit overflow within 4320 minutes, so wrap-around is not modelled.
- `Simulator.RunSchedule` and `Simulator.StartSimulator` require a schedule whose every step is enabled. A real scheduler only runs threads that can proceed. That such a complete schedule exists for every fleet (termination of the threads) is not proved; `Findings.ShowcaseReach` exhibits one for one truck and one station.

## Findings

| source | as written | input that shows it | evidently intended | confidence | as-written member | corrected member |
|---|---|---|---|---|---|---|
| Simulator.cpp:113 | each thread stores a copy of its truck or station at thread start; `getTrucks`/`getStations` return those copies, so every reported counter is 0 and the unit test's balance compares 0 with 0 | 1 truck, 1 station: eleven trips of 300 minutes and one of 274, each served at once | report the trucks and stations as they are at the end, whose totals balance | not executed; high | Findings.RecordedTotalsMissTheRun | Findings.LiveTotalsBalance |
| Simulator.cpp:83-102 | the helium bound at 4320 minutes is 3570, yet a truck can mine 3574 units because its twelfth UNLOADING arm runs at minute 4319 | 1 truck, 1 station: eleven trips of 300 minutes and one of 274, no queue wait | a bound no truck can exceed. Either the bound counts every trip whose UNLOADING arm starts before the horizon: the maximum over trip counts n of min(300n, t + 34 − 65n), which is 3574 at 4320 (the model's choice); or, as the comment at lines 97-98 also allows, the simulation stops crediting a trip whose unload would end after the horizon, and the bound of 3570 then holds | not executed; high | Findings.HeliumAboveMaximum | Findings.HeliumWithinCorrectedMaximum |
