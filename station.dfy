/** An unloading station and its two totals (include/Station.h, Station.cpp). */
module Stations {

  /** The value of every field of a `Station`. */
  datatype StationData = StationData(id: int, totalHeliumReceived: int, totalTrucksUnloaded: int)

  /** The fields of a freshly constructed station. */
  function NewStation(id: int): StationData {
    StationData(id, 0, 0)
  }

  class Station {
    const id: int
    var totalHeliumReceived: int
    var totalTrucksUnloaded: int

    /** The station's fields as one value. */
    function Snapshot(): StationData
      reads this
    {
      StationData(id, totalHeliumReceived, totalTrucksUnloaded)
    }

    /** A new station has received nothing and unloaded no truck. */
    constructor (id: int)
      ensures this.id == id && totalHeliumReceived == 0 && totalTrucksUnloaded == 0
      ensures Snapshot() == NewStation(id)
    {
      this.id := id;
      totalHeliumReceived := 0;
      totalTrucksUnloaded := 0;
    }

    method SetTotalHeliumReceived(helium: int)
      modifies this`totalHeliumReceived
      ensures Snapshot() == old(Snapshot()).(totalHeliumReceived := helium)
    {
      totalHeliumReceived := helium;
    }

    method IncrementTotalTrucksUnloaded()
      modifies this`totalTrucksUnloaded
      ensures Snapshot() == old(Snapshot()).(totalTrucksUnloaded := old(totalTrucksUnloaded) + 1)
    {
      totalTrucksUnloaded := totalTrucksUnloaded + 1;
    }
  }
}
