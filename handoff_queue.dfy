/**
 * The shared hand-off queue between trucks and stations (`dataVector` in
 * Simulator.cpp), as a sequence of truck ids in arrival order.
 */
module HandoffQueue {

  /** No truck id occurs twice in the queue. */
  ghost predicate Unique(queue: seq<int>) {
    forall k, l :: 0 <= k < l < |queue| ==> queue[k] != queue[l]
  }

  /**
   * Appends a truck at the back and returns the queue together with the
   * position the truck was given, which is the queue's old length.
   */
  function Push(queue: seq<int>, truckId: int): (r: (seq<int>, int))
    ensures |r.0| == |queue| + 1 && r.0[..|queue|] == queue
    ensures r.1 == |queue| && r.0[r.1] == truckId
  {
    (queue + [truckId], |queue|)
  }

  /** Removes the front entry; every other entry moves one place forward. */
  function PopFront(queue: seq<int>): (r: (int, seq<int>))
    requires |queue| > 0
    ensures [r.0] + r.1 == queue
    ensures forall k :: 1 <= k < |queue| ==> r.1[k - 1] == queue[k]
  {
    (queue[0], queue[1..])
  }

  /**
   * The truck-side check: false exactly when the truck is still at the
   * position it was pushed to, so no entry in front of it has left; true
   * when that position is out of range or holds another truck.
   */
  function DidStationProcessTruck(queue: seq<int>, truckId: int, position: int): (processed: bool)
    ensures !processed ==> truckId in queue
    ensures !(0 <= position < |queue|) ==> processed
  {
    if 0 <= position < |queue| then queue[position] != truckId else true
  }

  /**
   * For a truck that is still queued at index k, no later than the position
   * it was pushed to, the check returns true exactly when the truck has moved
   * forward, that is when some station has served an entry in front of it.
   */
  lemma ProcessedIffMovedForward(queue: seq<int>, truckId: int, k: int, position: int)
    requires Unique(queue)
    requires 0 <= k < |queue| && queue[k] == truckId && k <= position
    ensures DidStationProcessTruck(queue, truckId, position) <==> k < position
  {
  }

  /**
   * Serving the front entry keeps the answer true for a truck still behind
   * it: the truck only moves further forward.
   */
  lemma PopFrontKeepsProcessed(queue: seq<int>, truckId: int, k: int, position: int)
    requires Unique(queue)
    requires 1 <= k < |queue| && queue[k] == truckId && k <= position
    requires DidStationProcessTruck(queue, truckId, position)
    ensures DidStationProcessTruck(PopFront(queue).1, truckId, position)
  {
    var rest := PopFront(queue).1;
    assert rest[k - 1] == truckId;
    assert Unique(rest) by {
      forall a, b | 0 <= a < b < |rest| ensures rest[a] != rest[b] {
        assert rest[a] == queue[a + 1] && rest[b] == queue[b + 1];
      }
    }
    ProcessedIffMovedForward(rest, truckId, k - 1, position);
  }

  /** Another truck joining at the back does not change the answer. */
  lemma PushKeepsAnswer(queue: seq<int>, truckId: int, k: int, position: int, other: int)
    requires 0 <= k < |queue| && queue[k] == truckId
    requires Unique(queue + [other])
    ensures DidStationProcessTruck(Push(queue, other).0, truckId, position)
         == DidStationProcessTruck(queue, truckId, position)
  {
    var q := queue + [other];
    assert q[k] == truckId && q[|queue|] == other;
  }
}
