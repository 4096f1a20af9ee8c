/**
 `BlockQueue<T>`: the bounded, stoppable FIFO between the Reactor and the workers.

 `Queue` is the queue's value and gives each operation's meaning. `BlockQueue` is
 the object itself. Every method of the source runs under one mutex, so each is
 one atomic step; `Pop` is the part of `pop` that runs once its wait is over.
 */
module Queues {
  import opened Options

  datatype PushResult = Pushed | Full | Stopped

  datatype Queue<T> = Queue(items: seq<T>, capacity: nat, peak: nat, stopped: bool) {
    predicate Valid() {
      |items| <= peak <= capacity
    }

    function PushResult(): PushResult {
      if stopped then Stopped
      else if |items| >= capacity then Full
      else Pushed
    }

    function Push(x: T): (q: Queue<T>)
      ensures Valid() ==> q.Valid()
      ensures PushResult() != Pushed ==> q == this
    {
      if PushResult() == Pushed then
        this.(items := items + [x], peak := if |items| + 1 > peak then |items| + 1 else peak)
      else this
    }

    function Pop(): (q: Queue<T>)
      requires items != []
      ensures Valid() ==> q.Valid()
    {
      this.(items := items[1..])
    }

    function Stop(): Queue<T> {
      this.(stopped := true)
    }

    function Abort(): (q: Queue<T>)
      ensures Valid() ==> q.Valid()
    {
      this.(items := [], stopped := true)
    }
  }

  class BlockQueue<T(==)> {
    const capacity: nat
    var items: seq<T>
    var peak: nat
    var stopped: bool
    // What became of every item: all that was accepted, taken and discarded, in order.
    ghost var accepted: seq<T>
    ghost var taken: seq<T>
    ghost var discarded: seq<T>

    /**
     Size never exceeds peak, peak never exceeds capacity, and the queue is first
     in, first out: what was accepted is what was taken, then what is queued, then
     what an abort threw away.
     */
    ghost predicate Valid()
      reads this
    {
      && View().Valid()
      && accepted == taken + items + discarded
      && (discarded != [] ==> stopped && items == [])
    }

    ghost function View(): Queue<T>
      reads this
    {
      Queue(items, capacity, peak, stopped)
    }

    constructor (capacity: nat)
      ensures Valid()
      ensures View() == Queue([], capacity, 0, false)
      ensures accepted == [] && taken == [] && discarded == []
    {
      this.capacity := capacity;
      items, peak, stopped := [], 0, false;
      accepted, taken, discarded := [], [], [];
    }

    /** A refused push changes nothing, so the caller still holds the item. */
    method Push(item: T) returns (result: PushResult)
      requires Valid()
      modifies this
      ensures Valid()
      ensures View() == old(View()).Push(item)
      ensures result == old(View()).PushResult()
      ensures result == Stopped <==> old(stopped)
      ensures result == Pushed <==> !old(stopped) && |old(items)| < capacity
      ensures items == if result == Pushed then old(items) + [item] else old(items)
      ensures stopped == old(stopped)
      ensures accepted == if result == Pushed then old(accepted) + [item] else old(accepted)
      ensures taken == old(taken) && discarded == old(discarded)
    {
      if stopped {
        return Stopped;
      }
      if |items| >= capacity {
        return Full;
      }
      items := items + [item];
      accepted := accepted + [item];
      if |items| > peak {
        peak := |items|;
      }
      return Pushed;
    }

    /** `tryPop`, and `pop` once there is an item or the queue is stopped. */
    method Pop() returns (item: Option<T>)
      requires Valid()
      modifies this
      ensures Valid()
      ensures item.None? <==> old(items) == []
      ensures item.None? ==> View() == old(View()) && taken == old(taken)
      ensures old(items) != [] ==> items == old(items)[1..]
      ensures stopped == old(stopped)
      ensures item.Some? ==> item.value == old(items)[0] && View() == old(View()).Pop()
                             && taken == old(taken) + [item.value]
      ensures accepted == old(accepted) && discarded == old(discarded)
    {
      if |items| == 0 {
        return None;
      }
      item := Some(items[0]);
      assert items == [items[0]] + items[1..];
      taken := taken + [items[0]];
      items := items[1..];
    }

    method Stop()
      requires Valid()
      modifies this
      ensures Valid()
      ensures View() == old(View()).Stop()
      ensures stopped && items == old(items)
      ensures accepted == old(accepted) && taken == old(taken) && discarded == old(discarded)
    {
      stopped := true;
    }

    method Abort() returns (count: nat)
      requires Valid()
      modifies this
      ensures Valid()
      ensures View() == old(View()).Abort()
      ensures stopped && items == []
      ensures count == |old(items)|
      ensures accepted == old(accepted) && taken == old(taken)
      ensures discarded == old(items) + old(discarded)
    {
      stopped := true;
      count := |items|;
      discarded := items + discarded;
      items := [];
    }
  }
}
