/** The barrier's word over linked entries, and `count_down` as the loop over them that it is. */
module BarrierList {
  import Barrier
  import opened FairQueue
  import LinkedQueue

  class Word {
    const n: nat
    var count: nat
    var tail: LinkedQueue.Entry?
    ghost var queue: seq<LinkedQueue.Entry>  // oldest first

    ghost predicate Valid()
      reads this, queue
    {
      && Distinct(queue)
      && LinkedQueue.NextOk(queue, 0)
      && LinkedQueue.Pending(queue)
      && tail == (if queue == [] then null else queue[|queue| - 1])
      && (count != 0 ==> count + |queue| == n)
    }

    constructor (n: nat)
      ensures Valid() && this.n == n && count == n && queue == []
    {
      this.n, count, tail, queue := n, n, null, [];
    }

    /** Pushes the entry while `count` changes to `newCount`. */
    method Push(entry: LinkedQueue.Entry, newCount: nat)
      requires Valid() && entry !in queue && entry.result == None
      requires newCount != 0 ==> newCount + |queue| + 1 == n
      modifies this`count, this`tail, this`queue, entry`next
      ensures Valid() && count == newCount && queue == old(queue) + [entry]
    {
      entry.next := tail;
      count, tail := newCount, entry;
      ghost var q := queue;
      queue := queue + [entry];
      forall i | 0 <= i < |queue|
        ensures LinkedQueue.NextAt(queue, 0, i)
      {
        assert i < |q| ==> old(LinkedQueue.NextAt(q, 0, i));
      }
    }

    /** Other threads find the count at zero and push their entries. */
    method PushAll(arrivals: seq<LinkedQueue.Entry>)
      requires Valid() && count == 0 && queue == []
      requires Distinct(arrivals) && LinkedQueue.Pending(arrivals)
      modifies this`count, this`tail, this`queue, arrivals`next
      ensures Valid() && count == 0 && queue == arrivals
    {
      for i := 0 to |arrivals|
        invariant Valid() && count == 0 && queue == arrivals[..i]
      {
        Push(arrivals[i], 0);
      }
    }

    /** Takes the whole queue out, gives every entry the result, and counts them. */
    method SwapOut(newCount: nat, code: nat) returns (walked: nat)
      requires Valid() && (newCount != 0 ==> newCount == n)
      modifies this`count, this`tail, this`queue, queue
      ensures Valid() && count == newCount && queue == [] && walked == |old(queue)|
      ensures forall i :: 0 <= i < |old(queue)| ==> old(queue)[i].result == Some(code)
    {
      var tailEntry := tail;
      ghost var taken := queue;
      count, tail, queue := newCount, null, [];
      walked := LinkedQueue.SetResults(tailEntry, code, taken);
    }

    /**
     `count_down`; `arrivals` are pushed by others while the count is zero. The count that is
     swapped in is the number of tasks again, although nobody but the queue remembers it.
     */
    method CountDown(entry: LinkedQueue.Entry, arrivals: seq<LinkedQueue.Entry>) returns (again: bool)
      requires Valid() && entry !in queue && entry.result == None && entry !in arrivals
      requires Distinct(arrivals) && LinkedQueue.Pending(arrivals)
      requires forall i :: 0 <= i < |arrivals| ==> arrivals[i] !in queue
      modifies this`count, this`tail, this`queue, entry, queue, arrivals
      ensures Valid() && again == (old(count) == 0)
      ensures old(count) != 1 ==> queue == old(queue) + [entry] && entry.result == None
      ensures old(count) > 1 ==> count == old(count) - 1
      ensures old(count) == 0 ==> count == 0
      ensures old(count) == 1 ==>
                && count == n && queue == [] && entry.result == Some(1)
                && (forall i :: 0 <= i < |old(queue)| ==> old(queue)[i].result == Some(0))
                && (forall i :: 0 <= i < |arrivals| ==> arrivals[i].result == Some(2))
    {
      if count == 0 {
        Push(entry, 0);
        return true;
      } else if count == 1 {
        ghost var q := queue;
        var walked := SwapOut(0, Barrier.RELEASED);
        PushAll(arrivals);
        assert forall i :: 0 <= i < |q| ==> q[i] !in arrivals;
        var _ := SwapOut(1 + walked, Barrier.RETRY);
        entry.SetResult(Barrier.LAST);
        return false;
      } else {
        Push(entry, count - 1);
        return false;
      }
    }
  }
}
