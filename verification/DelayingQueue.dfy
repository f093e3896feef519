/**
  The delaying queue: a work queue, the heap of delayed items in front of it, and the loop between.
 */
module DelayingQueue {
  import opened WorkQueue
  import opened WaitHeap
  import opened WaitingLoop

  // ----- The loop's work on the heap and the queue -----

  /** `fired` lists, earliest first, exactly the items whose time is at most `now`. */
  ghost predicate FiringOrder<T(!new)>(waiting: map<T, int>, now: int, fired: seq<T>) {
    && NoDuplicates(fired)
    && (forall x :: x in fired <==> x in waiting && waiting[x] <= now)
    && (forall i, j :: 0 <= i < j < |fired| ==> waiting[fired[i]] <= waiting[fired[j]])
  }

  /** `fired` is a beginning of a firing order: what is left waits at least as long. */
  ghost predicate FiringPrefix<T(!new)>(waiting: map<T, int>, now: int, fired: seq<T>) {
    && NoDuplicates(fired)
    && (forall x :: x in fired ==> x in waiting && waiting[x] <= now)
    && (forall i, j :: 0 <= i < j < |fired| ==> waiting[fired[i]] <= waiting[fired[j]])
    && (forall x, y :: x in fired && y in waiting && y !in fired ==> waiting[x] <= waiting[y])
  }

  ghost function Unfired<T(!new)>(waiting: map<T, int>, fired: seq<T>): map<T, int> {
    map x | x in waiting && x !in fired :: waiting[x]
  }

  ghost function Later<T(!new)>(waiting: map<T, int>, now: int): map<T, int> {
    map x | x in waiting && now < waiting[x] :: waiting[x]
  }

  lemma ExtendFiring<T(!new)>(waiting: map<T, int>, now: int, fired: seq<T>, x: T)
    requires FiringPrefix(waiting, now, fired) && x in Unfired(waiting, fired) && waiting[x] <= now
    requires forall y :: y in Unfired(waiting, fired) ==> waiting[x] <= waiting[y]
    ensures FiringPrefix(waiting, now, fired + [x])
    ensures Unfired(waiting, fired + [x]) == Unfired(waiting, fired) - {x}
  {
    assert forall y :: y in fired + [x] <==> y in fired || y == x;
    forall y | y in waiting && y !in fired
      ensures waiting[x] <= waiting[y]
    {
      assert y in Unfired(waiting, fired);
    }
  }

  lemma FiringEnds<T(!new)>(waiting: map<T, int>, now: int, fired: seq<T>)
    requires FiringPrefix(waiting, now, fired)
    requires forall y :: y in Unfired(waiting, fired) ==> now < waiting[y]
    ensures FiringOrder(waiting, now, fired) && Unfired(waiting, fired) == Later(waiting, now)
  {
    forall x | x in waiting && waiting[x] <= now
      ensures x in fired
    {
      assert x !in Unfired(waiting, fired);
    }
  }

  lemma AddedAllExtends<T(!new)>(q: State<T>, xs: seq<T>, x: T)
    ensures AddedAll(q, xs + [x]) == Added(AddedAll(q, xs), x)
  {
    assert (xs + [x])[..|xs|] == xs;
  }

  /**
    Firing in that order is what the loop's steps do, one after the other, until it has nothing more to fire; they
    cannot stop before, nor fire anything later first.
   */
  lemma FiringFollowsLoop<T(!new)>(
    waiting: map<T, int>, now: int, fired: seq<T>, ch: seq<Token<T>>, clock: int, down: bool, stopped: bool, i: nat)
    requires FiringOrder(waiting, now, fired) && i <= |fired|
    ensures var loop := Loop(Firing(now), ch, Unfired(waiting, fired[..i]));
            if i == |fired| then LoopEnabled(loop, FireDone, clock, down, stopped)
            else
              && LoopEnabled(loop, Fire(fired[i]), clock, down, stopped)
              && LoopAfter(loop, Fire(fired[i]), clock) == Loop(Firing(now), ch, Unfired(waiting, fired[..i + 1]))
              && !LoopEnabled(loop, FireDone, clock, down, stopped)
              && forall y :: LoopEnabled(loop, Fire(y), clock, down, stopped) ==> waiting[y] == waiting[fired[i]]
  {
    var left := Unfired(waiting, fired[..i]);
    if i == |fired| {
      assert fired[..i] == fired;
    } else {
      assert fired[i] in fired && fired[..i + 1] == fired[..i] + [fired[i]];
      assert forall k :: 0 <= k < i ==> fired[..i][k] == fired[k];
      forall y | y in left
        ensures waiting[fired[i]] <= waiting[y]
      {
        if y in fired {
          var k :| 0 <= k < |fired| && fired[k] == y;
        }
      }
    }
  }

  class DelayingType<T(==,!new)> {
    const queue: Type<T>
    const heap: WaitForPriorityQueue<T>
    var known: map<T, WaitFor<T>>

    constructor ()
      ensures Ok() && Waiting(known) == map[] && queue.Value() == Init()
      ensures fresh(queue) && fresh(heap)
    {
      queue := new Type<T>();
      heap := new WaitForPriorityQueue<T>();
      known := map[];
    }

    ghost predicate Ok()
      reads this, queue, heap, Nodes(heap.pq)
    {
      Inv(queue.Value()) && Valid(heap, known)
    }

    /** Move the entry due first from the heap to the queue. */
    method FireFirst() returns (x: T)
      requires Ok() && heap.pq != []
      modifies this`known, queue, heap, Nodes(heap.pq)
      ensures Ok() && x == old(heap.pq[0].data) && x in old(known)
      ensures Waiting(known) == old(Waiting(known)) - {x}
      ensures queue.Value() == Added(old(queue.Value()), x)
      ensures |heap.pq| == |old(heap.pq)| - 1 && Nodes(heap.pq) <= old(Nodes(heap.pq))
    {
      var entry;
      entry, known := TakeFirst(heap, known);
      x := entry.data;
      var _ := queue.Add(x);
    }

    /** Add every entry that is due to the queue, earliest first. */
    method AddReady(now: int) returns (ghost fired: seq<T>)
      requires Ok()
      modifies this`known, queue, heap, Nodes(heap.pq)
      ensures Ok()
      ensures FiringOrder(old(Waiting(known)), now, fired)
      ensures Waiting(known) == Later(old(Waiting(known)), now)
      ensures queue.Value() == AddedAll(old(queue.Value()), fired)
    {
      fired := [];
      ghost var waiting, q := Waiting(known), queue.Value();
      assert Unfired(waiting, fired) == waiting;
      while |heap.pq| > 0 && heap.pq[0].readyAt <= now
        invariant Ok() && Nodes(heap.pq) <= old(Nodes(heap.pq))
        invariant FiringPrefix(waiting, now, fired) && Waiting(known) == Unfired(waiting, fired)
        invariant queue.Value() == AddedAll(q, fired)
        decreases |heap.pq|
      {
        FirstIsLeast(heap, known);
        ghost var left := Unfired(waiting, fired);
        var x := FireFirst();
        assert x in left && forall y :: y in left ==> left[x] <= left[y];
        ExtendFiring(waiting, now, fired, x);
        AddedAllExtends(q, fired, x);
        fired := fired + [x];
      }
      if heap.pq != [] {
        FirstIsLeast(heap, known);
      }
      assert forall x :: x in Waiting(known) ==> now < Waiting(known)[x];
      FiringEnds(waiting, now, fired);
    }

    /** File a request received from the channel: keep it, or add its item if it is already due. */
    method Handle(entry: WaitFor<T>, now: int)
      requires Ok() && entry !in heap.pq
      modifies this`known, queue, heap, Nodes(heap.pq), entry`index
      ensures Ok()
      ensures now < entry.readyAt ==>
        Waiting(known) == Sooner(old(Waiting(known)), entry.data, entry.readyAt) && queue.Value() == old(queue.Value())
      ensures entry.readyAt <= now ==>
        Waiting(known) == old(Waiting(known)) && queue.Value() == Added(old(queue.Value()), entry.data)
    {
      if entry.readyAt > now {
        known := Insert(heap, known, entry);
      } else {
        var _ := queue.Add(entry.data);
      }
    }
  }
}
