/**
  The deduplicating FIFO work queue: what each lock-held section does to the queue, the dirty set
  and the processing set, and the invariant that ties the three together.
 */
module WorkQueue {

  /** `queue` orders the work; `dirty` holds all that needs processing; `processing` all that is being processed. */
  datatype State<T> = State(queue: seq<T>, dirty: set<T>, processing: set<T>, shuttingDown: bool, drain: bool)

  function Init<T>(): State<T> {
    State([], {}, {}, false, false)
  }

  // ----- The lock-held sections, as functions -----

  /** Add puts the item on the queue, and signals, exactly when this holds. */
  predicate AddEnqueues<T(==)>(s: State<T>, x: T) {
    !s.shuttingDown && x !in s.dirty && x !in s.processing
  }

  function Added<T(==)>(s: State<T>, x: T): State<T> {
    if s.shuttingDown || x in s.dirty then s
    else if x in s.processing then s.(dirty := s.dirty + {x})
    else s.(dirty := s.dirty + {x}, queue := s.queue + [x])
  }

  function Taken<T(==)>(s: State<T>): State<T>
    requires s.queue != []
  {
    s.(queue := s.queue[1..], processing := s.processing + {s.queue[0]}, dirty := s.dirty - {s.queue[0]})
  }

  function Finished<T(==)>(s: State<T>, x: T): State<T> {
    s.(processing := s.processing - {x}, queue := if x in s.dirty then s.queue + [x] else s.queue)
  }

  /** Done signals when it puts the item back on the queue, and when nothing is left in processing. */
  predicate DoneSignals<T(==)>(s: State<T>, x: T) {
    x in s.dirty || s.processing - {x} == {}
  }

  function AddedAll<T(==)>(s: State<T>, xs: seq<T>): State<T>
    decreases |xs|
  {
    if xs == [] then s else Added(AddedAll(s, xs[..|xs| - 1]), xs[|xs| - 1])
  }

  // ----- The invariant -----

  ghost predicate NoDuplicates<T(!new)>(q: seq<T>) {
    forall i, j :: 0 <= i < j < |q| ==> q[i] != q[j]
  }

  /** The queue holds each dirty item that is not being processed, once, and nothing else. */
  ghost predicate Inv<T(!new)>(s: State<T>) {
    NoDuplicates(s.queue) && forall x :: x in s.queue <==> x in s.dirty && x !in s.processing
  }

  lemma AddKeepsInv<T(!new)>(s: State<T>, x: T)
    requires Inv(s)
    ensures Inv(Added(s, x))
    ensures !s.shuttingDown ==> x in Added(s, x).dirty
  {
  }

  lemma GetKeepsInv<T(!new)>(s: State<T>)
    requires Inv(s) && s.queue != []
    ensures Inv(Taken(s))
    ensures s.queue[0] in s.dirty && s.queue[0] !in s.processing
  {
    var s' := Taken(s);
    assert forall x :: x in s.queue <==> x == s.queue[0] || x in s'.queue;
    assert s.queue[0] !in s'.queue;
  }

  /** Done keeps the invariant exactly when the item is being processed, or at least not waiting in the queue. */
  lemma DoneKeepsInv<T(!new)>(s: State<T>, x: T)
    requires Inv(s)
    ensures Inv(Finished(s, x)) <==> x in s.processing || x !in s.dirty
  {
    var s' := Finished(s, x);
    if x in s.dirty && x !in s.processing {
      var i :| 0 <= i < |s.queue| && s.queue[i] == x;
      assert s'.queue[i] == s'.queue[|s.queue|];
    }
  }

  /** What is handed out before what is left, against what was there before what came. */
  lemma Regroup<T>(got: seq<T>, now: seq<T>, left: seq<T>, queue: seq<T>, put: seq<T>, all: seq<T>)
    requires now + left == queue + put && got + queue == all
    ensures (got + now) + left == all + put
  {
    assert (got + now) + left == got + (now + left);
    assert got + (queue + put) == (got + queue) + put;
  }

  // ----- The queue itself -----

  datatype GetResult<T> = Item(x: T) | MustWait | ShutDownSeen

  class Type<T(==,!new)> {
    var queue: seq<T>
    var dirty: set<T>
    var processing: set<T>
    var shuttingDown: bool
    var drain: bool

    ghost function Value(): State<T>
      reads this
    {
      State(queue, dirty, processing, shuttingDown, drain)
    }

    constructor ()
      ensures Value() == Init() && Inv(Value())
    {
      queue, dirty, processing, shuttingDown, drain := [], {}, {}, false, false;
    }

    method Add(item: T) returns (signal: bool)
      requires Inv(Value())
      modifies this
      ensures Inv(Value()) && Value() == Added(old(Value()), item)
      ensures signal == AddEnqueues(old(Value()), item)
    {
      AddKeepsInv(Value(), item);
      if shuttingDown { return false; }
      if item in dirty { return false; }
      dirty := dirty + {item};
      if item in processing { return false; }
      queue := queue + [item];
      signal := true;
    }

    /** One pass of Get's wait loop: the caller waits, leaves, or takes the item at the head. */
    method Get() returns (r: GetResult<T>)
      requires Inv(Value())
      modifies this
      ensures Inv(Value())
      ensures r.MustWait? <==> old(queue) == [] && !old(shuttingDown)
      ensures r.ShutDownSeen? <==> old(queue) == [] && old(shuttingDown)
      ensures old(queue) == [] ==> Value() == old(Value())
      ensures old(queue) != [] ==> r == Item(old(queue)[0]) && Value() == Taken(old(Value()))
      ensures r.Item? ==> r.x in old(dirty) && r.x !in old(processing)
    {
      if queue == [] {
        return if shuttingDown then ShutDownSeen else MustWait;
      }
      GetKeepsInv(Value());
      var item := queue[0];
      queue := queue[1..];
      processing := processing + {item};
      dirty := dirty - {item};
      r := Item(item);
    }

    method Done(item: T) returns (signal: bool)
      requires Inv(Value())
      modifies this
      ensures Value() == Finished(old(Value()), item)
      ensures Inv(Value()) <==> item in old(processing) || item !in old(dirty)
      ensures signal == DoneSignals(old(Value()), item)
    {
      DoneKeepsInv(Value(), item);
      processing := processing - {item};
      if item in dirty {
        queue := queue + [item];
        signal := true;
      } else {
        signal := |processing| == 0;
      }
    }
  }
}
