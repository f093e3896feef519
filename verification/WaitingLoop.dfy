/**
  The goroutine that both delaying queues run: it reads the clock, hands over what is due, waits, and
  files new requests. Each step is one clock read, one channel operation or one hand-over.
  The heap stands here as the map it implements (see WaitHeap): each waiting item and its time.
 */
module WaitingLoop {
  import opened WaitHeap
  import opened Callers

  /** A request to add an item at a time. */
  datatype Token<T> = Token(data: T, readyAt: int)

  /** Capacity of the feeding channel. */
  const CHANNEL_CAP := 1000

  datatype PC<T> =
    | Top                       // about to test for shutdown
    | Timing                    // about to read the clock
    | Firing(now: int)          // handing over the entries due at `now`
    | Select                    // waiting for a timer, a request or the stop
    | Handling(tok: Token<T>)   // a request received, not yet filed
    | Draining                  // receiving without waiting
    | Exited

  datatype Loop<T> = Loop(pc: PC<T>, ch: seq<Token<T>>, heap: map<T, int>)

  datatype LoopEvent<T> = Begin | ReadClock | Fire(x: T) | FireDone | Wake | Receive | Keep | Deliver | Drained | Exit

  function Idle<T>(): Loop<T> {
    Loop(Top, [], map[])
  }

  ghost predicate IsFirst<T(!new)>(heap: map<T, int>, x: T) {
    x in heap && forall y :: y in heap ==> heap[x] <= heap[y]
  }

  ghost predicate LoopEnabled<T(!new)>(l: Loop<T>, e: LoopEvent<T>, clock: int, shuttingDown: bool, stopped: bool) {
    match e
    case Begin => l.pc.Top? && !shuttingDown
    case ReadClock => l.pc.Timing?
    case Fire(x) => l.pc.Firing? && IsFirst(l.heap, x) && l.heap[x] <= l.pc.now
    case FireDone => l.pc.Firing? && forall y :: y in l.heap ==> l.pc.now < l.heap[y]
    case Wake => l.pc.Select?
    case Receive => (l.pc.Select? || l.pc.Draining?) && l.ch != []
    case Keep => l.pc.Handling? && clock < l.pc.tok.readyAt
    case Deliver => l.pc.Handling? && l.pc.tok.readyAt <= clock
    case Drained => l.pc.Draining? && l.ch == []
    case Exit => (l.pc.Top? && shuttingDown) || (l.pc.Select? && stopped)
  }

  function LoopAfter<T(==)>(l: Loop<T>, e: LoopEvent<T>, clock: int): Loop<T>
    requires e.Receive? ==> l.ch != []
    requires e.Keep? || e.Deliver? ==> l.pc.Handling?
  {
    match e
    case Begin => l.(pc := Timing)
    case ReadClock => l.(pc := Firing(clock))
    case Fire(x) => l.(heap := l.heap - {x})
    case FireDone => l.(pc := Select)
    case Wake => l.(pc := Top)
    case Receive => l.(pc := Handling(l.ch[0]), ch := l.ch[1..])
    case Keep => l.(pc := Draining, heap := Sooner(l.heap, l.pc.tok.data, l.pc.tok.readyAt))
    case Deliver => l.(pc := Draining)
    case Drained => l.(pc := Top)
    case Exit => l.(pc := Exited)
  }

  /** The step hands `x` over to the queue behind the loop. */
  predicate Delivers<T(==)>(l: Loop<T>, e: LoopEvent<T>, x: T) {
    (e.Fire? && e.x == x) || (e.Deliver? && l.pc.Handling? && l.pc.tok.data == x)
  }

  /** A request is with the loop: in the channel, in hand, or the time its item waits for. */
  predicate Holds<T(==)>(l: Loop<T>, tok: Token<T>) {
    || tok in l.ch
    || l.pc == Handling(tok)
    || (tok.data in l.heap && l.heap[tok.data] == tok.readyAt)
  }

  /** Some request with the loop will bring `x` no later than `readyAt`. */
  ghost predicate Covers<T(!new)>(l: Loop<T>, x: T, readyAt: int) {
    exists r :: r <= readyAt && Holds(l, Token(x, r))
  }

  /** The time the loop compares with is not in the future. */
  predicate LoopInv<T>(l: Loop<T>, clock: int) {
    l.pc.Firing? ==> l.pc.now <= clock
  }

  /** The loop invents no request. */
  lemma StepHoldsNothingNew<T(!new)>(l: Loop<T>, e: LoopEvent<T>, clock: int, down: bool, stopped: bool, tok: Token<T>)
    requires LoopEnabled(l, e, clock, down, stopped) && Holds(LoopAfter(l, e, clock), tok)
    ensures Holds(l, tok)
  {
  }

  /** The loop drops a request only by handing its item over, or for an earlier request. */
  lemma StepKeepsCover<T(!new)>(l: Loop<T>, e: LoopEvent<T>, clock: int, down: bool, stopped: bool, x: T, readyAt: int)
    requires LoopEnabled(l, e, clock, down, stopped) && Covers(l, x, readyAt)
    ensures Delivers(l, e, x) || Covers(LoopAfter(l, e, clock), x, readyAt)
  {
    var r :| r <= readyAt && Holds(l, Token(x, r));
    var l' := LoopAfter(l, e, clock);
    if Token(x, r) in l.ch && e.Receive? && Token(x, r) !in l'.ch {
      assert l.ch == [l.ch[0]] + l.ch[1..];
    }
    if !Delivers(l, e, x) {
      var r' := if x in l'.heap && l'.heap[x] <= r then l'.heap[x] else r;
      assert Holds(l', Token(x, r'));
    }
  }

  /** What the loop hands over is due. */
  lemma DeliveryIsDue<T(!new)>(l: Loop<T>, e: LoopEvent<T>, clock: int, down: bool, stopped: bool, x: T)
    requires LoopEnabled(l, e, clock, down, stopped) && LoopInv(l, clock) && Delivers(l, e, x)
    ensures Covers(l, x, clock)
  {
    var r := if e.Fire? then l.heap[x] else l.pc.tok.readyAt;
    assert Holds(l, Token(x, r));
  }

  // ----- The loop goes on, and does not spin -----

  lemma {:induction false} SomeFirst<T(!new)>(heap: map<T, int>) returns (x: T)
    requires heap != map[]
    ensures IsFirst(heap, x)
    decreases |heap|
  {
    x :| x in heap;
    var rest := heap - {x};
    assert forall y :: y in heap ==> y == x || y in rest;
    if rest != map[] {
      var y := SomeFirst(rest);
      x := if heap[x] <= heap[y] then x else y;
    }
  }

  /** Unless it has left, the loop has a next step at all times. */
  lemma NeverStuck<T(!new)>(l: Loop<T>, clock: int, down: bool, stopped: bool) returns (e: LoopEvent<T>)
    requires !l.pc.Exited?
    ensures LoopEnabled(l, e, clock, down, stopped) && (e.Wake? ==> l.pc.Select? && l.ch == [] && !stopped)
    ensures e.Exit? <==> (l.pc.Top? && down) || (l.pc.Select? && stopped)
  {
    match l.pc
    case Top => e := if down then Exit else Begin;
    case Timing => e := ReadClock;
    case Firing(now) =>
      e := FireDone;
      if exists y :: y in l.heap && l.heap[y] <= now {
        var x := SomeFirst(l.heap);
        e := Fire(x);
      }
    case Select => e := if stopped then Exit else if l.ch != [] then Receive else Wake;
    case Handling(tok) => e := if clock < tok.readyAt then Keep else Deliver;
    case Draining => e := if l.ch != [] then Receive else Drained;
  }

  /** How many steps a round has still to go at most, firings not counted. */
  function Stage<T>(pc: PC<T>): nat {
    match pc
    case Draining => 5
    case Top => 4
    case Timing => 3
    case Firing(_) => 2
    case Select => 1
    case _ => 0
  }

  /** The steps left before only a timer, or a new request, can move the loop. */
  function Effort<T>(l: Loop<T>): nat {
    8 * (2 * |l.ch| + if l.pc.Handling? then 1 else 0) + Stage(l.pc) + |l.heap|
  }

  lemma HeapSizes<T(!new)>(heap: map<T, int>, x: T, readyAt: int)
    ensures |Sooner(heap, x, readyAt)| <= |heap| + 1
    ensures x in heap ==> |heap - {x}| == |heap| - 1
  {
    assert heap[x := readyAt].Keys == heap.Keys + {x};
    assert (heap - {x}).Keys == heap.Keys - {x};
  }

  /** Every step but a timer's takes effort off. */
  lemma StepTakesEffort<T(!new)>(l: Loop<T>, e: LoopEvent<T>, clock: int, down: bool, stopped: bool)
    requires LoopEnabled(l, e, clock, down, stopped)
    ensures Effort(LoopAfter(l, e, clock)) <= Effort(l) - 1 + if e.Wake? then 4 else 0
  {
    match e
    case Fire(x) => HeapSizes(l.heap, x, 0);
    case Keep => HeapSizes(l.heap, l.pc.tok.data, l.pc.tok.readyAt);
    case _ =>
  }

  // ----- Counting requests -----

  predicate Always(readyAt: int) {
    true
  }

  /** How many requests for `x` at a time in `due` are in the list. */
  function Occurs<T(==)>(ch: seq<Token<T>>, x: T, due: int -> bool): nat {
    if ch == [] then 0 else Counts(ch[0], x, due) + Occurs(ch[1..], x, due)
  }

  function Counts<T(==)>(tok: Token<T>, x: T, due: int -> bool): nat {
    if tok.data == x && due(tok.readyAt) then 1 else 0
  }

  lemma {:induction false} OccursAppend<T(!new)>(ch: seq<Token<T>>, tok: Token<T>, x: T, due: int -> bool)
    ensures Occurs(ch + [tok], x, due) == Occurs(ch, x, due) + Counts(tok, x, due)
  {
    if ch != [] {
      OccursAppend(ch[1..], tok, x, due);
      assert (ch + [tok])[1..] == ch[1..] + [tok];
    }
  }

  lemma {:induction false} OccursWithout<T(!new)>(ch: seq<Token<T>>, i: nat, x: T, due: int -> bool)
    requires i < |ch|
    ensures Occurs(Without(ch, i), x, due) == Occurs(ch, x, due) - Counts(ch[i], x, due)
  {
    if i == 0 {
      assert Without(ch, i) == ch[1..];
    } else {
      OccursWithout(ch[1..], i - 1, x, due);
      assert Without(ch, i)[1..] == Without(ch[1..], i - 1);
    }
  }

  /** The requests for `x` at a time in `due` with the loop, those merged in the heap counted once. */
  function Outstanding<T(==)>(l: Loop<T>, x: T, due: int -> bool): nat {
    Occurs(l.ch, x, due) + (if l.pc.Handling? then Counts(l.pc.tok, x, due) else 0)
    + (if x in l.heap && due(l.heap[x]) then 1 else 0)
  }

  /** Each hand-over uses up a request whose time has come. */
  lemma StepUsesRequests<T(!new)>(
    l: Loop<T>, e: LoopEvent<T>, clock: int, down: bool, stopped: bool, x: T, due: int -> bool)
    requires LoopEnabled(l, e, clock, down, stopped) && LoopInv(l, clock) && forall r :: r <= clock ==> due(r)
    ensures Outstanding(LoopAfter(l, e, clock), x, due) + (if Delivers(l, e, x) then 1 else 0) <= Outstanding(l, x, due)
  {
  }
}
