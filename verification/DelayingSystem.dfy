/**
  Whole runs of the delaying queue: callers, the waiting loop and a clock that only moves forward,
  in every interleaving.
 */
module DelayingSystem {
  import opened WorkQueue
  import opened WaitingLoop
  import opened Callers

  /** `sending` holds the requests of AddAfter callers that are about to send; `stopped` is the closed stop channel. */
  datatype Sys<T> = Sys(q: State<T>, loop: Loop<T>, clock: int, sending: seq<Token<T>>, stopped: bool)

  /**
    `Request` is AddAfter up to the reading of the clock; a call may get past its own test for shutdown at
    any time, so the step is always open. `Send` and `Abandon` name the caller by its place in `sending`.
   */
  datatype Event<T> =
    | Tick(to: int)
    | Request(x: T, delay: int)
    | Send(i: nat)
    | Abandon(i: nat)
    | LoopStep(e: LoopEvent<T>)
    | Add(x: T)
    | Get(x: T)
    | Done(x: T)
    | ShutDown
    | Close

  function Start<T>(clock: int): Sys<T> {
    Sys(Init(), Idle(), clock, [], false)
  }

  ghost predicate Enabled<T(!new)>(s: Sys<T>, e: Event<T>) {
    match e
    case Tick(to) => s.clock <= to
    case Request(_, _) => true
    case Send(i) => i < |s.sending| && |s.loop.ch| < CHANNEL_CAP
    case Abandon(i) => i < |s.sending| && s.stopped
    case LoopStep(le) => LoopEnabled(s.loop, le, s.clock, s.q.shuttingDown, s.stopped)
    case Add(_) => true
    case Get(x) => s.q.queue != [] && s.q.queue[0] == x
    case Done(x) => x in s.q.processing
    case ShutDown => true
    case Close => s.q.shuttingDown
  }

  ghost predicate LoopDelivers<T(!new)>(s: Sys<T>, e: Event<T>, x: T) {
    e.LoopStep? && Delivers(s.loop, e.e, x)
  }

  function LoopAdds<T(==)>(q: State<T>, l: Loop<T>, le: LoopEvent<T>): State<T> {
    match le
    case Fire(x) => Added(q, x)
    case Deliver => if l.pc.Handling? then Added(q, l.pc.tok.data) else q
    case _ => q
  }

  ghost function After<T(!new)>(s: Sys<T>, e: Event<T>): Sys<T>
    requires Enabled(s, e)
  {
    match e
    case Tick(to) => s.(clock := to)
    case Request(x, delay) =>
      if delay <= 0 then s.(q := Added(s.q, x))
      else s.(sending := s.sending + [Token(x, s.clock + delay)])
    case Send(i) => s.(sending := Without(s.sending, i), loop := s.loop.(ch := s.loop.ch + [s.sending[i]]))
    case Abandon(i) => s.(sending := Without(s.sending, i))
    case LoopStep(le) => s.(loop := LoopAfter(s.loop, le, s.clock), q := LoopAdds(s.q, s.loop, le))
    case Add(x) => s.(q := Added(s.q, x))
    case Get(_) => s.(q := Taken(s.q))
    case Done(x) => s.(q := Finished(s.q, x))
    case ShutDown => s.(q := s.q.(shuttingDown := true))
    case Close => s.(stopped := true)
  }

  ghost predicate IsRun<T(!new)>(ss: seq<Sys<T>>, es: seq<Event<T>>) {
    && |ss| == |es| + 1 && ss[0] == Start(ss[0].clock)
    && forall i {:trigger es[i]} :: 0 <= i < |es| ==> Enabled(ss[i], es[i]) && ss[i + 1] == After(ss[i], es[i])
  }

  lemma StepAt<T(!new)>(ss: seq<Sys<T>>, es: seq<Event<T>>, n: nat)
    requires IsRun(ss, es) && n < |es|
    ensures Enabled(ss[n], es[n]) && ss[n + 1] == After(ss[n], es[n])
  {
  }

  ghost predicate SysInv<T(!new)>(s: Sys<T>) {
    Inv(s.q) && LoopInv(s.loop, s.clock) && (s.stopped ==> s.q.shuttingDown)
  }

  lemma StepKeepsInv<T(!new)>(s: Sys<T>, e: Event<T>)
    requires SysInv(s) && Enabled(s, e)
    ensures SysInv(After(s, e)) && s.clock <= After(s, e).clock
    ensures s.q.shuttingDown ==> After(s, e).q.shuttingDown
  {
    match e
    case Request(x, _) => AddKeepsInv(s.q, x);
    case LoopStep(le) =>
      if le.Fire? {
        AddKeepsInv(s.q, le.x);
      } else if le.Deliver? {
        AddKeepsInv(s.q, s.loop.pc.tok.data);
      }
    case Add(x) => AddKeepsInv(s.q, x);
    case Get(_) => GetKeepsInv(s.q);
    case Done(x) => DoneKeepsInv(s.q, x);
    case _ =>
  }

  lemma {:induction false} RunKeepsInv<T(!new)>(ss: seq<Sys<T>>, es: seq<Event<T>>, n: nat)
    requires IsRun(ss, es) && n <= |es|
    ensures SysInv(ss[n])
  {
    if n > 0 {
      RunKeepsInv(ss, es, n - 1);
      StepAt(ss, es, n - 1);
      StepKeepsInv(ss[n - 1], es[n - 1]);
    }
  }

  // ----- Nothing is lost -----

  predicate GetsItem<T(==)>(e: Event<T>, x: T) {
    e.Get? && e.x == x
  }

  /** A request for `x` at `readyAt` is on its way: with its caller, or covered by the loop. */
  ghost predicate OnItsWay<T(!new)>(s: Sys<T>, x: T, readyAt: int) {
    Token(x, readyAt) in s.sending || Covers(s.loop, x, readyAt)
  }

  lemma SendKeepsTokens<T(!new)>(s: Sys<T>, i: nat, x: T, readyAt: int)
    requires Enabled(s, Send(i)) && OnItsWay(s, x, readyAt)
    ensures OnItsWay(After(s, Send(i)), x, readyAt)
  {
    var s' := After(s, Send(i));
    WithoutKeeps(s.sending, i, Token(x, readyAt));
    assert s'.loop.ch[|s.loop.ch|] == s.sending[i];
    if Covers(s.loop, x, readyAt) {
      var r :| r <= readyAt && Holds(s.loop, Token(x, r));
      assert Holds(s'.loop, Token(x, r));
    } else if Token(x, readyAt) !in s'.sending {
      assert Holds(s'.loop, Token(x, readyAt));
    }
  }

  /** While the queue is open a request goes only when the loop hands its item over. */
  lemma StepKeepsOnItsWay<T(!new)>(s: Sys<T>, e: Event<T>, x: T, readyAt: int)
    requires SysInv(s) && Enabled(s, e) && !s.q.shuttingDown && OnItsWay(s, x, readyAt)
    ensures OnItsWay(After(s, e), x, readyAt) || LoopDelivers(s, e, x)
  {
    if e.LoopStep? && Covers(s.loop, x, readyAt) {
      StepKeepsCover(s.loop, e.e, s.clock, s.q.shuttingDown, s.stopped, x, readyAt);
    } else if e.Send? {
      SendKeepsTokens(s, e.i, x, readyAt);
    }
  }

  /** A positive delay puts the request on its way; otherwise the item is dirty at once. */
  lemma RequestBegins<T(!new)>(s: Sys<T>, x: T, delay: int)
    requires !s.q.shuttingDown
    ensures delay > 0 ==> OnItsWay(After(s, Request(x, delay)), x, s.clock + delay)
    ensures delay <= 0 ==> x in After(s, Request(x, delay)).q.dirty
  {
    if delay > 0 {
      assert After(s, Request(x, delay)).sending[|s.sending|] == Token(x, s.clock + delay);
    }
  }

  lemma StaysOpen<T(!new)>(ss: seq<Sys<T>>, es: seq<Event<T>>, n: nat)
    requires IsRun(ss, es) && 0 < n <= |es| && !ss[n].q.shuttingDown
    ensures SysInv(ss[n - 1]) && Enabled(ss[n - 1], es[n - 1]) && ss[n] == After(ss[n - 1], es[n - 1])
    ensures !ss[n - 1].q.shuttingDown
  {
    RunKeepsInv(ss, es, n - 1);
    StepAt(ss, es, n - 1);
    StepKeepsInv(ss[n - 1], es[n - 1]);
  }

  ghost predicate GotSince<T(!new)>(es: seq<Event<T>>, x: T, i: nat, n: nat)
    requires n <= |es|
  {
    exists k :: i <= k < n && GetsItem(es[k], x)
  }

  /** An item that is dirty in the open queue stays so until a Get hands it out. */
  lemma {:induction false} DirtyUntilGet<T(!new)>(ss: seq<Sys<T>>, es: seq<Event<T>>, x: T, i: nat, n: nat)
    requires IsRun(ss, es) && i <= n <= |es| && x in ss[i].q.dirty && !ss[n].q.shuttingDown
    ensures x in ss[n].q.dirty || GotSince(es, x, i, n)
    decreases n
  {
    if i < n {
      StaysOpen(ss, es, n);
      DirtyUntilGet(ss, es, x, i, n - 1);
      if GotSince(es, x, i, n - 1) {
        var k :| i <= k < n - 1 && GetsItem(es[k], x);
        assert GetsItem(es[k], x);
      } else {
        assert x in ss[n].q.dirty || GetsItem(es[n - 1], x);
      }
    }
  }

  ghost predicate DeliveredSince<T(!new)>(ss: seq<Sys<T>>, es: seq<Event<T>>, x: T, i: nat, n: nat)
    requires n <= |es| < |ss|
  {
    exists k :: i <= k < n && LoopDelivers(ss[k], es[k], x)
  }

  lemma {:induction false} OnItsWayUntilDelivery<T(!new)>(
    ss: seq<Sys<T>>, es: seq<Event<T>>, x: T, readyAt: int, i: nat, n: nat)
    requires IsRun(ss, es) && i <= n <= |es| && OnItsWay(ss[i], x, readyAt) && !ss[n].q.shuttingDown
    ensures OnItsWay(ss[n], x, readyAt) || DeliveredSince(ss, es, x, i, n)
    decreases n
  {
    if i < n {
      StaysOpen(ss, es, n);
      OnItsWayUntilDelivery(ss, es, x, readyAt, i, n - 1);
      if DeliveredSince(ss, es, x, i, n - 1) {
        var k :| i <= k < n - 1 && LoopDelivers(ss[k], es[k], x);
        assert LoopDelivers(ss[k], es[k], x);
      } else {
        StepKeepsOnItsWay(ss[n - 1], es[n - 1], x, readyAt);
      }
    }
  }

  /** After the step at `k` the item became dirty, and it is still, or was handed to a consumer since. */
  ghost predicate ServedFrom<T(!new)>(ss: seq<Sys<T>>, es: seq<Event<T>>, x: T, k: nat, n: nat)
    requires k < n <= |es| < |ss|
  {
    x in ss[k + 1].q.dirty && (x in ss[n].q.dirty || GotSince(es, x, k + 1, n))
  }

  lemma {:induction false} OpenBefore<T(!new)>(ss: seq<Sys<T>>, es: seq<Event<T>>, k: nat, n: nat)
    requires IsRun(ss, es) && k <= n <= |es| && !ss[n].q.shuttingDown
    ensures !ss[k].q.shuttingDown
    decreases n
  {
    if k < n {
      StaysOpen(ss, es, n);
      OpenBefore(ss, es, k, n - 1);
    }
  }

  lemma DeliveryServes<T(!new)>(ss: seq<Sys<T>>, es: seq<Event<T>>, x: T, k: nat, n: nat)
    requires IsRun(ss, es) && k < n <= |es| && !ss[n].q.shuttingDown && LoopDelivers(ss[k], es[k], x)
    ensures ServedFrom(ss, es, x, k, n)
  {
    OpenBefore(ss, es, k + 1, n);
    StaysOpen(ss, es, k + 1);
    DirtyUntilGet(ss, es, x, k + 1, n);
  }

  /**
    Until shutdown no request is lost, also one for an item that is dirty already. A request with a delay is with
    its caller, or with the loop for a time no later, until the loop hands its item over after the request; from
    then on the item is dirty until a Get. One without a delay makes the item dirty itself.
   */
  lemma DelayedRequestNotLost<T(!new)>(ss: seq<Sys<T>>, es: seq<Event<T>>, i: nat, n: nat)
    requires IsRun(ss, es) && i < n <= |es| && es[i].Request? && !ss[n].q.shuttingDown
    ensures es[i].delay > 0 ==>
      || OnItsWay(ss[n], es[i].x, ss[i].clock + es[i].delay)
      || exists k :: i < k < n && LoopDelivers(ss[k], es[k], es[i].x) && ServedFrom(ss, es, es[i].x, k, n)
    ensures es[i].delay <= 0 ==> ServedFrom(ss, es, es[i].x, i, n)
  {
    var x := es[i].x;
    if es[i].delay > 0 {
      OpenBefore(ss, es, i + 1, n);
      StaysOpen(ss, es, i + 1);
      RequestBegins(ss[i], x, es[i].delay);
      OnItsWayUntilDelivery(ss, es, x, ss[i].clock + es[i].delay, i + 1, n);
      if !OnItsWay(ss[n], x, ss[i].clock + es[i].delay) {
        var k :| i < k < n && LoopDelivers(ss[k], es[k], x);
        DeliveryServes(ss, es, x, k, n);
      }
    } else {
      OpenBefore(ss, es, i + 1, n);
      StaysOpen(ss, es, i + 1);
      RequestBegins(ss[i], x, es[i].delay);
      DirtyUntilGet(ss, es, x, i + 1, n);
    }
  }

  // ----- An item waits for the earliest time asked of the loop -----

  /** The loop files a request for `x` in the heap. */
  predicate Files<T(==)>(s: Sys<T>, e: Event<T>, x: T) {
    e.LoopStep? && e.e.Keep? && s.loop.pc.Handling? && s.loop.pc.tok.data == x
  }

  function FiledTime<T(==)>(s: Sys<T>, e: Event<T>, x: T): int
    requires Files(s, e, x)
  {
    s.loop.pc.tok.readyAt
  }

  /** Step `i` put `x` in the heap, and it has been there up to state `n`. */
  ghost predicate WaitingSince<T(!new)>(ss: seq<Sys<T>>, x: T, i: nat, n: nat) {
    i < n < |ss| && x !in ss[i].loop.heap && forall m :: i < m <= n ==> x in ss[m].loop.heap
  }

  /** What one step may do to the time `x` waits for. */
  ghost predicate HeapStep<T(!new)>(s: Sys<T>, e: Event<T>, s': Sys<T>, x: T) {
    x in s'.loop.heap ==>
      && (x !in s.loop.heap ==> Files(s, e, x))
      && s'.loop.heap[x] ==
         if !Files(s, e, x) then s.loop.heap[x]
         else if x in s.loop.heap && s.loop.heap[x] <= FiledTime(s, e, x) then s.loop.heap[x] else FiledTime(s, e, x)
  }

  lemma StepOnHeap<T(!new)>(s: Sys<T>, e: Event<T>, x: T)
    requires Enabled(s, e)
    ensures HeapStep(s, e, After(s, e), x)
  {
  }

  /** The time `x` waits for was filed at step `w`, and no time filed since step `i` is less. */
  ghost predicate LeastSince<T(!new)>(ss: seq<Sys<T>>, es: seq<Event<T>>, x: T, i: nat, w: nat, n: nat)
    requires n <= |es| < |ss| && x in ss[n].loop.heap
  {
    && i <= w < n && Files(ss[w], es[w], x) && FiledTime(ss[w], es[w], x) == ss[n].loop.heap[x]
    && forall m {:trigger es[m]} :: i <= m < n && Files(ss[m], es[m], x) ==> ss[n].loop.heap[x] <= FiledTime(ss[m], es[m], x)
  }

  lemma {:induction false} LeastFiled<T(!new)>(ss: seq<Sys<T>>, es: seq<Event<T>>, x: T, i: nat, n: nat) returns (w: nat)
    requires n <= |es| < |ss| && WaitingSince(ss, x, i, n)
    requires forall m {:trigger es[m]} :: i <= m < n ==> HeapStep(ss[m], es[m], ss[m + 1], x)
    ensures LeastSince(ss, es, x, i, w, n)
    decreases n
  {
    assert HeapStep(ss[n - 1], es[n - 1], ss[n], x);
    w := n - 1;
    if n > i + 1 {
      var v := LeastFiled(ss, es, x, i, n - 1);
      if ss[n].loop.heap[x] == ss[n - 1].loop.heap[x] {
        w := v;
      }
    }
  }

  lemma {:induction false} WaitingHasBegun<T(!new)>(ss: seq<Sys<T>>, es: seq<Event<T>>, x: T, n: nat) returns (i: nat)
    requires IsRun(ss, es) && n <= |es| && x in ss[n].loop.heap
    ensures WaitingSince(ss, x, i, n)
  {
    if x !in ss[n - 1].loop.heap {
      i := n - 1;
    } else {
      i := WaitingHasBegun(ss, es, x, n - 1);
    }
  }

  /** Each item in the heap waits for the least of the times filed for it since it came in, one of them. */
  lemma WaitsForMinimum<T(!new)>(ss: seq<Sys<T>>, es: seq<Event<T>>, x: T, n: nat)
    requires IsRun(ss, es) && n <= |es| && x in ss[n].loop.heap
    ensures exists i: nat, w: nat :: WaitingSince(ss, x, i, n) && LeastSince(ss, es, x, i, w, n)
  {
    var i := WaitingHasBegun(ss, es, x, n);
    forall m | i <= m < n
      ensures HeapStep(ss[m], es[m], ss[m + 1], x)
    {
      StepAt(ss, es, m);
      StepOnHeap(ss[m], es[m], x);
    }
    var w := LeastFiled(ss, es, x, i, n);
  }

  // ----- Nothing is early -----

  /** The copies of `x` that will come up for a Get: dirty in the queue, or requested for a time in `due`. */
  function Coming<T(==)>(s: Sys<T>, x: T, due: int -> bool): nat {
    (if x in s.q.dirty then 1 else 0) + Occurs(s.sending, x, due) + Outstanding(s.loop, x, due)
  }

  /** The step asks for `x`, now or at a time in `due`. */
  predicate Asks<T(==)>(s: Sys<T>, e: Event<T>, x: T, due: int -> bool) {
    (e.Add? && e.x == x) || (e.Request? && e.x == x && due(s.clock + e.delay))
  }

  lemma StepOnComing<T(!new)>(s: Sys<T>, e: Event<T>, x: T, due: int -> bool)
    requires SysInv(s) && Enabled(s, e) && forall r :: r <= s.clock ==> due(r)
    ensures Coming(After(s, e), x, due) <=
      Coming(s, x, due) + (if Asks(s, e, x, due) then 1 else 0) - (if GetsItem(e, x) then 1 else 0)
  {
    match e
    case Request(y, delay) =>
      if delay > 0 {
        OccursAppend(s.sending, Token(y, s.clock + delay), x, due);
      }
    case Send(i) =>
      OccursWithout(s.sending, i, x, due);
      OccursAppend(s.loop.ch, s.sending[i], x, due);
    case Abandon(i) => OccursWithout(s.sending, i, x, due);
    case LoopStep(le) => StepUsesRequests(s.loop, le, s.clock, s.q.shuttingDown, s.stopped, x, due);
    case Get(_) => GetKeepsInv(s.q);
    case _ =>
  }

  ghost function Gets<T(!new)>(es: seq<Event<T>>, x: T, n: nat): nat
    requires n <= |es|
  {
    if n == 0 then 0 else Gets(es, x, n - 1) + if GetsItem(es[n - 1], x) then 1 else 0
  }

  ghost function Asked<T(!new)>(ss: seq<Sys<T>>, es: seq<Event<T>>, x: T, due: int -> bool, n: nat): nat
    requires n <= |es| <= |ss|
  {
    if n == 0 then 0 else Asked(ss, es, x, due, n - 1) + if Asks(ss[n - 1], es[n - 1], x, due) then 1 else 0
  }

  /** All Gets of an item, and all copies still coming, were asked for, each by a call of its own. */
  lemma {:induction false} RunAllAsked<T(!new)>(ss: seq<Sys<T>>, es: seq<Event<T>>, x: T, due: int -> bool, n: nat)
    requires IsRun(ss, es) && n <= |es| && forall r :: r <= ss[n].clock ==> due(r)
    ensures Gets(es, x, n) + Coming(ss[n], x, due) <= Asked(ss, es, x, due, n)
  {
    if n > 0 {
      RunKeepsInv(ss, es, n - 1);
      StepAt(ss, es, n - 1);
      StepKeepsInv(ss[n - 1], es[n - 1]);
      RunAllAsked(ss, es, x, due, n - 1);
      StepOnComing(ss[n - 1], es[n - 1], x, due);
    }
  }

  function By(clock: int): int -> bool {
    readyAt => readyAt <= clock
  }

  /** Consumers get an item at most as often as it was added, or asked for at a time that has come. */
  lemma NeverEarly<T(!new)>(ss: seq<Sys<T>>, es: seq<Event<T>>, x: T, n: nat)
    requires IsRun(ss, es) && n <= |es|
    ensures Gets(es, x, n) <= Asked(ss, es, x, By(ss[n].clock), n)
  {
    RunAllAsked(ss, es, x, By(ss[n].clock), n);
  }

  // ----- Shutdown -----

  /** After ShutDown nothing becomes dirty any more, whatever callers and the loop still do. */
  lemma {:induction false} ShutDownStopsAdds<T(!new)>(ss: seq<Sys<T>>, es: seq<Event<T>>, i: nat, n: nat)
    requires IsRun(ss, es) && i < n <= |es| && es[i].ShutDown?
    ensures ss[n].q.shuttingDown && ss[n].q.dirty <= ss[i].q.dirty
    decreases n
  {
    StepAt(ss, es, n - 1);
    if n > i + 1 {
      ShutDownStopsAdds(ss, es, i, n - 1);
    }
  }

  /** The stop channel is closed only once the queue is shut, and only then are requests given up. */
  lemma GivenUpOnlyWhenShut<T(!new)>(ss: seq<Sys<T>>, es: seq<Event<T>>, n: nat)
    requires IsRun(ss, es) && n < |es| && (es[n].Abandon? || (es[n].LoopStep? && es[n].e.Exit?))
    ensures ss[n].q.shuttingDown
  {
    RunKeepsInv(ss, es, n);
    StepAt(ss, es, n);
  }
}
