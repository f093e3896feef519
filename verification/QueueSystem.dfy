/**
  Whole runs of the work queue: any number of producers, consumers and drainers, each lock-held
  section one step, in every interleaving.
 */
module QueueSystem {
  import opened WorkQueue
  import opened Waiters

  /** `stopping` counts ShutDown callers that have cleared the drain flag and not yet shut the queue down. */
  datatype Sys<T> = Sys(q: State<T>, w: Waits, stopping: nat)

  datatype Event<T> =
    | Add(x: T, wake: Wake)
    | Get(x: T, arriving: bool)
    | Sleep(arriving: bool)
    | Quit(arriving: bool)
    | Done(x: T, wake: Wake)
    | StopBegin
    | StopShutdown
    | DrainBegin
    | DrainShutdown
    | Drain(step: DrainStep)

  function Start<T>(): Sys<T> {
    Sys(Init(), NoWaits(), 0)
  }

  /** Done is called only on an item that is being processed, as the queue asks of its callers. */
  predicate Enabled<T(==)>(s: Sys<T>, e: Event<T>) {
    match e
    case Add(x, wake) => AddEnqueues(s.q, x) ==> CanWake(s.w, wake)
    case Get(x, arriving) => GetterRuns(s.w, arriving) && s.q.queue != [] && s.q.queue[0] == x
    case Sleep(arriving) => GetterRuns(s.w, arriving) && s.q.queue == [] && !s.q.shuttingDown
    case Quit(arriving) => GetterRuns(s.w, arriving) && s.q.queue == [] && s.q.shuttingDown
    case Done(x, wake) => x in s.q.processing && (DoneSignals(s.q, x) ==> CanWake(s.w, wake))
    case StopBegin => true
    case StopShutdown => s.stopping > 0
    case DrainBegin => true
    case DrainShutdown => s.w.starting > 0
    case Drain(step) => DrainEnabled(s.w, step)
  }

  function After<T(==)>(s: Sys<T>, e: Event<T>): Sys<T>
    requires Enabled(s, e)
  {
    match e
    case Add(x, wake) => s.(q := Added(s.q, x), w := SignalledIf(s.w, AddEnqueues(s.q, x), wake))
    case Get(x, arriving) => s.(q := Taken(s.q), w := GetterLeft(s.w, arriving))
    case Sleep(arriving) => s.(w := GetterSlept(s.w, arriving))
    case Quit(arriving) => s.(w := GetterLeft(s.w, arriving))
    case Done(x, wake) => s.(q := Finished(s.q, x), w := SignalledIf(s.w, DoneSignals(s.q, x), wake))
    case StopBegin => s.(q := s.q.(drain := false), stopping := s.stopping + 1)
    case StopShutdown => s.(q := s.q.(shuttingDown := true), w := Broadcasted(s.w), stopping := s.stopping - 1)
    case DrainBegin => s.(q := s.q.(drain := true), w := s.w.(starting := s.w.starting + 1))
    case DrainShutdown =>
      var w := Broadcasted(s.w);
      s.(q := s.q.(shuttingDown := true), w := w.(starting := w.starting - 1, checking := w.checking + 1))
    case Drain(step) => s.(w := DrainStepped(s.w, step, s.q.processing != {}, s.q.drain))
  }

  /** `ss` are the states and `es` the steps of a run from `start`. */
  ghost predicate IsRun<T(!new)>(start: Sys<T>, ss: seq<Sys<T>>, es: seq<Event<T>>) {
    && |ss| == |es| + 1 && ss[0] == start
    && forall i {:trigger es[i]} :: 0 <= i < |es| ==> Enabled(ss[i], es[i]) && ss[i + 1] == After(ss[i], es[i])
  }

  lemma StepAt<T(!new)>(start: Sys<T>, ss: seq<Sys<T>>, es: seq<Event<T>>, n: nat)
    requires IsRun(start, ss, es) && n < |es|
    ensures Enabled(ss[n], es[n]) && ss[n + 1] == After(ss[n], es[n])
  {
  }

  // ----- What every reachable state keeps -----

  ghost predicate SysInv<T(!new)>(s: Sys<T>) {
    Inv(s.q) && WakeInv(s.w, |s.q.queue|, s.q.shuttingDown)
  }

  lemma StepKeepsInv<T(!new)>(s: Sys<T>, e: Event<T>)
    requires SysInv(s) && Enabled(s, e)
    ensures SysInv(After(s, e))
  {
    match e
    case Add(x, _) => AddKeepsInv(s.q, x);
    case Get(_, _) => GetKeepsInv(s.q);
    case Done(x, _) => DoneKeepsInv(s.q, x);
    case _ =>
  }

  lemma {:induction false} RunKeepsInv<T(!new)>(start: Sys<T>, ss: seq<Sys<T>>, es: seq<Event<T>>, n: nat)
    requires IsRun(start, ss, es) && SysInv(start) && n <= |es|
    ensures SysInv(ss[n])
  {
    if n > 0 {
      RunKeepsInv(start, ss, es, n - 1);
      StepKeepsInv(ss[n - 1], es[n - 1]);
    }
  }

  /**
    No lost wakeup: a consumer sleeps only while the queue is open and each queued item has a woken
    consumer on its way, and the shared condition never holds sleepers of both kinds.
   */
  lemma NoLostWakeup<T(!new)>(ss: seq<Sys<T>>, es: seq<Event<T>>, n: nat)
    requires IsRun(Start(), ss, es) && n <= |es|
    ensures ss[n].w.getAsleep > 0 ==> |ss[n].q.queue| <= ss[n].w.getWoken && !ss[n].q.shuttingDown
    ensures ss[n].w.getAsleep == 0 || ss[n].w.drainAsleep == 0
  {
    RunKeepsInv(Start(), ss, es, n);
  }

  // ----- Fair: items leave in the order they were put on the queue -----

  /** What a step puts at the end of the queue. */
  function Enqueued<T(==)>(s: Sys<T>, e: Event<T>): seq<T> {
    match e
    case Add(x, _) => if AddEnqueues(s.q, x) then [x] else []
    case Done(x, _) => if x in s.q.dirty then [x] else []
    case _ => []
  }

  ghost function AppendOrder<T(!new)>(ss: seq<Sys<T>>, es: seq<Event<T>>, n: nat): seq<T>
    requires n <= |es| <= |ss|
  {
    if n == 0 then [] else AppendOrder(ss, es, n - 1) + Enqueued(ss[n - 1], es[n - 1])
  }

  ghost function GetOrder<T(!new)>(es: seq<Event<T>>, n: nat): seq<T>
    requires n <= |es|
  {
    if n == 0 then [] else GetOrder(es, n - 1) + (if es[n - 1].Get? then [es[n - 1].x] else [])
  }

  lemma StepMovesQueue<T(!new)>(s: Sys<T>, e: Event<T>)
    requires Enabled(s, e)
    ensures (if e.Get? then [e.x] else []) + After(s, e).q.queue == s.q.queue + Enqueued(s, e)
  {
  }

  /** The items handed out so far, then the queue, are exactly the items ever put on the queue, in order. */
  lemma {:induction false} FirstInFirstOut<T(!new)>(ss: seq<Sys<T>>, es: seq<Event<T>>, n: nat)
    requires IsRun(Start(), ss, es) && n <= |es|
    ensures GetOrder(es, n) + ss[n].q.queue == AppendOrder(ss, es, n)
  {
    if n > 0 {
      FirstInFirstOut(ss, es, n - 1);
      StepMovesQueue(ss[n - 1], es[n - 1]);
      Regroup(GetOrder(es, n - 1), if es[n - 1].Get? then [es[n - 1].x] else [], ss[n].q.queue,
              ss[n - 1].q.queue, Enqueued(ss[n - 1], es[n - 1]), AppendOrder(ss, es, n - 1));
    }
  }

  // ----- Stingy: one holder for each item, and one Get for many Adds -----

  ghost function Gets<T(!new)>(es: seq<Event<T>>, x: T, n: nat): nat
    requires n <= |es|
  {
    if n == 0 then 0 else Gets(es, x, n - 1) + (if GetsItem(es[n - 1], x) then 1 else 0)
  }

  ghost function Dones<T(!new)>(es: seq<Event<T>>, x: T, n: nat): nat
    requires n <= |es|
  {
    if n == 0 then 0 else Dones(es, x, n - 1) + (if DonesItem(es[n - 1], x) then 1 else 0)
  }

  predicate GetsItem<T(==)>(e: Event<T>, x: T) {
    e.Get? && e.x == x
  }

  predicate DonesItem<T(==)>(e: Event<T>, x: T) {
    e.Done? && e.x == x
  }

  /** An Add that the queue takes: it is not shutting down. */
  predicate AcceptsAdd<T(==)>(s: Sys<T>, e: Event<T>, x: T) {
    e.Add? && e.x == x && !s.q.shuttingDown
  }

  /** What one step can do to one item. */
  lemma StepOnItem<T(!new)>(s: Sys<T>, e: Event<T>, x: T)
    requires SysInv(s) && Enabled(s, e)
    ensures GetsItem(e, x) ==> x in s.q.dirty && x !in s.q.processing
    ensures DonesItem(e, x) ==> x in s.q.processing
    ensures x in After(s, e).q.processing <==> GetsItem(e, x) || (x in s.q.processing && !DonesItem(e, x))
    ensures x in After(s, e).q.dirty <==> AcceptsAdd(s, e, x) || (x in s.q.dirty && !GetsItem(e, x))
  {
    if e.Get? {
      GetKeepsInv(s.q);
    }
  }

  lemma RunOnItem<T(!new)>(ss: seq<Sys<T>>, es: seq<Event<T>>, x: T, n: nat)
    requires IsRun(Start(), ss, es) && n < |es|
    ensures GetsItem(es[n], x) ==> x in ss[n].q.dirty && x !in ss[n].q.processing
    ensures DonesItem(es[n], x) ==> x in ss[n].q.processing
    ensures x in ss[n + 1].q.processing <==> GetsItem(es[n], x) || (x in ss[n].q.processing && !DonesItem(es[n], x))
    ensures x in ss[n + 1].q.dirty <==> AcceptsAdd(ss[n], es[n], x) || (x in ss[n].q.dirty && !GetsItem(es[n], x))
  {
    RunKeepsInv(Start(), ss, es, n);
    StepAt(Start(), ss, es, n);
    StepOnItem(ss[n], es[n], x);
  }

  /** The Gets of an item not yet matched by a Done are one or none: nobody else holds an item being processed. */
  lemma {:induction false} OneHolder<T(!new)>(ss: seq<Sys<T>>, es: seq<Event<T>>, x: T, n: nat)
    requires IsRun(Start(), ss, es) && n <= |es|
    ensures Gets(es, x, n) == Dones(es, x, n) + if x in ss[n].q.processing then 1 else 0
  {
    if n > 0 {
      OneHolder(ss, es, x, n - 1);
      RunOnItem(ss, es, x, n - 1);
    }
  }

  ghost predicate GotBetween<T(!new)>(es: seq<Event<T>>, x: T, i: nat, n: nat)
    requires n <= |es|
  {
    exists k :: i < k < n && GetsItem(es[k], x)
  }

  /** Each accepted Add is followed by a Get of the item, or the item is still dirty. */
  lemma {:induction false} AddIsNotLost<T(!new)>(ss: seq<Sys<T>>, es: seq<Event<T>>, x: T, i: nat, n: nat)
    requires IsRun(Start(), ss, es) && i < n <= |es| && AcceptsAdd(ss[i], es[i], x)
    ensures x in ss[n].q.dirty || GotBetween(es, x, i, n)
  {
    RunOnItem(ss, es, x, n - 1);
    if n > i + 1 {
      AddIsNotLost(ss, es, x, i, n - 1);
      if x !in ss[n - 1].q.dirty {
        var k :| i < k < n - 1 && GetsItem(es[k], x);
        assert GotBetween(es, x, i, n);
      }
    }
  }

  lemma {:induction false} HeldUntilDone<T(!new)>(ss: seq<Sys<T>>, es: seq<Event<T>>, x: T, i: nat, n: nat)
    requires IsRun(Start(), ss, es) && i < n <= |es| && GetsItem(es[i], x)
    requires forall k {:trigger es[k]} :: i < k < n ==> !DonesItem(es[k], x)
    ensures x in ss[n].q.processing
  {
    RunOnItem(ss, es, x, n - 1);
    if n > i + 1 {
      HeldUntilDone(ss, es, x, i, n - 1);
    }
  }

  lemma {:induction false} CleanUntilAdd<T(!new)>(ss: seq<Sys<T>>, es: seq<Event<T>>, x: T, i: nat, n: nat)
    requires IsRun(Start(), ss, es) && i < n <= |es| && GetsItem(es[i], x)
    requires forall k {:trigger es[k]} :: i < k < n ==> !AcceptsAdd(ss[k], es[k], x)
    ensures x !in ss[n].q.dirty
  {
    RunOnItem(ss, es, x, n - 1);
    assert !AcceptsAdd(ss[n - 1], es[n - 1], x);
    if n > i + 1 {
      CleanUntilAdd(ss, es, x, i, n - 1);
    }
  }

  /** Between two Gets of an item its holder called Done and somebody added it again. */
  lemma BetweenTwoGets<T(!new)>(ss: seq<Sys<T>>, es: seq<Event<T>>, x: T, i: nat, n: nat)
    requires IsRun(Start(), ss, es) && i < n < |es| && GetsItem(es[i], x) && GetsItem(es[n], x)
    ensures exists k :: i < k < n && DonesItem(es[k], x)
    ensures exists k :: i < k < n && AcceptsAdd(ss[k], es[k], x)
  {
    RunOnItem(ss, es, x, n);
    if forall k {:trigger es[k]} :: i < k < n ==> !DonesItem(es[k], x) {
      HeldUntilDone(ss, es, x, i, n);
    }
    if forall k {:trigger es[k]} :: i < k < n ==> !AcceptsAdd(ss[k], es[k], x) {
      CleanUntilAdd(ss, es, x, i, n);
    }
  }

  // ----- Drain -----

  /** The successful Gets and Dones still to come before a shut queue is drained. */
  function Work<T(==)>(q: State<T>): nat {
    2 * |q.dirty| + |q.processing|
  }

  ghost function WorkDone<T(!new)>(es: seq<Event<T>>, i: nat, n: nat): nat
    requires i <= n <= |es|
    decreases n
  {
    if n == i then 0 else WorkDone(es, i, n - 1) + (if es[n - 1].Get? || es[n - 1].Done? then 1 else 0)
  }

  lemma StepTakesWork<T(!new)>(s: Sys<T>, e: Event<T>)
    requires SysInv(s) && Enabled(s, e) && s.q.shuttingDown
    ensures After(s, e).q.shuttingDown
    ensures Work(After(s, e).q) + (if e.Get? || e.Done? then 1 else 0) == Work(s.q)
  {
    if e.Get? {
      GetKeepsInv(s.q);
    }
  }

  lemma NoWorkIsEmpty<T(!new)>(q: State<T>)
    requires Inv(q)
    ensures Work(q) == 0 <==> q.dirty == {} && q.processing == {}
    ensures Work(q) == 0 ==> q.queue == []
  {
    assert q.queue != [] ==> q.queue[0] in q.dirty;
  }

  /** A shut queue drains: each successful Get and each Done takes exactly one unit of work off. */
  lemma {:induction false} DrainProgress<T(!new)>(ss: seq<Sys<T>>, es: seq<Event<T>>, i: nat, n: nat)
    requires IsRun(Start(), ss, es) && i <= n <= |es| && ss[i].q.shuttingDown
    ensures ss[n].q.shuttingDown
    ensures Work(ss[n].q) + WorkDone(es, i, n) == Work(ss[i].q)
    ensures Work(ss[n].q) == 0 <==> ss[n].q.dirty == {} && ss[n].q.processing == {}
    ensures Work(ss[n].q) == 0 ==> ss[n].q.queue == []
  {
    NoWorkIsEmpty(ss[n].q) by { RunKeepsInv(Start(), ss, es, n); }
    if i < n {
      DrainProgress(ss, es, i, n - 1);
      RunKeepsInv(Start(), ss, es, n - 1);
      StepTakesWork(ss[n - 1], es[n - 1]);
    }
  }

  /** At most `limit` ShutDownWithDrain calls are in progress at any time of the run. */
  ghost predicate DrainersWithin<T(!new)>(ss: seq<Sys<T>>, limit: nat) {
    forall i :: 0 <= i < |ss| ==> Drainers(ss[i].w) <= limit
  }

  /** No drainer sleeps once nothing is being processed. */
  ghost predicate NoDrainerStranded<T>(s: Sys<T>) {
    s.w.drainAsleep > 0 ==> s.q.processing != {}
  }

  lemma {:induction false} LoneDrainerNotStranded<T(!new)>(ss: seq<Sys<T>>, es: seq<Event<T>>, n: nat)
    requires IsRun(Start(), ss, es) && n <= |es| && DrainersWithin(ss, 1)
    ensures NoDrainerStranded(ss[n])
  {
    if n > 0 {
      LoneDrainerNotStranded(ss, es, n - 1);
      RunKeepsInv(Start(), ss, es, n - 1);
      StepAt(Start(), ss, es, n - 1);
      assert Drainers(ss[n - 1].w) <= 1;
    }
  }

  ghost predicate DrainSafeFor<T(!new)>(limit: nat) {
    forall ss: seq<Sys<T>>, es, n :: IsRun(Start(), ss, es) && DrainersWithin(ss, limit) && 0 <= n <= |es| ==> NoDrainerStranded(ss[n])
  }

  /** Two runs, the second from where the first ends, make one run. */
  lemma Joined<T(!new)>(start: Sys<T>, ss: seq<Sys<T>>, es: seq<Event<T>>, ss': seq<Sys<T>>, es': seq<Event<T>>)
    requires IsRun(start, ss, es) && IsRun(ss[|es|], ss', es')
    ensures IsRun(start, ss + ss'[1..], es + es') && (ss + ss'[1..])[|es + es'|] == ss'[|es'|]
  {
    forall i | 0 <= i < |es + es'|
      ensures Enabled((ss + ss'[1..])[i], (es + es')[i])
           && (ss + ss'[1..])[i + 1] == After((ss + ss'[1..])[i], (es + es')[i])
    {
      if i < |es| {
        StepAt(start, ss, es, i);
      } else {
        StepAt(ss[|es|], ss', es', i - |es|);
      }
    }
  }

  /** Two drainers come to test for processing items while one item is held. */
  lemma TwoDrainersMeet<T(!new)>(x: T) returns (ss: seq<Sys<T>>, es: seq<Event<T>>)
    ensures IsRun(Start(), ss, es) && DrainersWithin(ss, 2)
    ensures ss[|es|] == Sys(State([], {}, {x}, true, true), Waits(0, 0, 0, 2, 0, 0, 0, 0), 0)
  {
    var added, held, shut := State([x], {x}, {}, false, false), State([], {}, {x}, false, false), State([], {}, {x}, true, true);
    es := [Add(x, Nobody), Get(x, true), DrainBegin, DrainBegin, DrainShutdown, DrainShutdown];
    ss := [
      Start(),
      Sys(added, Waits(0, 0, 0, 0, 0, 0, 0, 0), 0),
      Sys(held, Waits(0, 0, 0, 0, 0, 0, 0, 0), 0),
      Sys(held.(drain := true), Waits(0, 0, 1, 0, 0, 0, 0, 0), 0),
      Sys(held.(drain := true), Waits(0, 0, 2, 0, 0, 0, 0, 0), 0),
      Sys(shut, Waits(0, 0, 1, 1, 0, 0, 0, 0), 0),
      Sys(shut, Waits(0, 0, 0, 2, 0, 0, 0, 0), 0)
    ];
  }

  /** Both fall asleep, and one signal wakes one of them: the other sleeps on although nothing is being processed. */
  lemma TwoDrainersSleep<T(!new)>(x: T) returns (ss: seq<Sys<T>>, es: seq<Event<T>>)
    ensures IsRun(Sys(State([], {}, {x}, true, true), Waits(0, 0, 0, 2, 0, 0, 0, 0), 0), ss, es)
    ensures DrainersWithin(ss, 2) && !NoDrainerStranded(ss[|es|])
  {
    var shut := State([], {}, {x}, true, true);
    es := [
      Drain(IsProcessing), Drain(IsProcessing), Drain(ShouldDrain),
      Drain(ShouldDrain), Drain(WaitForProcessing), Drain(WaitForProcessing), Done(x, Drainer)
    ];
    ss := [
      Sys(shut, Waits(0, 0, 0, 2, 0, 0, 0, 0), 0),
      Sys(shut, Waits(0, 0, 0, 1, 1, 0, 0, 0), 0),
      Sys(shut, Waits(0, 0, 0, 0, 2, 0, 0, 0), 0),
      Sys(shut, Waits(0, 0, 0, 0, 1, 1, 0, 0), 0),
      Sys(shut, Waits(0, 0, 0, 0, 0, 2, 0, 0), 0),
      Sys(shut, Waits(0, 0, 0, 0, 0, 1, 1, 0), 0),
      Sys(shut, Waits(0, 0, 0, 0, 0, 0, 2, 0), 0),
      Sys(shut.(processing := {}), Waits(0, 0, 0, 0, 0, 0, 1, 1), 0)
    ];
  }

  lemma TwoDrainersStrand<T(!new)>(x: T) returns (ss: seq<Sys<T>>, es: seq<Event<T>>)
    ensures IsRun(Start(), ss, es) && DrainersWithin(ss, 2) && !NoDrainerStranded(ss[|es|])
  {
    var ss0, es0 := TwoDrainersMeet(x);
    var ss1, es1 := TwoDrainersSleep(x);
    Joined(Start(), ss0, es0, ss1, es1);
    ss, es := ss0 + ss1[1..], es0 + es1;
  }

  /** Drainers are never stranded exactly when at most one ShutDownWithDrain is in progress at a time. */
  lemma DrainSafeExactlyForOne<T(!new)>(x: T, limit: nat)
    ensures DrainSafeFor<T>(limit) <==> limit <= 1
  {
    if limit <= 1 {
      forall ss: seq<Sys<T>>, es, n | IsRun(Start(), ss, es) && DrainersWithin(ss, limit) && 0 <= n <= |es|
        ensures NoDrainerStranded(ss[n])
      {
        LoneDrainerNotStranded(ss, es, n);
      }
    } else {
      var ss, es := TwoDrainersStrand(x);
      assert DrainersWithin(ss, limit);
    }
  }

  predicate ShutsDown<T>(e: Event<T>) {
    e.StopShutdown? || e.DrainShutdown?
  }

  /** After a shutdown, with drain or without, nothing becomes dirty and no consumer sleeps. */
  lemma {:induction false} ShutDownStopsAdds<T(!new)>(ss: seq<Sys<T>>, es: seq<Event<T>>, i: nat, n: nat)
    requires IsRun(Start(), ss, es) && i < n <= |es| && ShutsDown(es[i])
    ensures ss[n].q.shuttingDown && ss[n].q.dirty <= ss[i].q.dirty && ss[n].w.getAsleep == 0
    decreases n
  {
    StepAt(Start(), ss, es, n - 1);
    RunKeepsInv(Start(), ss, es, n);
    if n > i + 1 {
      ShutDownStopsAdds(ss, es, i, n - 1);
    }
  }

  // ----- A drain returns when nothing is processed, drained or not -----

  /** A call of ShutDownWithDrain returns only while nothing is being processed, or after the drain flag was cleared. */
  lemma DrainReturnsOnlyWhen<T(!new)>(start: Sys<T>, ss: seq<Sys<T>>, es: seq<Event<T>>, n: nat)
    requires IsRun(start, ss, es) && n < |es| && Drainers(ss[n + 1].w) < Drainers(ss[n].w)
    ensures ss[n].q.processing == {} || !ss[n].q.drain
  {
    StepAt(start, ss, es, n);
    if es[n].Drain? {
      DrainerLeavesExactlyWhen(ss[n].w, es[n].step, ss[n].q.processing != {}, ss[n].q.drain);
    }
  }

  /** And one that tests while nothing is being processed returns. */
  lemma IdleTestReturns<T(!new)>(s: Sys<T>)
    requires s.w.checking > 0 && s.q.processing == {}
    ensures Enabled(s, Drain(IsProcessing)) && Drainers(After(s, Drain(IsProcessing)).w) == Drainers(s.w) - 1
  {
    DrainerLeavesExactlyWhen(s.w, IsProcessing, false, s.q.drain);
  }

  /** A drain that returns although an item is still queued. */
  lemma DrainReturnsEarly<T(!new)>(x: T) returns (ss: seq<Sys<T>>, es: seq<Event<T>>)
    ensures IsRun(Start(), ss, es) && |es| == 4 && es[1] == DrainBegin
    ensures Drainers(ss[4].w) == 0 && ss[4].q.queue == [x]
  {
    es := [Add(x, Nobody), DrainBegin, DrainShutdown, Drain(IsProcessing)];
    ss := [
      Start(),
      Sys(State([x], {x}, {}, false, false), Waits(0, 0, 0, 0, 0, 0, 0, 0), 0),
      Sys(State([x], {x}, {}, false, true), Waits(0, 0, 1, 0, 0, 0, 0, 0), 0),
      Sys(State([x], {x}, {}, true, true), Waits(0, 0, 0, 1, 0, 0, 0, 0), 0),
      Sys(State([x], {x}, {}, true, true), Waits(0, 0, 0, 0, 0, 0, 0, 0), 0)
    ];
  }

  /** From `s` on, each drainer that leaves because nothing is being processed leaves a drained queue. */
  ghost predicate LeavesItDrained<T(!new)>(s: Sys<T>) {
    forall ss: seq<Sys<T>>, es, n ::
      IsRun(s, ss, es) && 0 <= n < |es| && es[n] == Drain(IsProcessing) && ss[n].q.processing == {} ==> Work(ss[n].q) == 0
  }

  lemma {:induction false} StaysClean<T(!new)>(s: Sys<T>, ss: seq<Sys<T>>, es: seq<Event<T>>, n: nat)
    requires SysInv(s) && s.q.shuttingDown && s.q.dirty == {} && IsRun(s, ss, es) && n <= |es|
    ensures SysInv(ss[n]) && ss[n].q.shuttingDown && ss[n].q.dirty == {}
  {
    if n > 0 {
      StaysClean(s, ss, es, n - 1);
      StepAt(s, ss, es, n - 1);
      StepKeepsInv(ss[n - 1], es[n - 1]);
    }
  }

  /** The holders finish, one after the other, and nobody takes anything in the meantime. */
  lemma {:induction false} HoldersFinish<T(!new)>(s: Sys<T>) returns (ss: seq<Sys<T>>, es: seq<Event<T>>)
    ensures IsRun(s, ss, es) && ss[|es|].q.processing == {}
    ensures ss[|es|].q.dirty == s.q.dirty && ss[|es|].w.checking == s.w.checking
    decreases |s.q.processing|
  {
    if s.q.processing == {} {
      ss, es := [s], [];
    } else {
      var x :| x in s.q.processing;
      var e := Done(x, SomeWake(s.w));
      var ss', es' := HoldersFinish(After(s, e));
      Joined(s, [s, After(s, e)], [e], ss', es');
      ss, es := [s, After(s, e)] + ss'[1..], [e] + es';
    }
  }

  lemma LeavesUndrained<T(!new)>(s: Sys<T>)
    requires s.w.checking > 0 && s.q.dirty != {}
    ensures !LeavesItDrained(s)
  {
    var ss, es := HoldersFinish(s);
    var s', e := ss[|es|], Drain(IsProcessing);
    Joined(s, ss, es, [s', After(s', e)], [e]);
    var ss', es' := ss + [s', After(s', e)][1..], es + [e];
    assert es'[|es|] == e && ss'[|es|] == s';
  }

  /**
    A drainer is documented to return once the queue has drained. When it begins to test for processing items,
    every drainer that finds none from then on leaves a drained queue exactly when nothing is dirty.
   */
  lemma DrainsExactlyWhenClean<T(!new)>(s: Sys<T>)
    requires SysInv(s) && s.w.checking > 0
    ensures LeavesItDrained(s) <==> s.q.dirty == {}
  {
    if s.q.dirty == {} {
      forall ss: seq<Sys<T>>, es, n
        | IsRun(s, ss, es) && 0 <= n < |es| && es[n] == Drain(IsProcessing) && ss[n].q.processing == {}
        ensures Work(ss[n].q) == 0
      {
        StaysClean(s, ss, es, n);
      }
    } else {
      LeavesUndrained(s);
    }
  }

  // ----- ShutDown after ShutDownWithDrain -----

  /** From `s` on, unless ShutDownWithDrain is called again, no drainer sleeps. */
  ghost predicate NeverSleepsAgain<T(!new)>(s: Sys<T>) {
    forall ss: seq<Sys<T>>, es, n ::
      IsRun(s, ss, es) && DrainBegin !in es && 0 <= n <= |es| ==> ss[n].w.drainAsleep == 0
  }

  /** No drainer can fall asleep: none is past its test of the drain flag, or nothing is left to process. */
  ghost predicate Released<T(!new)>(s: Sys<T>) {
    && SysInv(s) && s.q.shuttingDown && !s.q.drain && s.w.drainAsleep == 0
    && (s.w.waiting == 0 || (s.q.processing == {} && s.q.queue == []))
  }

  lemma StepKeepsReleased<T(!new)>(s: Sys<T>, e: Event<T>)
    requires Released(s) && Enabled(s, e) && e != DrainBegin
    ensures Released(After(s, e))
  {
    StepKeepsInv(s, e);
  }

  lemma {:induction false} RunKeepsReleased<T(!new)>(s: Sys<T>, ss: seq<Sys<T>>, es: seq<Event<T>>, n: nat)
    requires Released(s) && IsRun(s, ss, es) && DrainBegin !in es && n <= |es|
    ensures Released(ss[n])
  {
    if n > 0 {
      RunKeepsReleased(s, ss, es, n - 1);
      assert es[n - 1] in es;
      StepKeepsReleased(ss[n - 1], es[n - 1]);
    }
  }

  lemma FallsAsleep<T(!new)>(s: Sys<T>) returns (ss: seq<Sys<T>>, es: seq<Event<T>>)
    requires s.w.waiting > 0 && (s.q.processing != {} || s.q.queue != [])
    ensures IsRun(s, ss, es) && DrainBegin !in es && ss[|es|].w.drainAsleep > 0
  {
    if s.q.processing != {} {
      ss, es := [s, After(s, Drain(WaitForProcessing))], [Drain(WaitForProcessing)];
    } else {
      var s1 := After(s, Get(s.q.queue[0], true));
      ss, es := [s, s1, After(s1, Drain(WaitForProcessing))], [Get(s.q.queue[0], true), Drain(WaitForProcessing)];
    }
  }

  /**
    ShutDown is documented to end a drain at once. Once it has cleared the drain flag and shuts the queue
    down, drainers stay awake for good exactly when none had already passed its test of the drain flag,
    or nothing is left to process.
   */
  lemma ShutDownEndsDrainExactlyWhen<T(!new)>(s: Sys<T>)
    requires SysInv(s) && Enabled(s, StopShutdown) && !s.q.drain
    ensures NeverSleepsAgain(After(s, StopShutdown))
       <==> s.w.waiting == 0 || (s.q.processing == {} && s.q.queue == [])
  {
    var s' := After(s, StopShutdown);
    StepKeepsInv(s, StopShutdown);
    if Released(s') {
      forall ss: seq<Sys<T>>, es, n | IsRun(s', ss, es) && DrainBegin !in es && 0 <= n <= |es|
        ensures ss[n].w.drainAsleep == 0
      {
        RunKeepsReleased(s', ss, es, n);
      }
    } else {
      var ss, es := FallsAsleep(s');
    }
  }

  /** A drainer reads the flag, ShutDown clears it and broadcasts, and the drainer goes to sleep after that. */
  lemma ShutDownMissesDrainer<T(!new)>(x: T) returns (ss: seq<Sys<T>>, es: seq<Event<T>>)
    ensures IsRun(Start(), ss, es) && |es| == 9 && es[7] == StopShutdown
    ensures !ss[|es|].q.drain && ss[|es|].q.shuttingDown && ss[|es|].w.drainAsleep > 0
  {
    var held, draining := State([], {}, {x}, false, true), State([], {}, {x}, true, true);
    es := [
      Add(x, Nobody), Get(x, true), DrainBegin, DrainShutdown, Drain(IsProcessing), Drain(ShouldDrain),
      StopBegin, StopShutdown, Drain(WaitForProcessing)
    ];
    ss := [
      Start(),
      Sys(State([x], {x}, {}, false, false), Waits(0, 0, 0, 0, 0, 0, 0, 0), 0),
      Sys(State([], {}, {x}, false, false), Waits(0, 0, 0, 0, 0, 0, 0, 0), 0),
      Sys(held, Waits(0, 0, 1, 0, 0, 0, 0, 0), 0),
      Sys(draining, Waits(0, 0, 0, 1, 0, 0, 0, 0), 0),
      Sys(draining, Waits(0, 0, 0, 0, 1, 0, 0, 0), 0),
      Sys(draining, Waits(0, 0, 0, 0, 0, 1, 0, 0), 0),
      Sys(draining.(drain := false), Waits(0, 0, 0, 0, 0, 1, 0, 0), 1),
      Sys(draining.(drain := false), Waits(0, 0, 0, 0, 0, 1, 0, 0), 0),
      Sys(draining.(drain := false), Waits(0, 0, 0, 0, 0, 0, 1, 0), 0)
    ];
  }
}
