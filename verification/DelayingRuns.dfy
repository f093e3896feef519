/** That the delaying queue's loop does its work: it never spins, rests only when it is through, and serves what is due. */
module DelayingRuns {
  import opened WorkQueue
  import opened WaitingLoop
  import opened DelayingSystem
  import Q = QueueSystem
  import Waiters

  // ----- Callers that send -----

  predicate BeginsSending<T>(e: Event<T>) {
    e.Request? && e.delay > 0
  }

  predicate EndsSending<T>(e: Event<T>) {
    e.Send? || e.Abandon?
  }

  ghost function Sending<T(!new)>(es: seq<Event<T>>, n: nat): int
    requires n <= |es|
  {
    if n == 0 then 0
    else Sending(es, n - 1) + (if BeginsSending(es[n - 1]) then 1 else 0) - (if EndsSending(es[n - 1]) then 1 else 0)
  }

  /**
    The callers about to send are those that asked with a delay and have neither sent nor given up; the channel
    keeps to its size.
   */
  lemma {:induction false} SendersConserved<T(!new)>(ss: seq<Sys<T>>, es: seq<Event<T>>, n: nat)
    requires IsRun(ss, es) && n <= |es|
    ensures |ss[n].sending| == Sending(es, n) && |ss[n].loop.ch| <= 1000
  {
    if n > 0 {
      SendersConserved(ss, es, n - 1);
      StepAt(ss, es, n - 1);
    }
  }

  // ----- Rest -----

  /** The steps of the loop and of senders, but for a timer that goes off. */
  predicate Settles<T>(e: Event<T>) {
    e.Send? || (e.LoopStep? && !e.e.Wake?)
  }

  /** All that was sent has been filed or handed over, and the loop waits. */
  predicate AtRest<T>(s: Sys<T>) {
    s.sending == [] && s.loop.ch == [] && s.loop.pc.Select?
  }

  /** On an open queue the loop and the senders rest only when they are through, and then a timer can still move the loop. */
  lemma RestsOnlyWhenThrough<T(!new)>(s: Sys<T>) returns (e: Event<T>)
    requires SysInv(s) && !s.q.shuttingDown && !s.loop.pc.Exited?
    ensures Enabled(s, e)
    ensures if AtRest(s) then e == LoopStep(Wake) else Settles(e)
  {
    if s.sending != [] && |s.loop.ch| < 1000 {
      e := Send(0);
    } else {
      var le := NeverStuck(s.loop, s.clock, s.q.shuttingDown, s.stopped);
      e := LoopStep(le);
    }
  }

  function Work<T>(s: Sys<T>): nat {
    24 * |s.sending| + Effort(s.loop)
  }

  lemma StepTakesWork<T(!new)>(s: Sys<T>, e: Event<T>)
    requires Enabled(s, e)
    ensures Work(After(s, e)) + (if Settles(e) then 1 else 0)
         <= Work(s) + (if BeginsSending(e) then 24 else 0) + (if e == LoopStep(Wake) then 3 else 0)
  {
    if e.LoopStep? {
      StepTakesEffort(s.loop, e.e, s.clock, s.q.shuttingDown, s.stopped);
    }
  }

  datatype Tally = Tally(settling: nat, requests: nat, wakes: nat)

  ghost function TallyOf<T(!new)>(es: seq<Event<T>>, n: nat): Tally
    requires n <= |es|
  {
    if n == 0 then Tally(0, 0, 0)
    else
      var t, e := TallyOf(es, n - 1), es[n - 1];
      Tally(t.settling + (if Settles(e) then 1 else 0), t.requests + (if BeginsSending(e) then 1 else 0),
            t.wakes + (if e == LoopStep(Wake) then 1 else 0))
  }

  /**
    The loop does not spin: in every run its steps and the senders' are bounded by the requests and the timers that
    went off.
   */
  lemma {:induction false} NeverSpins<T(!new)>(ss: seq<Sys<T>>, es: seq<Event<T>>, n: nat)
    requires IsRun(ss, es) && n <= |es|
    ensures TallyOf(es, n).settling + Work(ss[n]) <= 24 * TallyOf(es, n).requests + 3 * TallyOf(es, n).wakes + 4
  {
    if n > 0 {
      NeverSpins(ss, es, n - 1);
      StepAt(ss, es, n - 1);
      StepTakesWork(ss[n - 1], es[n - 1]);
    }
  }

  // ----- A round hands over all that is due -----

  ghost predicate NothingDue<T(!new)>(l: Loop<T>, clock: int) {
    l.pc == Firing(clock) || forall x :: x in l.heap ==> clock < l.heap[x]
  }

  /** From a reading of the clock on, while the clock stands, what is due in the heap is being fired, or there is none. */
  lemma {:induction false} RoundServesDue<T(!new)>(ss: seq<Sys<T>>, es: seq<Event<T>>, i: nat, n: nat)
    requires IsRun(ss, es) && i < n <= |es| && es[i] == LoopStep(ReadClock)
    requires forall k :: i <= k < n ==> !es[k].Tick?
    ensures ss[n].clock == ss[i].clock && NothingDue(ss[n].loop, ss[i].clock)
    decreases n
  {
    StepAt(ss, es, n - 1);
    assert !es[n - 1].Tick?;
    if n > i + 1 {
      RoundServesDue(ss, es, i, n - 1);
    }
  }

  /** So where the loop has come to rest after a round, no request that is due is left anywhere. */
  lemma RestLeavesNothingDue<T(!new)>(ss: seq<Sys<T>>, es: seq<Event<T>>, i: nat, n: nat, x: T, readyAt: int)
    requires IsRun(ss, es) && i < n <= |es| && es[i] == LoopStep(ReadClock)
    requires forall k :: i <= k < n ==> !es[k].Tick?
    requires AtRest(ss[n]) && readyAt <= ss[n].clock
    ensures !OnItsWay(ss[n], x, readyAt)
  {
    RoundServesDue(ss, es, i, n);
  }

  // ----- Rounds begin with an empty channel -----

  /** The last step of the loop before `n`, or -1. */
  ghost function LoopBefore<T(!new)>(es: seq<Event<T>>, n: nat): (m: int)
    requires n <= |es|
    ensures -1 <= m < n && (m >= 0 ==> es[m].LoopStep?)
  {
    if n == 0 then -1 else if es[n - 1].LoopStep? then n - 1 else LoopBefore(es, n - 1)
  }

  lemma {:induction false} ComesToTop<T(!new)>(ss: seq<Sys<T>>, es: seq<Event<T>>, n: nat)
    requires IsRun(ss, es) && n <= |es| && ss[n].loop.pc.Top?
    ensures var m := LoopBefore(es, n);
            m >= 0 ==> es[m].e.Wake? || (es[m].e.Drained? && ss[m].loop.ch == [])
  {
    if n > 0 {
      StepAt(ss, es, n - 1);
      if !es[n - 1].LoopStep? {
        ComesToTop(ss, es, n - 1);
      }
    }
  }

  /** A round begins at the start, after a timer went off, or once the channel was found empty; never on a shut queue. */
  lemma RoundBeginsAfter<T(!new)>(ss: seq<Sys<T>>, es: seq<Event<T>>, n: nat)
    requires IsRun(ss, es) && n < |es| && es[n] == LoopStep(Begin)
    ensures !ss[n].q.shuttingDown
    ensures var m := LoopBefore(es, n);
            m >= 0 ==> es[m].e.Wake? || (es[m].e.Drained? && ss[m].loop.ch == [])
  {
    StepAt(ss, es, n);
    ComesToTop(ss, es, n);
  }

  // ----- Every request can be served -----

  lemma Extended<T(!new)>(ss: seq<Sys<T>>, es: seq<Event<T>>, e: Event<T>) returns (ss': seq<Sys<T>>, es': seq<Event<T>>)
    requires IsRun(ss, es) && Enabled(ss[|es|], e)
    ensures IsRun(ss', es') && ss' == ss + [After(ss[|es|], e)] && es' == es + [e]
  {
    ss', es' := ss + [After(ss[|es|], e)], es + [e];
  }

  /** What has begun can be carried to rest without anything new. */
  lemma {:induction false} CanSettle<T(!new)>(ss: seq<Sys<T>>, es: seq<Event<T>>) returns (ss': seq<Sys<T>>, es': seq<Event<T>>)
    requires IsRun(ss, es) && !ss[|es|].q.shuttingDown && !ss[|es|].loop.pc.Exited?
    ensures IsRun(ss', es') && ss <= ss' && es <= es' && AtRest(ss'[|es'|]) && !ss'[|es'|].q.shuttingDown
    ensures ss'[|es'|].clock == ss[|es|].clock && forall k :: |es| <= k < |es'| ==> Settles(es'[k])
    decreases Work(ss[|es|])
  {
    RunKeepsInv(ss, es, |es|);
    var e := RestsOnlyWhenThrough(ss[|es|]);
    if AtRest(ss[|es|]) {
      ss', es' := ss, es;
    } else {
      StepTakesWork(ss[|es|], e);
      var ss1, es1 := Extended(ss, es, e);
      assert es1[|es|] == e;
      ss', es' := CanSettle(ss1, es1);
    }
  }

  /** The loop wakes, reads the clock, and comes to rest. */
  lemma CanGoRound<T(!new)>(ss: seq<Sys<T>>, es: seq<Event<T>>)
    returns (ss': seq<Sys<T>>, es': seq<Event<T>>, i: nat)
    requires IsRun(ss, es) && AtRest(ss[|es|]) && !ss[|es|].q.shuttingDown
    ensures IsRun(ss', es') && ss <= ss' && es <= es' && |es| <= i < |es'| && es'[i] == LoopStep(ReadClock)
    ensures AtRest(ss'[|es'|]) && !ss'[|es'|].q.shuttingDown && ss'[|es'|].clock == ss[|es|].clock
    ensures forall k :: |es| <= k < |es'| ==> es'[k].Send? || es'[k].LoopStep?
  {
    var ss1, es1 := Extended(ss, es, LoopStep(Wake));
    ss1, es1 := Extended(ss1, es1, LoopStep(Begin));
    i := |es1|;
    ss1, es1 := Extended(ss1, es1, LoopStep(ReadClock));
    ss', es' := CanSettle(ss1, es1);
    assert es1 == es'[..|es1|];
  }

  /** A continuation without further calls. */
  ghost predicate Continues<T(!new)>(ss: seq<Sys<T>>, es: seq<Event<T>>, ss': seq<Sys<T>>, es': seq<Event<T>>) {
    IsRun(ss', es') && ss <= ss' && es <= es'
    && forall k :: |es| <= k < |es'| ==> es'[k].Tick? || es'[k].Send? || es'[k].LoopStep?
  }

  /** At a time of choice, not before now, the loop has come to rest with nothing due left. */
  lemma CanServeAllDue<T(!new)>(ss: seq<Sys<T>>, es: seq<Event<T>>, clock: int)
    returns (ss': seq<Sys<T>>, es': seq<Event<T>>)
    requires IsRun(ss, es) && !ss[|es|].q.shuttingDown && !ss[|es|].loop.pc.Exited? && ss[|es|].clock <= clock
    ensures Continues(ss, es, ss', es') && ss'[|es'|].clock == clock && !ss'[|es'|].q.shuttingDown
    ensures forall x, readyAt :: readyAt <= clock ==> !OnItsWay(ss'[|es'|], x, readyAt)
  {
    var ss1, es1 := CanSettle(ss, es);
    var ss2, es2 := Extended(ss1, es1, Tick(clock));
    var i: nat;
    ss', es', i := CanGoRound(ss2, es2);
    assert es2[|es1|] == Tick(clock) && es2 == es'[..|es2|] && es1 == es'[..|es1|];
    forall x, readyAt | readyAt <= clock
      ensures !OnItsWay(ss'[|es'|], x, readyAt)
    {
      RestLeavesNothingDue(ss', es', i, |es'|, x, readyAt);
    }
  }

  /**
    From every reachable state of the open queue a request that is on its way can be served, as soon as its time
    has come and without any further call: a continuation of ticks, sends and steps of the loop hands its item over.
   */
  lemma RequestCanBeServed<T(!new)>(ss: seq<Sys<T>>, es: seq<Event<T>>, x: T, readyAt: int)
    returns (ss': seq<Sys<T>>, es': seq<Event<T>>)
    requires IsRun(ss, es) && !ss[|es|].q.shuttingDown && !ss[|es|].loop.pc.Exited? && OnItsWay(ss[|es|], x, readyAt)
    ensures Continues(ss, es, ss', es') && DeliveredSince(ss', es', x, |es|, |es'|)
    ensures ss'[|es'|].clock == if readyAt <= ss[|es|].clock then ss[|es|].clock else readyAt
  {
    ss', es' := CanServeAllDue(ss, es, if readyAt <= ss[|es|].clock then ss[|es|].clock else readyAt);
    OnItsWayUntilDelivery(ss', es', x, readyAt, |es|, |es'|);
  }

  /** The loop leaves only once the queue is shut. */
  lemma {:induction false} LoopLives<T(!new)>(ss: seq<Sys<T>>, es: seq<Event<T>>, n: nat)
    requires IsRun(ss, es) && n <= |es|
    ensures ss[n].loop.pc.Exited? ==> ss[n].q.shuttingDown
  {
    if n > 0 {
      LoopLives(ss, es, n - 1);
      RunKeepsInv(ss, es, n - 1);
      StepAt(ss, es, n - 1);
    }
  }

  // ----- Shutdown -----

  /** After the stop channel is closed every caller still sending may give up, and the loop where it waits may leave. */
  lemma {:induction false} CloseFrees<T(!new)>(ss: seq<Sys<T>>, es: seq<Event<T>>, i: nat, n: nat)
    requires IsRun(ss, es) && i < n <= |es| && es[i].Close?
    ensures ss[n].stopped && forall k: nat :: k < |ss[n].sending| ==> Enabled(ss[n], Abandon(k))
    ensures ss[n].loop.pc.Select? || ss[n].loop.pc.Top? ==> Enabled(ss[n], LoopStep(Exit))
    decreases n
  {
    StepAt(ss, es, n - 1);
    RunKeepsInv(ss, es, n);
    if n > i + 1 {
      CloseFrees(ss, es, i, n - 1);
    }
  }

  // ----- The queue behind is a work queue -----

  /** The calls the queue sees. */
  datatype Op<T> = AddOp(x: T) | GetOp(x: T) | DoneOp(x: T) | ShutOp

  function OpsOf<T(==)>(s: Sys<T>, e: Event<T>): seq<Op<T>> {
    match e
    case Request(x, delay) => if delay <= 0 then [AddOp(x)] else []
    case LoopStep(le) =>
      (match le
       case Fire(x) => [AddOp(x)]
       case Deliver => if s.loop.pc.Handling? then [AddOp(s.loop.pc.tok.data)] else []
       case _ => [])
    case Add(x) => [AddOp(x)]
    case Get(x) => [GetOp(x)]
    case Done(x) => [DoneOp(x)]
    case ShutDown => [ShutOp]
    case _ => []
  }

  ghost function Ops<T(!new)>(ss: seq<Sys<T>>, es: seq<Event<T>>, n: nat): seq<Op<T>>
    requires n <= |es| <= |ss|
  {
    if n == 0 then [] else Ops(ss, es, n - 1) + OpsOf(ss[n - 1], es[n - 1])
  }

  /** The steps of the work queue for a call, where nobody waits. */
  function QueueSteps<T>(op: Op<T>): seq<Q.Event<T>> {
    match op
    case AddOp(x) => [Q.Add(x, Waiters.Nobody)]
    case GetOp(x) => [Q.Get(x, true)]
    case DoneOp(x) => [Q.Done(x, Waiters.Nobody)]
    case ShutOp => [Q.StopBegin] + [Q.StopShutdown]
  }

  function AllQueueSteps<T>(ops: seq<Op<T>>): seq<Q.Event<T>>
    decreases |ops|
  {
    if ops == [] then [] else AllQueueSteps(ops[..|ops| - 1]) + QueueSteps(ops[|ops| - 1])
  }

  /** Nobody waits in the work queue. */
  predicate Quiet(w: Waiters.Waits) {
    Waiters.Sleepers(w) == 0
  }

  function Alone<T>(q: State<T>, w: Waiters.Waits): Q.Sys<T> {
    Q.Sys(q, w, 0)
  }

  predicate CanApply<T(==)>(q: State<T>, op: Op<T>) {
    (op.GetOp? ==> q.queue != [] && q.queue[0] == op.x) && (op.DoneOp? ==> op.x in q.processing)
  }

  function Applied<T(==)>(q: State<T>, op: Op<T>): State<T>
    requires CanApply(q, op)
  {
    match op
    case AddOp(x) => Added(q, x)
    case GetOp(x) => Taken(q)
    case DoneOp(x) => Finished(q, x)
    case ShutOp => q.(shuttingDown := true)
  }

  /** A step leaves the queue alone, or makes one call. */
  ghost predicate CallStep<T(!new)>(s: Sys<T>, e: Event<T>, s': Sys<T>) {
    var ops := OpsOf(s, e);
    if ops == [] then s'.q == s.q else |ops| == 1 && CanApply(s.q, ops[0]) && s'.q == Applied(s.q, ops[0])
  }

  lemma StepIsCall<T(!new)>(s: Sys<T>, e: Event<T>)
    requires Enabled(s, e)
    ensures CallStep(s, e, After(s, e))
  {
  }

  lemma OneQueueStep<T(!new)>(s: Q.Sys<T>, e: Q.Event<T>)
    requires Q.Enabled(s, e)
    ensures Q.IsRun(s, [s, Q.After(s, e)], [e])
  {
  }

  lemma QuietBroadcast(w: Waiters.Waits)
    requires Quiet(w)
    ensures Waiters.Broadcasted(w) == w
  {
  }

  lemma ShutSteps<T(!new)>(q: State<T>, w: Waiters.Waits)
    requires !q.drain && Quiet(w)
    ensures Q.After(Alone(q, w), Q.StopBegin) == Alone(q, w).(stopping := 1)
    ensures Q.After(Alone(q, w).(stopping := 1), Q.StopShutdown) == Alone(q.(shuttingDown := true), w)
  {
    QuietBroadcast(w);
  }

  lemma ShutIsQueueSteps<T(!new)>(q: State<T>, w: Waiters.Waits) returns (qs: seq<Q.Sys<T>>)
    requires !q.drain && Quiet(w)
    ensures Q.IsRun(Alone(q, w), qs, [Q.StopBegin] + [Q.StopShutdown]) && qs[2] == Alone(q.(shuttingDown := true), w)
  {
    var s1, s2 := Alone(q, w).(stopping := 1), Alone(q.(shuttingDown := true), w);
    ShutSteps(q, w);
    OneQueueStep(Alone(q, w), Q.StopBegin);
    OneQueueStep(s1, Q.StopShutdown);
    Q.Joined(Alone(q, w), [Alone(q, w), s1], [Q.StopBegin], [s1, s2], [Q.StopShutdown]);
    qs := [Alone(q, w), s1] + [s1, s2][1..];
  }

  lemma CallIsQueueSteps<T(!new)>(q: State<T>, w: Waiters.Waits, op: Op<T>) returns (qs: seq<Q.Sys<T>>)
    requires CanApply(q, op) && !q.drain && Quiet(w)
    ensures Q.IsRun(Alone(q, w), qs, QueueSteps(op)) && qs[|QueueSteps(op)|] == Alone(Applied(q, op), w)
  {
    if op.ShutOp? {
      qs := ShutIsQueueSteps(q, w);
    } else {
      var e := QueueSteps(op)[0];
      assert QueueSteps(op) == [e] && Q.After(Alone(q, w), e) == Alone(Applied(q, op), w);
      OneQueueStep(Alone(q, w), e);
      qs := [Alone(q, w), Q.After(Alone(q, w), e)];
    }
  }

  lemma OneMore<T(!new)>(
    start: Q.Sys<T>, qs: seq<Q.Sys<T>>, qes: seq<Q.Event<T>>, q: State<T>, w: Waiters.Waits, ops: seq<Op<T>>, op: Op<T>)
    returns (qs': seq<Q.Sys<T>>, qes': seq<Q.Event<T>>)
    requires Q.IsRun(start, qs, qes) && qs[|qes|] == Alone(q, w) && qes == AllQueueSteps(ops)
    requires CanApply(q, op) && !q.drain && Quiet(w)
    ensures Q.IsRun(start, qs', qes') && qs'[|qes'|] == Alone(Applied(q, op), w) && qes' == AllQueueSteps(ops + [op])
  {
    var more := CallIsQueueSteps(q, w, op);
    Q.Joined(start, qs, qes, more, QueueSteps(op));
    qs', qes' := qs + more[1..], qes + QueueSteps(op);
    assert (ops + [op])[..|ops|] == ops;
  }

  /** The queue part of a step of the work queue's run: nothing, or one call more. */
  lemma QueueGoesOn<T(!new)>(
    start: Q.Sys<T>, qs: seq<Q.Sys<T>>, qes: seq<Q.Event<T>>, w: Waiters.Waits, s: Sys<T>, e: Event<T>, s': Sys<T>, ops: seq<Op<T>>)
    returns (qs': seq<Q.Sys<T>>, qes': seq<Q.Event<T>>)
    requires Q.IsRun(start, qs, qes) && qs[|qes|] == Alone(s.q, w) && qes == AllQueueSteps(ops)
    requires CallStep(s, e, s') && !s.q.drain && Quiet(w)
    ensures Q.IsRun(start, qs', qes') && qs'[|qes'|] == Alone(s'.q, w) && qes' == AllQueueSteps(ops + OpsOf(s, e)) && !s'.q.drain
  {
    if OpsOf(s, e) == [] {
      qs', qes' := qs, qes;
      assert ops + OpsOf(s, e) == ops;
    } else {
      assert OpsOf(s, e) == [OpsOf(s, e)[0]];
      qs', qes' := OneMore(start, qs, qes, s.q, w, ops, OpsOf(s, e)[0]);
    }
  }

  lemma {:induction false} CallsAreQueueRun<T(!new)>(
    start: Q.Sys<T>, ss: seq<Sys<T>>, es: seq<Event<T>>, w: Waiters.Waits, n: nat)
    returns (qs: seq<Q.Sys<T>>, qes: seq<Q.Event<T>>)
    requires |ss| == |es| + 1 && n <= |es| && Quiet(w) && Alone(ss[0].q, w) == start && !ss[0].q.drain
    requires forall i {:trigger es[i]} :: 0 <= i < |es| ==> CallStep(ss[i], es[i], ss[i + 1])
    ensures Q.IsRun(start, qs, qes) && qs[|qes|] == Alone(ss[n].q, w) && !ss[n].q.drain
    ensures qes == AllQueueSteps(Ops(ss, es, n))
  {
    if n == 0 {
      qs, qes := [start], [];
    } else {
      qs, qes := CallsAreQueueRun(start, ss, es, w, n - 1);
      var s, e, s' := ss[n - 1], es[n - 1], ss[n];
      qs, qes := QueueGoesOn(start, qs, qes, w, s, e, s', Ops(ss, es, n - 1));
    }
  }

  /** Some run of the work queue takes these steps and ends with this queue. */
  ghost predicate QueueReaches<T(!new)>(qes: seq<Q.Event<T>>, q: State<T>) {
    exists qs: seq<Q.Sys<T>> :: Q.IsRun(Q.Start(), qs, qes) && qs[|qes|].q == q
  }

  /**
    The queue in every run of the delaying queue goes through a run of the work queue with the same calls, so all
    that holds of those holds of it.
   */
  lemma RunIsQueueRun<T(!new)>(ss: seq<Sys<T>>, es: seq<Event<T>>, n: nat)
    requires IsRun(ss, es) && n <= |es|
    ensures QueueReaches(AllQueueSteps(Ops(ss, es, n)), ss[n].q)
  {
    forall i | 0 <= i < |es|
      ensures CallStep(ss[i], es[i], ss[i + 1])
    {
      StepAt(ss, es, i);
      StepIsCall(ss[i], es[i]);
    }
    var qs, qes := CallsAreQueueRun(Q.Start(), ss, es, Q.Start<T>().w, n);
  }
}
