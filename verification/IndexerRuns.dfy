/** What whole runs of the keyed delaying queue promise about keys, versions and times. */
module IndexerRuns {
  import opened IndexerQueue
  import opened Waiters
  import opened IndexerSystem

  // ----- Get finds its entry, and nobody else holds the key -----

  /** Whenever the queue is not empty its head has an entry, so Get never misses one. */
  lemma GetFindsEntry<I(!new), K(!new)>(ops: Ops<I, K>, ss: seq<Sys<I, K>>, es: seq<Event<I, K>>, n: nat)
    requires IsRun(ops, ss, es) && n <= |es| && ss[n].core.queue != []
    ensures var head := ss[n].core.queue[0];
            && Enabled(ops, ss[n], Get(head, true)) && head !in ss[n].core.processing
            && ops.key(ss[n].core.pending[head].data) == Some(head)
  {
    RunKeepsInv(ops, ss, es, n);
    HeadIsPending(ops, ss[n].core);
  }

  /** No consumer's wakeup is lost, and consumers and drainers never sleep together. */
  lemma NoLostWakeup<I(!new), K(!new)>(ops: Ops<I, K>, ss: seq<Sys<I, K>>, es: seq<Event<I, K>>, n: nat)
    requires IsRun(ops, ss, es) && n <= |es|
    ensures ss[n].w.getAsleep > 0 ==> |ss[n].core.queue| <= ss[n].w.getWoken && !ss[n].core.shuttingDown
    ensures ss[n].w.getAsleep == 0 || ss[n].w.drainAsleep == 0
  {
    RunKeepsInv(ops, ss, es, n);
  }

  /** A call of ShutDownWithDrain returns only while nothing is being processed, or when the drain flag is not set. */
  lemma DrainReturnsOnlyWhen<I(!new), K(!new)>(ops: Ops<I, K>, ss: seq<Sys<I, K>>, es: seq<Event<I, K>>, n: nat)
    requires IsRun(ops, ss, es) && n < |es| && Drainers(ss[n + 1].w) < Drainers(ss[n].w)
    ensures ss[n].core.processing == map[] || !ss[n].core.drain
  {
    StepAt(ops, ss, es, n);
    if es[n].Drain? {
      DrainerLeavesExactlyWhen(ss[n].w, es[n].step, ss[n].core.processing != map[], ss[n].core.drain);
    }
  }

  predicate BeginsStop<I, K>(e: Event<I, K>) {
    e.StopBegin?
  }

  lemma StepOnStop<I, K(!new)>(ops: Ops<I, K>, s: Sys<I, K>, e: Event<I, K>)
    requires Enabled(ops, s, e)
    ensures BeginsStop(e) ==> s.stop.Open?
    ensures After(ops, s, e).stop.Open? <==> s.stop.Open? && !BeginsStop(e)
    ensures After(ops, s, e).core.drain <==> s.core.drain || (BeginsStop(e) && e.drain)
  {
  }

  /** The shutdown that comes first decides: the drain flag is set exactly when that one was with drain. */
  lemma {:induction false} FirstShutDownDecides<I(!new), K(!new)>(
    ops: Ops<I, K>, ss: seq<Sys<I, K>>, es: seq<Event<I, K>>, n: nat)
    requires IsRun(ops, ss, es) && n <= |es|
    ensures ss[n].stop.Open? <==> forall m :: 0 <= m < n ==> !BeginsStop(es[m])
    ensures ss[n].core.drain <==> exists m :: 0 <= m < n && BeginsStop(es[m]) && es[m].drain
    ensures forall k, m :: 0 <= k < m < n && BeginsStop(es[k]) ==> !BeginsStop(es[m])
  {
    if n > 0 {
      FirstShutDownDecides(ops, ss, es, n - 1);
      StepAt(ops, ss, es, n - 1);
      StepOnStop(ops, ss[n - 1], es[n - 1]);
    }
  }

  lemma StepAfterShutDown<I, K(!new)>(ops: Ops<I, K>, s: Sys<I, K>, e: Event<I, K>, key: K)
    requires Enabled(ops, s, e) && (s.core.shuttingDown || e.StopShutdown?)
    ensures key in After(ops, s, e).core.pending ==> key in s.core.pending
    ensures key in After(ops, s, e).core.dirty ==> key in s.core.dirty
  {
  }

  lemma StepAfterShutDownAddsNothing<I, K(!new)>(ops: Ops<I, K>, s: Sys<I, K>, e: Event<I, K>, s': Sys<I, K>)
    requires Enabled(ops, s, e) && (s.core.shuttingDown || e.StopShutdown?) && s' == After(ops, s, e)
    ensures s'.core.pending.Keys <= s.core.pending.Keys && s'.core.dirty <= s.core.dirty
  {
    forall key
      ensures key in s'.core.pending ==> key in s.core.pending
      ensures key in s'.core.dirty ==> key in s.core.dirty
    {
      StepAfterShutDown(ops, s, e, key);
    }
  }

  lemma StepAfterShutDownOfGate<I, K(!new)>(ops: Ops<I, K>, s: Sys<I, K>, e: Event<I, K>)
    requires Enabled(ops, s, e) && (e.StopShutdown? || (s.core.shuttingDown && s.gate.asleep == 0))
    ensures After(ops, s, e).core.shuttingDown && After(ops, s, e).gate.asleep == 0
  {
  }

  /** The queue is shut, and has nothing pending or dirty but what `s` had. */
  ghost predicate ShutWithin<I, K(!new)>(s': Sys<I, K>, s: Sys<I, K>) {
    && s'.core.shuttingDown && s'.gate.asleep == 0
    && s'.core.pending.Keys <= s.core.pending.Keys && s'.core.dirty <= s.core.dirty
  }

  lemma {:induction false} StaysShut<I(!new), K(!new)>(
    ops: Ops<I, K>, ss: seq<Sys<I, K>>, es: seq<Event<I, K>>, i: nat, n: nat)
    requires IsRun(ops, ss, es) && i < n <= |es| && es[i].StopShutdown?
    ensures ShutWithin(ss[n], ss[i])
    decreases n
  {
    if n > i + 1 {
      StaysShut(ops, ss, es, i, n - 1);
    }
    StepAt(ops, ss, es, n - 1);
    StepAfterShutDownAddsNothing(ops, ss[n - 1], es[n - 1], ss[n]);
    StepAfterShutDownOfGate(ops, ss[n - 1], es[n - 1]);
  }

  /** After the shutdown no key becomes pending or dirty, and neither producers nor consumers sleep. */
  lemma ShutDownStopsAdds<I(!new), K(!new)>(
    ops: Ops<I, K>, ss: seq<Sys<I, K>>, es: seq<Event<I, K>>, i: nat, n: nat)
    requires IsRun(ops, ss, es) && i < n <= |es| && es[i].StopShutdown?
    ensures ShutWithin(ss[n], ss[i]) && ss[n].w.getAsleep == 0
  {
    StaysShut(ops, ss, es, i, n);
    RunKeepsInv(ops, ss, es, n);
  }

  predicate GetsKey<I, K(==)>(e: Event<I, K>, key: K) {
    e.Get? && e.key == key
  }

  predicate DonesKey<I, K(==)>(e: Event<I, K>, key: K) {
    e.Done? && e.key == key
  }

  ghost function Gets<I(!new), K(!new)>(es: seq<Event<I, K>>, key: K, n: nat): nat
    requires n <= |es|
  {
    if n == 0 then 0 else Gets(es, key, n - 1) + (if GetsKey(es[n - 1], key) then 1 else 0)
  }

  ghost function Dones<I(!new), K(!new)>(es: seq<Event<I, K>>, key: K, n: nat): nat
    requires n <= |es|
  {
    if n == 0 then 0 else Dones(es, key, n - 1) + (if DonesKey(es[n - 1], key) then 1 else 0)
  }

  /** What one step may do to the holder of a key. */
  ghost predicate KeyStep<I, K(!new)>(s: Sys<I, K>, e: Event<I, K>, s': Sys<I, K>, key: K) {
    && (GetsKey(e, key) ==> key !in s.core.processing)
    && (DonesKey(e, key) ==> key in s.core.processing)
    && (key in s'.core.processing <==> GetsKey(e, key) || (key in s.core.processing && !DonesKey(e, key)))
  }

  lemma StepOnKey<I, K(!new)>(ops: Ops<I, K>, s: Sys<I, K>, e: Event<I, K>, key: K)
    requires SysInv(ops, s) && Enabled(ops, s, e)
    ensures KeyStep(s, e, After(ops, s, e), key)
  {
    if e.Get? {
      HeadIsPending(ops, s.core);
    }
  }

  ghost predicate KeySteps<I(!new), K(!new)>(ss: seq<Sys<I, K>>, es: seq<Event<I, K>>, key: K) {
    && |ss| == |es| + 1 && key !in ss[0].core.processing
    && forall i {:trigger es[i]} :: 0 <= i < |es| ==> KeyStep(ss[i], es[i], ss[i + 1], key)
  }

  lemma {:induction false} KeyStepsBalance<I(!new), K(!new)>(ss: seq<Sys<I, K>>, es: seq<Event<I, K>>, key: K, n: nat)
    requires KeySteps(ss, es, key) && n <= |es|
    ensures Gets(es, key, n) == Dones(es, key, n) + if key in ss[n].core.processing then 1 else 0
  {
    if n > 0 {
      KeyStepsBalance(ss, es, key, n - 1);
      assert KeyStep(ss[n - 1], es[n - 1], ss[n], key);
    }
  }

  /** A key has one holder or none: the Gets of it not yet matched by a Done. */
  lemma OneHolder<I(!new), K(!new)>(ops: Ops<I, K>, ss: seq<Sys<I, K>>, es: seq<Event<I, K>>, key: K, n: nat)
    requires IsRun(ops, ss, es) && n <= |es|
    ensures Gets(es, key, n) == Dones(es, key, n) + if key in ss[n].core.processing then 1 else 0
  {
    forall i | 0 <= i < |es|
      ensures KeyStep(ss[i], es[i], ss[i + 1], key)
    {
      RunKeepsInv(ops, ss, es, i);
      StepAt(ops, ss, es, i);
      StepOnKey(ops, ss[i], es[i], key);
    }
    KeyStepsBalance(ss, es, key, n);
  }

  // ----- Fair: keys leave in the order they were put on the queue -----

  /** What a step puts at the end of the queue. */
  function Enqueued<I, K(==)>(s: Sys<I, K>, e: Event<I, K>): seq<K> {
    match e
    case Push(i, _) => if i < |s.pushing| && PushEnqueues(s.core, s.pushing[i].data, s.clock) then [s.pushing[i].data] else []
    case LoopStep(le, _) =>
      var key := LoopKey(s.loop, le);
      if key.Some? && PushEnqueues(s.core, key.value, s.clock) then [key.value] else []
    case Done(key, _) => if key in s.core.dirty then [key] else []
    case _ => []
  }

  function HandedOut<I, K>(e: Event<I, K>): seq<K> {
    if e.Get? then [e.key] else []
  }

  ghost function AppendOrder<I(!new), K(!new)>(ss: seq<Sys<I, K>>, es: seq<Event<I, K>>, n: nat): seq<K>
    requires n <= |es| <= |ss|
  {
    if n == 0 then [] else AppendOrder(ss, es, n - 1) + Enqueued(ss[n - 1], es[n - 1])
  }

  ghost function GetOrder<I(!new), K(!new)>(es: seq<Event<I, K>>, n: nat): seq<K>
    requires n <= |es|
  {
    if n == 0 then [] else GetOrder(es, n - 1) + HandedOut(es[n - 1])
  }

  ghost predicate QueueStep<I, K(!new)>(s: Sys<I, K>, e: Event<I, K>, s': Sys<I, K>) {
    HandedOut(e) + s'.core.queue == s.core.queue + Enqueued(s, e)
  }

  lemma PushMovesQueue<I, K(!new)>(ops: Ops<I, K>, s: Sys<I, K>, e: Event<I, K>)
    requires Enabled(ops, s, e) && (e.Push? || e.LoopStep?)
    ensures After(ops, s, e).core.queue == s.core.queue + Enqueued(s, e)
  {
  }

  lemma OthersLeaveQueue<I, K(!new)>(ops: Ops<I, K>, s: Sys<I, K>, e: Event<I, K>)
    requires Enabled(ops, s, e) && !(e.Push? || e.LoopStep? || e.Get? || e.Done?)
    ensures After(ops, s, e).core.queue == s.core.queue
  {
  }

  lemma StepMovesQueue<I, K(!new)>(ops: Ops<I, K>, s: Sys<I, K>, e: Event<I, K>)
    requires Enabled(ops, s, e)
    ensures QueueStep(s, e, After(ops, s, e))
  {
    if e.Push? || e.LoopStep? {
      PushMovesQueue(ops, s, e);
    } else if !e.Get? && !e.Done? {
      OthersLeaveQueue(ops, s, e);
    }
  }

  ghost predicate QueueSteps<I(!new), K(!new)>(ss: seq<Sys<I, K>>, es: seq<Event<I, K>>) {
    && |ss| == |es| + 1 && ss[0].core.queue == []
    && forall i {:trigger es[i]} :: 0 <= i < |es| ==> QueueStep(ss[i], es[i], ss[i + 1])
  }

  lemma {:induction false} QueueStepsInOrder<I(!new), K(!new)>(ss: seq<Sys<I, K>>, es: seq<Event<I, K>>, n: nat)
    requires QueueSteps(ss, es) && n <= |es|
    ensures GetOrder(es, n) + ss[n].core.queue == AppendOrder(ss, es, n)
  {
    if n > 0 {
      QueueStepsInOrder(ss, es, n - 1);
      assert QueueStep(ss[n - 1], es[n - 1], ss[n]);
      WorkQueue.Regroup(GetOrder(es, n - 1), HandedOut(es[n - 1]), ss[n].core.queue,
              ss[n - 1].core.queue, Enqueued(ss[n - 1], es[n - 1]), AppendOrder(ss, es, n - 1));
    }
  }

  /** The keys handed out so far, then the queue, are exactly the keys ever put on the queue, in order. */
  lemma FirstInFirstOut<I(!new), K(!new)>(ops: Ops<I, K>, ss: seq<Sys<I, K>>, es: seq<Event<I, K>>, n: nat)
    requires IsRun(ops, ss, es) && n <= |es|
    ensures GetOrder(es, n) + ss[n].core.queue == AppendOrder(ss, es, n)
  {
    forall i | 0 <= i < |es|
      ensures QueueStep(ss[i], es[i], ss[i + 1])
    {
      StepAt(ops, ss, es, i);
      StepMovesQueue(ops, ss[i], es[i]);
    }
    QueueStepsInOrder(ss, es, n);
  }

  // ----- What is pending is the greatest item offered, at the earliest time asked -----

  ghost predicate Transitive<I(!new), K>(ops: Ops<I, K>) {
    forall a, b, c :: ops.lessOrEqual(a, b) && ops.lessOrEqual(b, c) ==> ops.lessOrEqual(a, c)
  }

  /** Items compare, all with all. */
  ghost predicate TotalPreorder<I(!new), K>(ops: Ops<I, K>) {
    && Transitive(ops)
    && (forall a, b :: ops.lessOrEqual(a, b) || ops.lessOrEqual(b, a))
    && (forall a :: ops.compared(a))
  }

  /** The step offers an item for `key` to the open queue. */
  predicate Offers<I, K(==)>(s: Sys<I, K>, e: Event<I, K>, key: K) {
    e.Offer? && e.i < |s.offering| && s.offering[e.i].key == key && !s.core.shuttingDown
  }

  function OfferOf<I, K(==)>(s: Sys<I, K>, e: Event<I, K>, key: K): Call<I, K>
    requires Offers(s, e, key)
  {
    s.offering[e.i]
  }

  /** Step `i` made `key` pending, and it has been so up to state `n`. */
  ghost predicate PendingSince<I(!new), K(!new)>(ss: seq<Sys<I, K>>, key: K, i: nat, n: nat) {
    i < n < |ss| && key !in ss[i].core.pending && forall m :: i < m <= n ==> key in ss[m].core.pending
  }

  /**
    `data` was offered at step `w`; of what was offered since `i` nothing is strictly greater, and what came after
    `w` is not even as great. Items that do not compare give way to nothing.
   */
  ghost predicate LatestGreatest<I(!new), K(!new)>(
    ops: Ops<I, K>, ss: seq<Sys<I, K>>, es: seq<Event<I, K>>, key: K, i: nat, n: nat, w: nat, data: I)
    requires |ss| == |es| + 1 && n <= |es|
  {
    && i <= w < n && Offers(ss[w], es[w], key) && OfferOf(ss[w], es[w], key).item == data
    && (forall m {:trigger es[m]} :: i <= m < n && Offers(ss[m], es[m], key) ==>
          NotGreater(ops, OfferOf(ss[m], es[m], key).item, data))
    && (forall m {:trigger es[m]} :: w < m < n && Offers(ss[m], es[m], key) ==>
          !ops.GivesWay(data, OfferOf(ss[m], es[m], key).item))
  }

  ghost predicate NotGreater<I, K>(ops: Ops<I, K>, item: I, data: I) {
    item == data || ops.GivesWay(item, data) || !ops.GivesWay(data, item)
  }

  /** `readyAt` is the least time asked for since step `i`. */
  ghost predicate Earliest<I(!new), K(!new)>(
    ss: seq<Sys<I, K>>, es: seq<Event<I, K>>, key: K, i: nat, n: nat, readyAt: int)
    requires |ss| == |es| + 1 && n <= |es|
  {
    && (exists m :: i <= m < n && Offers(ss[m], es[m], key) && OfferOf(ss[m], es[m], key).readyAt == readyAt)
    && (forall m {:trigger es[m]} :: i <= m < n && Offers(ss[m], es[m], key) ==> readyAt <= OfferOf(ss[m], es[m], key).readyAt)
  }

  /** What one step does to the pending entry of a key: only an offer makes one or changes one. */
  ghost predicate PendingStep<I, K(!new)>(ops: Ops<I, K>, s: Sys<I, K>, e: Event<I, K>, s': Sys<I, K>, key: K) {
    key in s'.core.pending ==>
      s'.core.pending[key] ==
      if !Offers(s, e, key) then
        if key in s.core.pending then s.core.pending[key] else s'.core.pending[key]
      else
        var c := OfferOf(s, e, key);
        if key in s.core.pending then Merged(ops, s.core.pending[key], c.item, c.readyAt) else Entry(c.item, c.readyAt)
  }

  lemma StepOnPending<I, K(!new)>(ops: Ops<I, K>, s: Sys<I, K>, e: Event<I, K>, key: K)
    requires SysInv(ops, s) && Enabled(ops, s, e)
    ensures PendingStep(ops, s, e, After(ops, s, e), key)
    ensures key in After(ops, s, e).core.pending && key !in s.core.pending ==> Offers(s, e, key)
  {
  }

  /** The part of a run that concerns a key that became pending at step `i`. */
  ghost predicate Span<I(!new), K(!new)>(
    ops: Ops<I, K>, ss: seq<Sys<I, K>>, es: seq<Event<I, K>>, key: K, i: nat, n: nat)
  {
    && |ss| == |es| + 1 && PendingSince(ss, key, i, n) && Offers(ss[i], es[i], key)
    && forall m {:trigger es[m]} :: i <= m < n ==> PendingStep(ops, ss[m], es[m], ss[m + 1], key)
  }

  lemma RunSpans<I(!new), K(!new)>(
    ops: Ops<I, K>, ss: seq<Sys<I, K>>, es: seq<Event<I, K>>, key: K, i: nat, n: nat)
    requires IsRun(ops, ss, es) && n <= |es| && PendingSince(ss, key, i, n)
    ensures Span(ops, ss, es, key, i, n)
  {
    forall m | i <= m < n
      ensures PendingStep(ops, ss[m], es[m], ss[m + 1], key)
      ensures key in ss[m + 1].core.pending && key !in ss[m].core.pending ==> Offers(ss[m], es[m], key)
    {
      RunKeepsInv(ops, ss, es, m);
      StepAt(ops, ss, es, m);
      StepOnPending(ops, ss[m], es[m], key);
    }
  }

  /** One more step: the entry took over an item it gives way to, or kept its own. */
  lemma GreatestExtends<I(!new), K(!new)>(
    ops: Ops<I, K>, ss: seq<Sys<I, K>>, es: seq<Event<I, K>>, key: K, i: nat, n: nat, v: nat, was: I) returns (w: nat)
    requires |ss| == |es| + 1 && n < |es| && LatestGreatest(ops, ss, es, key, i, n, v, was) && Transitive(ops)
    ensures Offers(ss[n], es[n], key) && ops.GivesWay(was, OfferOf(ss[n], es[n], key).item) ==>
      LatestGreatest(ops, ss, es, key, i, n + 1, w, OfferOf(ss[n], es[n], key).item)
    ensures !(Offers(ss[n], es[n], key) && ops.GivesWay(was, OfferOf(ss[n], es[n], key).item)) ==>
      LatestGreatest(ops, ss, es, key, i, n + 1, w, was)
  {
    w := if Offers(ss[n], es[n], key) && ops.GivesWay(was, OfferOf(ss[n], es[n], key).item) then n else v;
    if w == n {
      forall m | i <= m < n && Offers(ss[m], es[m], key)
        ensures NotGreater(ops, OfferOf(ss[m], es[m], key).item, OfferOf(ss[n], es[n], key).item)
      {
        assert NotGreater(ops, OfferOf(ss[m], es[m], key).item, was);
      }
    }
  }

  lemma {:induction false} SpanGreatest<I(!new), K(!new)>(
    ops: Ops<I, K>, ss: seq<Sys<I, K>>, es: seq<Event<I, K>>, key: K, i: nat, n: nat) returns (w: nat)
    requires Span(ops, ss, es, key, i, n) && Transitive(ops)
    ensures LatestGreatest(ops, ss, es, key, i, n, w, ss[n].core.pending[key].data)
    decreases n
  {
    assert PendingStep(ops, ss[n - 1], es[n - 1], ss[n], key);
    if n == i + 1 {
      w := i;
    } else {
      w := SpanGreatest(ops, ss, es, key, i, n - 1);
      w := GreatestExtends(ops, ss, es, key, i, n - 1, w, ss[n - 1].core.pending[key].data);
    }
  }

  /**
    For every transitive order the pending item was offered since the key became pending, nothing offered since is
    strictly greater, and nothing offered after it is as great. Where all items compare with all, it is the greatest.
   */
  lemma MergeKeepsGreatest<I(!new), K(!new)>(
    ops: Ops<I, K>, ss: seq<Sys<I, K>>, es: seq<Event<I, K>>, key: K, i: nat, n: nat)
    requires IsRun(ops, ss, es) && n <= |es| && PendingSince(ss, key, i, n) && Transitive(ops)
    ensures exists w :: LatestGreatest(ops, ss, es, key, i, n, w, ss[n].core.pending[key].data)
    ensures TotalPreorder(ops) ==>
      forall m {:trigger es[m]} :: i <= m < n && Offers(ss[m], es[m], key) ==>
        ops.lessOrEqual(OfferOf(ss[m], es[m], key).item, ss[n].core.pending[key].data)
  {
    RunSpans(ops, ss, es, key, i, n);
    var w := SpanGreatest(ops, ss, es, key, i, n);
  }

  lemma {:induction false} SpanEarliest<I(!new), K(!new)>(
    ops: Ops<I, K>, ss: seq<Sys<I, K>>, es: seq<Event<I, K>>, key: K, i: nat, n: nat) returns (w: nat)
    requires Span(ops, ss, es, key, i, n)
    ensures i <= w < n && Offers(ss[w], es[w], key) && OfferOf(ss[w], es[w], key).readyAt == ss[n].core.pending[key].readyAt
    ensures forall m {:trigger es[m]} :: i <= m < n && Offers(ss[m], es[m], key) ==>
      ss[n].core.pending[key].readyAt <= OfferOf(ss[m], es[m], key).readyAt
    decreases n
  {
    var s, e := ss[n - 1], es[n - 1];
    assert PendingStep(ops, s, e, ss[n], key);
    w := n - 1;
    if n > i + 1 {
      var v := SpanEarliest(ops, ss, es, key, i, n - 1);
      if !Offers(s, e, key) || s.core.pending[key].readyAt <= OfferOf(s, e, key).readyAt {
        w := v;
      }
    }
  }

  /** Its time is the least asked for since the key became pending. */
  lemma MergeKeepsEarliest<I(!new), K(!new)>(
    ops: Ops<I, K>, ss: seq<Sys<I, K>>, es: seq<Event<I, K>>, key: K, i: nat, n: nat)
    requires IsRun(ops, ss, es) && n <= |es| && PendingSince(ss, key, i, n)
    ensures Earliest(ss, es, key, i, n, ss[n].core.pending[key].readyAt)
  {
    RunSpans(ops, ss, es, key, i, n);
    var w := SpanEarliest(ops, ss, es, key, i, n);
  }

  lemma {:induction false} SpanFirst<I(!new), K(!new)>(
    ops: Ops<I, K>, ss: seq<Sys<I, K>>, es: seq<Event<I, K>>, key: K, i: nat, n: nat)
    requires Span(ops, ss, es, key, i, n) && forall a :: !ops.compared(a)
    ensures ss[n].core.pending[key].data == OfferOf(ss[i], es[i], key).item
    decreases n
  {
    assert PendingStep(ops, ss[n - 1], es[n - 1], ss[n], key);
    if n > i + 1 {
      SpanFirst(ops, ss, es, key, i, n - 1);
    }
  }

  /** Items that do not compare: what was offered first stays. */
  lemma UncomparedKeepsFirst<I(!new), K(!new)>(
    ops: Ops<I, K>, ss: seq<Sys<I, K>>, es: seq<Event<I, K>>, key: K, i: nat, n: nat)
    requires IsRun(ops, ss, es) && n <= |es| && PendingSince(ss, key, i, n) && forall a :: !ops.compared(a)
    ensures Offers(ss[i], es[i], key) && ss[n].core.pending[key].data == OfferOf(ss[i], es[i], key).item
  {
    RunSpans(ops, ss, es, key, i, n);
    SpanFirst(ops, ss, es, key, i, n);
  }

  /** Every pending key became pending at some step. */
  lemma {:induction false} PendingHasBegun<I(!new), K(!new)>(
    ops: Ops<I, K>, ss: seq<Sys<I, K>>, es: seq<Event<I, K>>, key: K, n: nat) returns (i: nat)
    requires IsRun(ops, ss, es) && n <= |es| && key in ss[n].core.pending
    ensures PendingSince(ss, key, i, n)
  {
    if key !in ss[n - 1].core.pending {
      i := n - 1;
    } else {
      i := PendingHasBegun(ops, ss, es, key, n - 1);
    }
  }

  // ----- An accepted item is not lost -----

  /** The queue refuses the offer: the key is not pending, and what is being processed is newer. */
  predicate RefusesOffer<I, K(==)>(ops: Ops<I, K>, s: Sys<I, K>, e: Event<I, K>, key: K)
    requires Offers(s, e, key)
  {
    && key !in s.core.pending && key in s.core.processing && ops.compared(s.core.processing[key].data)
    && !ops.lessOrEqual(s.core.processing[key].data, OfferOf(s, e, key).item)
  }

  /** An offer to the open queue leaves its key pending exactly when it is not refused. */
  lemma OfferAcceptedExactlyWhen<I, K(!new)>(ops: Ops<I, K>, s: Sys<I, K>, e: Event<I, K>, key: K)
    requires Enabled(ops, s, e) && Offers(s, e, key)
    ensures key in After(ops, s, e).core.pending <==> !RefusesOffer(ops, s, e, key)
  {
  }

  ghost predicate GotBetween<I(!new), K(!new)>(es: seq<Event<I, K>>, key: K, i: nat, n: nat)
    requires n <= |es|
  {
    exists k :: i < k < n && GetsKey(es[k], key)
  }

  /** Only Get takes a key out of the pending ones. */
  lemma StepKeepsPending<I, K(!new)>(ops: Ops<I, K>, s: Sys<I, K>, e: Event<I, K>, key: K)
    requires Enabled(ops, s, e) && key in s.core.pending && !GetsKey(e, key)
    ensures key in After(ops, s, e).core.pending
  {
  }

  lemma {:induction false} PendingUntilGet<I(!new), K(!new)>(
    ops: Ops<I, K>, ss: seq<Sys<I, K>>, es: seq<Event<I, K>>, key: K, i: nat, n: nat)
    requires IsRun(ops, ss, es) && i < n <= |es| && key in ss[i + 1].core.pending && !GotBetween(es, key, i, n)
    ensures forall m :: i < m <= n ==> key in ss[m].core.pending
    decreases n
  {
    if n > i + 1 {
      assert !GetsKey(es[n - 1], key);
      assert !GotBetween(es, key, i, n - 1);
      PendingUntilGet(ops, ss, es, key, i, n - 1);
      StepAt(ops, ss, es, n - 1);
      StepKeepsPending(ops, ss[n - 1], es[n - 1], key);
    }
  }

  /**
    An item that the open queue does not refuse is not lost: until a Get of its key the key is pending, for a time
    no later than asked, with that item or one that it is not greater than.
   */
  lemma AcceptedItemIsKept<I(!new), K(!new)>(
    ops: Ops<I, K>, ss: seq<Sys<I, K>>, es: seq<Event<I, K>>, key: K, i: nat, n: nat)
    requires IsRun(ops, ss, es) && i < n <= |es| && Offers(ss[i], es[i], key) && !RefusesOffer(ops, ss[i], es[i], key)
    requires !GotBetween(es, key, i, n)
    ensures key in ss[n].core.pending && ss[n].core.pending[key].readyAt <= OfferOf(ss[i], es[i], key).readyAt
    ensures Transitive(ops) ==> NotGreater(ops, OfferOf(ss[i], es[i], key).item, ss[n].core.pending[key].data)
  {
    StepAt(ops, ss, es, i);
    OfferAcceptedExactlyWhen(ops, ss[i], es[i], key);
    PendingUntilGet(ops, ss, es, key, i, n);
    var b := PendingHasBegun(ops, ss, es, key, n);
    assert b <= i;
    MergeKeepsEarliest(ops, ss, es, key, b, n);
    if Transitive(ops) {
      MergeKeepsGreatest(ops, ss, es, key, b, n);
    }
  }

  /**
    Get never hands an item out early, whatever stale tokens fire: the clock has reached the least time
    asked for since the key became pending.
   */
  lemma NeverEarly<I(!new), K(!new)>(ops: Ops<I, K>, ss: seq<Sys<I, K>>, es: seq<Event<I, K>>, key: K, n: nat)
    requires IsRun(ops, ss, es) && n < |es| && GetsKey(es[n], key)
    ensures exists i: nat, r :: PendingSince(ss, key, i, n) && r <= ss[n].clock && Earliest(ss, es, key, i, n, r)
  {
    RunKeepsInv(ops, ss, es, n);
    StepAt(ops, ss, es, n);
    HeadIsPending(ops, ss[n].core);
    var i := PendingHasBegun(ops, ss, es, key, n);
    MergeKeepsEarliest(ops, ss, es, key, i, n);
  }

  // ----- Versions never go back -----

  /** Of a key that is both being processed and pending, the pending item is at least as new. */
  ghost predicate VersionsInOrder<I, K(!new)>(ops: Ops<I, K>, c: Core<I, K>) {
    forall k :: k in c.processing && k in c.pending && ops.compared(c.processing[k].data) ==>
      ops.lessOrEqual(c.processing[k].data, c.pending[k].data)
  }

  lemma StepKeepsVersions<I(!new), K(!new)>(ops: Ops<I, K>, s: Sys<I, K>, e: Event<I, K>)
    requires SysInv(ops, s) && Enabled(ops, s, e) && Transitive(ops) && VersionsInOrder(ops, s.core)
    ensures VersionsInOrder(ops, After(ops, s, e).core)
  {
  }

  lemma {:induction false} PendingNotOlder<I(!new), K(!new)>(
    ops: Ops<I, K>, ss: seq<Sys<I, K>>, es: seq<Event<I, K>>, n: nat)
    requires IsRun(ops, ss, es) && n <= |es| && Transitive(ops)
    ensures VersionsInOrder(ops, ss[n].core)
  {
    if n > 0 {
      PendingNotOlder(ops, ss, es, n - 1);
      RunKeepsInv(ops, ss, es, n - 1);
      StepAt(ops, ss, es, n - 1);
      StepKeepsVersions(ops, ss[n - 1], es[n - 1]);
    }
  }
}
