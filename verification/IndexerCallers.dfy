/** The callers of the keyed delaying queue: none appears or disappears but by calling and returning, and none is stuck. */
module IndexerCallers {
  import opened IndexerQueue
  import opened Waiters
  import opened IndexerSystem
  import opened IndexerRuns
  import opened IndexerBackPressure

  // ----- Callers are conserved -----

  datatype Inside = Inside(getters: int, drainers: int, adders: int) {
    function Plus(o: Inside): Inside {
      Inside(getters + o.getters, drainers + o.drainers, adders + o.adders)
    }
  }

  function Here<I, K>(s: Sys<I, K>): Inside {
    Inside(Getters(s.w), Drainers(s.w), CallsInProgress(s))
  }

  function GetChange<I, K>(e: Event<I, K>): int {
    if e.Sleep? && e.arriving then 1 else if (e.Get? || e.Quit?) && !e.arriving then -1 else 0
  }

  function DrainChange<I, K(==)>(s: Sys<I, K>, e: Event<I, K>): int {
    if e.DrainEnter? then 1
    else if e.Drain? && DrainLeaves(e.step, s.core.processing != map[], s.core.drain) then -1 else 0
  }

  /**
    Add and AddAfter: a call begins at the gate or with its clock reading, and returns where it needs no push,
    pushes, sends, gives up, or has no key.
   */
  function AddChange<I, K(==)>(ops: Ops<I, K>, s: Sys<I, K>, e: Event<I, K>): int {
    match e
    case GatePass(arriving) => if arriving then 1 else 0
    case GateSleep(arriving) => if arriving then 1 else 0
    case AddAfter(item, _) => if ops.key(item).Some? then 1 else 0
    case AddNow(item) => if ops.key(item).Some? then 0 else -1
    case Offer(i) =>
      if i < |s.offering| && NeedsPush(ops, s.core, s.offering[i].key, s.offering[i].item, s.offering[i].readyAt) then 0 else -1
    case Push(_, _) => -1
    case Send(_) => -1
    case Abandon(_) => -1
    case _ => 0
  }

  lemma StepOnWaiters<I, K(!new)>(ops: Ops<I, K>, s: Sys<I, K>, e: Event<I, K>)
    requires Enabled(ops, s, e)
    ensures Getters(After(ops, s, e).w) == Getters(s.w) + GetChange(e)
    ensures Drainers(After(ops, s, e).w) == Drainers(s.w) + DrainChange(s, e)
  {
    if e.Drain? {
      DrainerLeavesExactlyWhen(s.w, e.step, s.core.processing != map[], s.core.drain);
    }
  }

  lemma StepOnAdders<I, K(!new)>(ops: Ops<I, K>, s: Sys<I, K>, e: Event<I, K>)
    requires Enabled(ops, s, e)
    ensures CallsInProgress(After(ops, s, e)) == CallsInProgress(s) + AddChange(ops, s, e)
  {
  }

  function Change<I, K(==)>(ops: Ops<I, K>, s: Sys<I, K>, e: Event<I, K>): Inside {
    Inside(GetChange(e), DrainChange(s, e), AddChange(ops, s, e))
  }

  ghost function Changes<I(!new), K(!new)>(ops: Ops<I, K>, ss: seq<Sys<I, K>>, es: seq<Event<I, K>>, n: nat): Inside
    requires n <= |es| <= |ss|
  {
    if n == 0 then Inside(0, 0, 0) else Changes(ops, ss, es, n - 1).Plus(Change(ops, ss[n - 1], es[n - 1]))
  }

  /** In every reachable state exactly the callers are inside that have come and not returned. */
  lemma {:induction false} CallersConserved<I(!new), K(!new)>(
    ops: Ops<I, K>, ss: seq<Sys<I, K>>, es: seq<Event<I, K>>, n: nat)
    requires IsRun(ops, ss, es) && n <= |es|
    ensures Here(ss[n]) == Changes(ops, ss, es, n)
  {
    if n > 0 {
      CallersConserved(ops, ss, es, n - 1);
      StepAt(ops, ss, es, n - 1);
      StepOnWaiters(ops, ss[n - 1], es[n - 1]);
      StepOnAdders(ops, ss[n - 1], es[n - 1]);
    }
  }

  lemma {:induction false} ChannelIsBounded<I(!new), K(!new)>(
    ops: Ops<I, K>, ss: seq<Sys<I, K>>, es: seq<Event<I, K>>, n: nat)
    requires IsRun(ops, ss, es) && n <= |es|
    ensures |ss[n].loop.ch| <= 1000
  {
    if n > 0 {
      ChannelIsBounded(ops, ss, es, n - 1);
      StepAt(ops, ss, es, n - 1);
    }
  }

  // ----- What is offered was asked for -----

  /** The step calls Add or AddAfter with this item, for this time. */
  predicate Calls<I(==), K>(s: Sys<I, K>, e: Event<I, K>, item: I, readyAt: int) {
    (e.AddAfter? && e.item == item && readyAt == s.clock + e.delay) || (e.AddNow? && e.item == item && readyAt == s.clock)
  }

  lemma StepMakesCall<I(!new), K(!new)>(ops: Ops<I, K>, s: Sys<I, K>, e: Event<I, K>, c: Call<I, K>)
    requires Enabled(ops, s, e) && c in After(ops, s, e).offering && c !in s.offering
    ensures Calls(s, e, c.item, c.readyAt) && ops.key(c.item) == Some(c.key)
  {
  }

  /** Every offer on its way is of an item that a caller gave, under its key, for the time it asked for. */
  lemma {:induction false} OfferWasCalled<I(!new), K(!new)>(
    ops: Ops<I, K>, ss: seq<Sys<I, K>>, es: seq<Event<I, K>>, c: Call<I, K>, n: nat)
    requires IsRun(ops, ss, es) && n <= |es| && c in ss[n].offering
    ensures ops.key(c.item) == Some(c.key) && exists i :: 0 <= i < n && Calls(ss[i], es[i], c.item, c.readyAt)
  {
    StepAt(ops, ss, es, n - 1);
    if c in ss[n - 1].offering {
      OfferWasCalled(ops, ss, es, c, n - 1);
    } else {
      StepMakesCall(ops, ss[n - 1], es[n - 1], c);
    }
  }

  // ----- Sleepers are woken for a reason -----

  /** A step wakes consumers or drainers only if it queues a key, leaves nothing in processing, or shuts the queue down. */
  lemma WokenOnlyWhen<I, K(!new)>(ops: Ops<I, K>, s: Sys<I, K>, e: Event<I, K>)
    requires Enabled(ops, s, e) && Sleepers(After(ops, s, e).w) < Sleepers(s.w)
    ensures Enqueued(s, e) != [] || (e.Done? && After(ops, s, e).core.processing == map[]) || e.StopShutdown?
    ensures Sleepers(After(ops, s, e).w) < Sleepers(s.w) - 1 ==> e.StopShutdown?
  {
  }

  /** And producers at the gate only if it makes room, one at a time, or shuts the queue down. */
  lemma GateWakesOnlyWhen<I, K(!new)>(ops: Ops<I, K>, s: Sys<I, K>, e: Event<I, K>)
    requires Enabled(ops, s, e) && After(ops, s, e).gate.asleep < s.gate.asleep
    ensures (e.Done? && After(ops, s, e).gate.asleep == s.gate.asleep - 1) || e.StopShutdown?
  {
  }

  // ----- One drainer is not stranded -----

  ghost predicate NoDrainerStranded<I, K>(s: Sys<I, K>) {
    s.w.drainAsleep > 0 ==> s.core.processing != map[]
  }

  lemma StepStrandsNobody<I, K(!new)>(ops: Ops<I, K>, s: Sys<I, K>, e: Event<I, K>)
    requires Wakeful(s) && Enabled(ops, s, e) && NoDrainerStranded(s) && Drainers(s.w) <= 1
    ensures NoDrainerStranded(After(ops, s, e))
  {
    if e.Done? {
      assert (s.core.processing - {e.key}).Keys == s.core.processing.Keys - {e.key};
    } else if e.Get? {
      assert e.key in After(ops, s, e).core.processing;
    }
  }

  /** With at most one ShutDownWithDrain in progress, no drainer sleeps once nothing is being processed. */
  lemma {:induction false} LoneDrainerNotStranded<I(!new), K(!new)>(
    ops: Ops<I, K>, ss: seq<Sys<I, K>>, es: seq<Event<I, K>>, n: nat)
    requires IsRun(ops, ss, es) && n <= |es| && forall i {:trigger ss[i]} :: 0 <= i < |ss| ==> Drainers(ss[i].w) <= 1
    ensures NoDrainerStranded(ss[n])
  {
    if n > 0 {
      LoneDrainerNotStranded(ops, ss, es, n - 1);
      RunKeepsInv(ops, ss, es, n - 1);
      StepAt(ops, ss, es, n - 1);
      StepStrandsNobody(ops, ss[n - 1], es[n - 1]);
    }
  }

  // ----- Nobody is stuck -----

  /** One pass of Get's wait loop. */
  predicate GetPass<I, K>(e: Event<I, K>, arriving: bool) {
    (e.Get? || e.Sleep? || e.Quit?) && e.arriving == arriving
  }

  lemma ConsumersNotStuck<I, K(!new)>(ops: Ops<I, K>, s: Sys<I, K>, key: K, arriving: bool)
    requires SysInv(ops, s)
    ensures GetterRuns(s.w, arriving) ==> exists e :: GetPass(e, arriving) && Enabled(ops, s, e)
    ensures key in s.core.processing ==> Enabled(ops, s, Done(key, SomeWake(s.w)))
  {
    if s.core.queue != [] {
      HeadIsPending(ops, s.core);
    }
    var e :=
      if s.core.queue != [] then Get(s.core.queue[0], arriving)
      else if s.core.shuttingDown then Quit(arriving) else Sleep(arriving);
    assert GetterRuns(s.w, arriving) ==> GetPass(e, arriving) && Enabled(ops, s, e);
  }

  /**
    Producers wait only at the gate, while the open queue holds 128 entries or more, and for room in the channel
    while the queue is open.
   */
  lemma ProducersNotStuck<I, K(!new)>(ops: Ops<I, K>, s: Sys<I, K>, item: I, arriving: bool, i: nat)
    ensures GateRuns(s.gate, arriving) ==> Enabled(ops, s, GatePass(arriving)) || Enabled(ops, s, GateSleep(arriving))
    ensures Enabled(ops, s, GateSleep(arriving)) ==> |s.core.pending| + |s.core.processing| >= 128 && !s.core.shuttingDown
    ensures Enabled(ops, s, AddAfter(item, 0)) && (s.gate.passed > 0 ==> Enabled(ops, s, AddNow(item)))
    ensures (i < |s.offering| ==> Enabled(ops, s, Offer(i))) && (i < |s.deciding| ==> Enabled(ops, s, Decide(i)))
    ensures i < |s.pushing| ==> Enabled(ops, s, Push(i, SomeWake(s.w)))
    ensures i < |s.sending| && |s.loop.ch| < 1000 ==> Enabled(ops, s, Send(i))
    ensures i < |s.sending| && s.stop.Closed? ==> Enabled(ops, s, Abandon(i))
  {
  }

  /** The shutdown goes on to its end, and then every drainer can enter and move. */
  lemma ShutDownNotStuck<I, K(!new)>(ops: Ops<I, K>, s: Sys<I, K>, drain: bool)
    ensures s.stop.Open? ==> Enabled(ops, s, StopBegin(drain))
    ensures s.stop.Begun? ==> Enabled(ops, s, StopShutdown) && After(ops, s, StopShutdown).stop.Shut?
    ensures s.stop.Shut? ==> Enabled(ops, s, StopClose) && After(ops, s, StopClose).stop.Closed?
    ensures s.stop.Closed? ==> Enabled(ops, s, DrainEnter)
    ensures s.w.checking > 0 ==> Enabled(ops, s, Drain(IsProcessing))
    ensures s.w.deciding > 0 ==> Enabled(ops, s, Drain(ShouldDrain))
    ensures s.w.waiting > 0 ==> Enabled(ops, s, Drain(WaitForProcessing))
    ensures s.w.drainWoken > 0 ==> Enabled(ops, s, Drain(Resume))
  {
  }
}
