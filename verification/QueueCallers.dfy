/** The callers of the work queue: none appears or disappears but by calling and returning, and none is stuck. */
module QueueCallers {
  import opened Waiters
  import opened QueueSystem

  // ----- Callers are conserved -----

  /** A caller of Get begins to wait; one that has waited returns, with an item or without. */
  predicate GetWaits<T>(e: Event<T>) {
    e.Sleep? && e.arriving
  }

  predicate WaitedGetReturns<T>(e: Event<T>) {
    (e.Get? || e.Quit?) && !e.arriving
  }

  predicate DrainReturns<T(==)>(s: Sys<T>, e: Event<T>) {
    e.Drain? && DrainLeaves(e.step, s.q.processing != {}, s.q.drain)
  }

  /** How many callers of each kind are inside. */
  datatype Inside = Inside(getters: int, drainers: int, stoppers: int) {
    function Plus(o: Inside): Inside {
      Inside(getters + o.getters, drainers + o.drainers, stoppers + o.stoppers)
    }
  }

  function Here<T>(s: Sys<T>): Inside {
    Inside(Getters(s.w), Drainers(s.w), s.stopping)
  }

  /** Who comes and who returns in a step. */
  function Change<T(==)>(s: Sys<T>, e: Event<T>): Inside {
    Inside((if GetWaits(e) then 1 else 0) - (if WaitedGetReturns(e) then 1 else 0),
           (if e.DrainBegin? then 1 else 0) - (if DrainReturns(s, e) then 1 else 0),
           (if e.StopBegin? then 1 else 0) - (if e.StopShutdown? then 1 else 0))
  }

  lemma StepOnCallers<T(!new)>(s: Sys<T>, e: Event<T>)
    requires Enabled(s, e)
    ensures Here(After(s, e)) == Here(s).Plus(Change(s, e))
  {
  }

  ghost function Changes<T(!new)>(ss: seq<Sys<T>>, es: seq<Event<T>>, n: nat): Inside
    requires n <= |es| <= |ss|
  {
    if n == 0 then Inside(0, 0, 0) else Changes(ss, es, n - 1).Plus(Change(ss[n - 1], es[n - 1]))
  }

  /** In every reachable state exactly the callers are inside that have come and not returned: no signal loses one. */
  lemma {:induction false} CallersConserved<T(!new)>(ss: seq<Sys<T>>, es: seq<Event<T>>, n: nat)
    requires IsRun(Start(), ss, es) && n <= |es|
    ensures Here(ss[n]) == Changes(ss, es, n)
  {
    if n > 0 {
      CallersConserved(ss, es, n - 1);
      StepAt(Start(), ss, es, n - 1);
      StepOnCallers(ss[n - 1], es[n - 1]);
    }
  }

  // ----- Sleepers are woken for a reason -----

  /**
    A step wakes sleepers only if it queues an item, leaves nothing in processing, or shuts the queue down; all only
    then.
   */
  lemma WokenOnlyWhen<T(!new)>(s: Sys<T>, e: Event<T>)
    requires Enabled(s, e) && Sleepers(After(s, e).w) < Sleepers(s.w)
    ensures Enqueued(s, e) != [] || (e.Done? && After(s, e).q.processing == {}) || ShutsDown(e)
    ensures Sleepers(After(s, e).w) < Sleepers(s.w) - 1 ==> ShutsDown(e)
  {
  }

  // ----- Nobody is stuck -----

  /** One pass of Get's wait loop. */
  predicate GetPass<T>(e: Event<T>, arriving: bool) {
    (e.Get? || e.Sleep? || e.Quit?) && e.arriving == arriving
  }

  /** Whoever is inside and awake has a next step, and from outside every call can begin: the only wait is for a signal. */
  lemma NobodyIsStuck<T(!new)>(s: Sys<T>, x: T, arriving: bool)
    ensures GetterRuns(s.w, arriving) ==> exists e: Event<T> :: GetPass(e, arriving) && Enabled(s, e)
    ensures x in s.q.processing ==> Enabled(s, Done(x, SomeWake(s.w)))
    ensures Enabled(s, Add(x, SomeWake(s.w))) && Enabled(s, StopBegin) && Enabled(s, DrainBegin)
    ensures s.stopping > 0 ==> Enabled(s, StopShutdown)
    ensures s.w.starting > 0 ==> Enabled(s, DrainShutdown)
    ensures s.w.checking > 0 ==> Enabled(s, Drain(IsProcessing))
    ensures s.w.deciding > 0 ==> Enabled(s, Drain(ShouldDrain))
    ensures s.w.waiting > 0 ==> Enabled(s, Drain(WaitForProcessing))
    ensures s.w.drainWoken > 0 ==> Enabled(s, Drain(Resume))
  {
    var e :=
      if s.q.queue != [] then Get(s.q.queue[0], arriving) else if s.q.shuttingDown then Quit(arriving) else Sleep(arriving);
    assert GetterRuns(s.w, arriving) ==> GetPass(e, arriving) && Enabled(s, e);
  }
}
