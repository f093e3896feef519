/** What becomes of an added job: it is never dropped on the way to a worker, or back to the queue. */
module ExecutorKeeps {
  import opened RateLimiters
  import opened Executor
  import opened ExecutorRetries

  /** The job is in the queue, or a request to put it there is on its way. */
  ghost predicate Waiting<J(!new)>(dq: DQ.Sys<J>, j: J) {
    j in dq.q.dirty || exists readyAt :: DQ.OnItsWay(dq, j, readyAt)
  }

  /** A worker has the job and has not settled what becomes of it. */
  predicate InHand<J(==)>(pc: WorkerPC<J>, j: J) {
    HoldsJob(pc, j) && !pc.Finishing?
  }

  ghost predicate Alive<J(!new), ID(!new)>(s: Sys<J, ID>, j: J) {
    Waiting(s.dq, j) || exists w :: 0 <= w < |s.workers| && InHand(s.workers[w], j)
  }

  predicate PicksUp<J(==)>(e: Event<J>, j: J) {
    e.Pick? && e.j == j
  }

  /** A worker is through with the job: it succeeded or failed too often, was canceled, or failed with retries off. */
  predicate GivesUp<J(==), ID(==)>(c: Config<J, ID>, s: Sys<J, ID>, e: Event<J>, j: J) {
    || (e.Forget? && e.j == j)
    || (e.Finish? && e.w < |s.workers| && HoldsJob(s.workers[e.w], j)
        && (e.outcome.Canceled? || (e.outcome.Failed? && !c.allowRetries)))
  }

  lemma QueueKeepsWaiting<J(!new)>(dq: DQ.Sys<J>, e: DQ.Event<J>, j: J)
    requires DQ.SysInv(dq) && DQ.Enabled(dq, e) && !DQ.After(dq, e).q.shuttingDown && !DQ.GetsItem(e, j) && Waiting(dq, j)
    ensures Waiting(DQ.After(dq, e), j)
  {
    DQ.StepKeepsInv(dq, e);
    if j !in dq.q.dirty {
      var readyAt :| DQ.OnItsWay(dq, j, readyAt);
      DQ.StepKeepsOnItsWay(dq, e, j, readyAt);
    }
  }

  lemma StepKeepsWaiting<J(!new), ID(!new)>(c: Config<J, ID>, s: Sys<J, ID>, e: Event<J>, j: J)
    requires SysInv(s) && Enabled(c, s, e) && !After(c, s, e).dq.q.shuttingDown && Waiting(s.dq, j) && !PicksUp(e, j)
    ensures Waiting(After(c, s, e).dq, j)
  {
    StepOfQueue(c, s, e);
    if QueueEvent(s, e) != [] {
      QueueKeepsWaiting(s.dq, QueueEvent(s, e)[0], j);
    }
  }

  /** The worker that has the job in hand keeps it, puts it back, or gives it up. */
  lemma HolderKeeps<J(!new), ID(!new)>(c: Config<J, ID>, s: Sys<J, ID>, e: Event<J>, w: nat, j: J)
    requires Enabled(c, s, e) && !s.dq.q.shuttingDown && w < |s.workers| && InHand(s.workers[w], j) && !GivesUp(c, s, e, j)
    ensures |After(c, s, e).workers| == |s.workers|
    ensures InHand(After(c, s, e).workers[w], j) || Waiting(After(c, s, e).dq, j)
  {
    if e.Request? && e.w == w {
      DQ.RequestBegins(s.dq, j, s.workers[w].delay);
    }
  }

  lemma StepKeepsAlive<J(!new), ID(!new)>(c: Config<J, ID>, s: Sys<J, ID>, e: Event<J>, j: J)
    requires SysInv(s) && Enabled(c, s, e) && !s.dq.q.shuttingDown && !After(c, s, e).dq.q.shuttingDown
    requires Alive(s, j) && !GivesUp(c, s, e, j)
    ensures Alive(After(c, s, e), j)
  {
    var s' := After(c, s, e);
    if PicksUp(e, j) {
      assert InHand(s'.workers[e.w], j);
    } else if Waiting(s.dq, j) {
      StepKeepsWaiting(c, s, e, j);
    } else {
      var w :| 0 <= w < |s.workers| && InHand(s.workers[w], j);
      HolderKeeps(c, s, e, w, j);
    }
  }

  lemma StaysOpen<J(!new), ID(!new)>(c: Config<J, ID>, ss: seq<Sys<J, ID>>, es: seq<Event<J>>, n: nat)
    requires IsRun(c, ss, es) && 0 < n <= |es| && !ss[n].dq.q.shuttingDown
    ensures SysInv(ss[n - 1]) && Enabled(c, ss[n - 1], es[n - 1]) && ss[n] == After(c, ss[n - 1], es[n - 1])
    ensures !ss[n - 1].dq.q.shuttingDown
  {
    RunKeepsInv(c, ss, es, n - 1);
    StepAt(c, ss, es, n - 1);
    StepOfQueue(c, ss[n - 1], es[n - 1]);
    if QueueEvent(ss[n - 1], es[n - 1]) != [] {
      DQ.StepKeepsInv(ss[n - 1].dq, QueueEvent(ss[n - 1], es[n - 1])[0]);
    }
  }

  lemma {:induction false} WaitsUntilPicked<J(!new), ID(!new)>(
    c: Config<J, ID>, ss: seq<Sys<J, ID>>, es: seq<Event<J>>, i: nat, n: nat)
    requires IsRun(c, ss, es) && i < n <= |es| && es[i].AddJob? && !ss[n].dq.q.shuttingDown
    ensures Waiting(ss[n].dq, es[i].j) || exists p :: i < p < n && PicksUp(es[p], es[i].j)
    decreases n
  {
    var j := es[i].j;
    StaysOpen(c, ss, es, n);
    if n > i + 1 {
      WaitsUntilPicked(c, ss, es, i, n - 1);
      if Waiting(ss[n - 1].dq, j) && !PicksUp(es[n - 1], j) {
        StepKeepsWaiting(c, ss[n - 1], es[n - 1], j);
      }
    }
  }

  ghost predicate GivenUpBetween<J(!new), ID(!new)>(
    c: Config<J, ID>, ss: seq<Sys<J, ID>>, es: seq<Event<J>>, j: J, p: nat, n: nat)
    requires n <= |es| < |ss|
  {
    exists k :: p < k < n && GivesUp(c, ss[k], es[k], j)
  }

  lemma {:induction false} PickedIsKept<J(!new), ID(!new)>(
    c: Config<J, ID>, ss: seq<Sys<J, ID>>, es: seq<Event<J>>, j: J, p: nat, n: nat)
    requires IsRun(c, ss, es) && p < n <= |es| && PicksUp(es[p], j) && !ss[n].dq.q.shuttingDown
    ensures Alive(ss[n], j) || GivenUpBetween(c, ss, es, j, p, n)
    decreases n
  {
    StaysOpen(c, ss, es, n);
    if n == p + 1 {
      assert InHand(ss[n].workers[es[p].w], j);
    } else {
      PickedIsKept(c, ss, es, j, p, n - 1);
      if GivenUpBetween(c, ss, es, j, p, n - 1) {
        var k :| p < k < n - 1 && GivesUp(c, ss[k], es[k], j);
        assert GivesUp(c, ss[k], es[k], j);
      } else if !GivesUp(c, ss[n - 1], es[n - 1], j) {
        StepKeepsAlive(c, ss[n - 1], es[n - 1], j);
      }
    }
  }

  /**
    Until shutdown an added job is in the queue, on its way there or with a worker, or a worker has picked it up
    after it was added and, after that, has given it up.
   */
  lemma AddedJobIsKept<J(!new), ID(!new)>(c: Config<J, ID>, ss: seq<Sys<J, ID>>, es: seq<Event<J>>, i: nat, n: nat)
    requires IsRun(c, ss, es) && i < n <= |es| && es[i].AddJob? && !ss[n].dq.q.shuttingDown
    ensures Alive(ss[n], es[i].j) || exists p: nat :: i < p < n && PicksUp(es[p], es[i].j) && GivenUpBetween(c, ss, es, es[i].j, p, n)
  {
    WaitsUntilPicked(c, ss, es, i, n);
    if !Waiting(ss[n].dq, es[i].j) {
      var p: nat :| i < p < n && PicksUp(es[p], es[i].j);
      PickedIsKept(c, ss, es, es[i].j, p, n);
    }
  }

  // ----- Jobs are forgotten only when they succeeded, or were requeued often enough -----

  /** The worker's run of the job succeeded at step `m`, and it has been about to forget it since. */
  ghost predicate SucceededAt<J(!new), ID(!new)>(ss: seq<Sys<J, ID>>, es: seq<Event<J>>, w: nat, j: J, m: nat, n: nat)
    requires n <= |es| < |ss|
  {
    && m < n && es[m] == Finish(w, Succeeded) && w < |ss[m].workers| && ss[m].workers[w] == Running(j)
    && forall k {:trigger ss[k]} :: m < k <= n ==> w < |ss[k].workers| && ss[k].workers[w] == Forgetting(j)
  }

  lemma ComesToForgetting<J(!new), ID(!new)>(c: Config<J, ID>, s: Sys<J, ID>, e: Event<J>, w: nat, j: J)
    requires SysInv(s) && RetryInv(c, s) && Enabled(c, s, e)
    requires w < |After(c, s, e).workers| && After(c, s, e).workers[w] == Forgetting(j)
    ensures w < |s.workers| && NumRequeues(After(c, s, e).limiter, j) == NumRequeues(s.limiter, j)
    ensures
      || s.workers[w] == Forgetting(j)
      || (e == Finish(w, Succeeded) && s.workers[w] == Running(j))
      || NumRequeues(s.limiter, j) >= c.maxRetries
  {
    StepOnCount(c, s, e, j);
    if e.Limit? || e.Forget? {
      assert HoldsJob(s.workers[e.w], e.j);
      assert e.w != w && HoldsJob(s.workers[w], j);
    }
  }

  lemma {:induction false} ForgettingHasReason<J(!new), ID(!new)>(
    c: Config<J, ID>, ss: seq<Sys<J, ID>>, es: seq<Event<J>>, w: nat, j: J, n: nat)
    requires IsRun(c, ss, es) && n <= |es| && w < |ss[n].workers| && ss[n].workers[w] == Forgetting(j)
    ensures NumRequeues(ss[n].limiter, j) >= c.maxRetries || exists m: nat :: SucceededAt(ss, es, w, j, m, n)
  {
    RunKeepsInv(c, ss, es, n - 1);
    RunKeepsRetryInv(c, ss, es, n - 1);
    StepAt(c, ss, es, n - 1);
    ComesToForgetting(c, ss[n - 1], es[n - 1], w, j);
    if ss[n - 1].workers[w] == Forgetting(j) {
      ForgettingHasReason(c, ss, es, w, j, n - 1);
      if NumRequeues(ss[n].limiter, j) < c.maxRetries {
        var m: nat :| SucceededAt(ss, es, w, j, m, n - 1);
        assert SucceededAt(ss, es, w, j, m, n);
      }
    } else if es[n - 1] == Finish(w, Succeeded) {
      assert SucceededAt(ss, es, w, j, n - 1, n);
    }
  }

  /** A worker forgets a job only after its run succeeded, or when it has been requeued the maximum number of times. */
  lemma ForgottenOnlyWhen<J(!new), ID(!new)>(
    c: Config<J, ID>, ss: seq<Sys<J, ID>>, es: seq<Event<J>>, w: nat, j: J, n: nat)
    requires IsRun(c, ss, es) && n < |es| && es[n] == Event.Forget(w, j)
    ensures NumRequeues(ss[n].limiter, j) == ExecutorRetries.Limit(c) || exists m: nat :: SucceededAt(ss, es, w, j, m, n)
  {
    StepAt(c, ss, es, n);
    ForgettingHasReason(c, ss, es, w, j, n);
    RequeuesWithinMaximum(c, ss, es, n, j);
  }
}
