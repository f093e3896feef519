/** When jobs come in, when they come back, and which workers stay. */
module ExecutorRuns {
  import opened Callers
  import opened RateLimiters
  import opened Executor
  import opened ExecutorRetries

  // ----- A retry waits as long as the limiter said -----

  /** The last step before `r` in which the worker asked the limiter, or -1. */
  ghost function LimitBefore<J(!new)>(es: seq<Event<J>>, w: nat, r: nat): (m: int)
    requires r <= |es|
    ensures -1 <= m < r && (m >= 0 ==> es[m].Limit? && es[m].w == w)
  {
    if r == 0 then -1 else if es[r - 1].Limit? && es[r - 1].w == w then r - 1 else LimitBefore(es, w, r - 1)
  }

  lemma ComesToAdding<J(!new), ID(!new)>(c: Config<J, ID>, s: Sys<J, ID>, e: Event<J>, w: nat)
    requires Enabled(c, s, e) && w < |After(c, s, e).workers| && After(c, s, e).workers[w].Adding?
    ensures if e.Limit? && e.w == w then After(c, s, e).workers[w] == Adding(e.j, WhenDelay(s.limiter, e.j))
            else w < |s.workers| && s.workers[w] == After(c, s, e).workers[w]
  {
  }

  /** A worker about to put a job back does so with the delay that the limiter answered when last asked. */
  lemma {:induction false} AddingHasLimit<J(!new), ID(!new)>(
    c: Config<J, ID>, ss: seq<Sys<J, ID>>, es: seq<Event<J>>, w: nat, n: nat)
    requires IsRun(c, ss, es) && n <= |es| && w < |ss[n].workers| && ss[n].workers[w].Adding?
    ensures var m := LimitBefore(es, w, n);
            m >= 0 && ss[n].workers[w] == Adding(es[m].j, WhenDelay(ss[m].limiter, es[m].j))
  {
    StepAt(c, ss, es, n - 1);
    ComesToAdding(c, ss[n - 1], es[n - 1], w);
    if !(es[n - 1].Limit? && es[n - 1].w == w) {
      AddingHasLimit(c, ss, es, w, n - 1);
    }
  }

  /** Step `r` puts the job back for a time in `due`: its own time and the delay that the limiter answered. */
  ghost predicate PutBackAt<J(!new), ID(!new)>(ss: seq<Sys<J, ID>>, es: seq<Event<J>>, j: J, due: int -> bool, r: nat)
    requires r < |es| <= |ss|
  {
    && es[r].Request?
    && var m := LimitBefore(es, es[r].w, r);
       m >= 0 && es[m].j == j && due(ss[r].dq.clock + WhenDelay(ss[m].limiter, j))
  }

  ghost predicate AsksAt<J(!new), ID(!new)>(ss: seq<Sys<J, ID>>, es: seq<Event<J>>, j: J, due: int -> bool, r: nat)
    requires r < |es| <= |ss|
  {
    (es[r].AddJob? && es[r].j == j) || PutBackAt(ss, es, j, due, r)
  }

  /** How often the job was added, or put back for a time in `due`. */
  ghost function AskedFor<J(!new), ID(!new)>(ss: seq<Sys<J, ID>>, es: seq<Event<J>>, j: J, due: int -> bool, n: nat): nat
    requires n <= |es| <= |ss|
  {
    if n == 0 then 0 else AskedFor(ss, es, j, due, n - 1) + if AsksAt(ss, es, j, due, n - 1) then 1 else 0
  }

  /** Where the executor asks its queue for the job, the run shows it. */
  lemma QueueAskedIsAsked<J(!new), ID(!new)>(
    c: Config<J, ID>, ss: seq<Sys<J, ID>>, es: seq<Event<J>>, j: J, due: int -> bool, n: nat)
    requires IsRun(c, ss, es) && n < |es| && QueueEvent(ss[n], es[n]) != []
    requires DQ.Asks(ss[n].dq, QueueEvent(ss[n], es[n])[0], j, due)
    ensures AsksAt(ss, es, j, due, n)
  {
    StepAt(c, ss, es, n);
    if es[n].Request? {
      AddingHasLimit(c, ss, es, es[n].w, n);
    }
  }

  lemma StepOnPicks<J(!new), ID(!new)>(
    c: Config<J, ID>, ss: seq<Sys<J, ID>>, es: seq<Event<J>>, j: J, due: int -> bool, n: nat)
    requires IsRun(c, ss, es) && n < |es| && SysInv(ss[n]) && forall r :: r <= ss[n].dq.clock ==> due(r)
    ensures DQ.Coming(ss[n + 1].dq, j, due) + (if es[n].Pick? && es[n].j == j then 1 else 0)
         <= DQ.Coming(ss[n].dq, j, due) + (if AsksAt(ss, es, j, due, n) then 1 else 0)
  {
    StepAt(c, ss, es, n);
    StepOfQueue(c, ss[n], es[n]);
    if QueueEvent(ss[n], es[n]) != [] {
      var qe := QueueEvent(ss[n], es[n])[0];
      DQ.StepOnComing(ss[n].dq, qe, j, due);
      if DQ.Asks(ss[n].dq, qe, j, due) {
        QueueAskedIsAsked(c, ss, es, j, due, n);
      }
    }
  }

  lemma {:induction false} PicksAreAsked<J(!new), ID(!new)>(
    c: Config<J, ID>, ss: seq<Sys<J, ID>>, es: seq<Event<J>>, j: J, due: int -> bool, n: nat)
    requires IsRun(c, ss, es) && n <= |es| && forall r :: r <= ss[n].dq.clock ==> due(r)
    ensures TallyOf(es, j, n).picks + DQ.Coming(ss[n].dq, j, due) <= AskedFor(ss, es, j, due, n)
  {
    if n > 0 {
      RunKeepsInv(c, ss, es, n - 1);
      ClockMovesOn(c, ss, es, n - 1);
      PicksAreAsked(c, ss, es, j, due, n - 1);
      StepOnPicks(c, ss, es, j, due, n - 1);
    }
  }

  lemma ClockMovesOn<J(!new), ID(!new)>(c: Config<J, ID>, ss: seq<Sys<J, ID>>, es: seq<Event<J>>, n: nat)
    requires IsRun(c, ss, es) && n < |es|
    ensures ss[n].dq.clock <= ss[n + 1].dq.clock
  {
    RunKeepsInv(c, ss, es, n);
    StepAt(c, ss, es, n);
    StepOfQueue(c, ss[n], es[n]);
    if QueueEvent(ss[n], es[n]) != [] {
      DQ.StepKeepsInv(ss[n].dq, QueueEvent(ss[n], es[n])[0]);
    }
  }

  /**
    Retries are never early: up to any moment a job has been picked up at most as often as it was added, or put
    back for a time, with the limiter's delay, that has come.
   */
  lemma RetriesNeverEarly<J(!new), ID(!new)>(c: Config<J, ID>, ss: seq<Sys<J, ID>>, es: seq<Event<J>>, j: J, n: nat)
    requires IsRun(c, ss, es) && n <= |es|
    ensures TallyOf(es, j, n).picks <= AskedFor(ss, es, j, DQ.By(ss[n].dq.clock), n)
  {
    PicksAreAsked(c, ss, es, j, DQ.By(ss[n].dq.clock), n);
  }

  // ----- Jobs are put back for a reason -----

  /** The worker finds a job with this ID running, and its own does not allow it. */
  predicate Conflicts<J(==), ID(==)>(c: Config<J, ID>, s: Sys<J, ID>, e: Event<J>, j: J) {
    e.Check? && e.w < |s.workers| && s.workers[e.w] == Picked(j) && !c.concurrent(j) && c.id(j) in s.running
  }

  predicate Fails<J(==), ID(==)>(s: Sys<J, ID>, e: Event<J>, j: J) {
    e.Finish? && e.outcome.Failed? && e.w < |s.workers| && s.workers[e.w] == Running(j)
  }

  predicate HasReason<J(==), ID(==)>(c: Config<J, ID>, s: Sys<J, ID>, e: Event<J>, j: J) {
    Conflicts(c, s, e, j) || (c.allowRetries && Fails(s, e, j))
  }

  ghost function Reasons<J(!new), ID(!new)>(c: Config<J, ID>, ss: seq<Sys<J, ID>>, es: seq<Event<J>>, j: J, n: nat): nat
    requires n <= |es| <= |ss|
  {
    if n == 0 then 0 else Reasons(c, ss, es, j, n - 1) + if HasReason(c, ss[n - 1], es[n - 1], j) then 1 else 0
  }

  predicate HeadsBack<J(==)>(pc: WorkerPC<J>, j: J) {
    pc == Requeueing(j) || pc == Limiting(j)
  }

  /** Some worker, and then the only one that has the job, is about to count a requeue. */
  ghost predicate Heading<J(!new), ID(!new)>(s: Sys<J, ID>, j: J) {
    exists w :: 0 <= w < |s.workers| && HeadsBack(s.workers[w], j)
  }

  lemma OnlyOneHeads<J(!new), ID(!new)>(s: Sys<J, ID>, v: nat, w: nat, j: J)
    requires SysInv(s) && v < |s.workers| && w < |s.workers| && HoldsJob(s.workers[v], j) && HeadsBack(s.workers[w], j)
    ensures v == w
  {
    assert HoldsJob(s.workers[w], j);
  }

  lemma StepOnHeading<J(!new), ID(!new)>(c: Config<J, ID>, s: Sys<J, ID>, e: Event<J>, j: J)
    requires SysInv(s) && Enabled(c, s, e)
    ensures e.Limit? && e.j == j ==> Heading(s, j) && !Heading(After(c, s, e), j)
    ensures Heading(After(c, s, e), j) && !Heading(s, j) ==> HasReason(c, s, e, j)
  {
    var s' := After(c, s, e);
    if e.Limit? && e.j == j {
      assert HeadsBack(s.workers[e.w], j);
      forall w: nat | w < |s'.workers|
        ensures !HeadsBack(s'.workers[w], j)
      {
        if w != e.w && HeadsBack(s.workers[w], j) {
          OnlyOneHeads(s, e.w, w, j);
        }
      }
    } else if w :| 0 <= w < |s'.workers| && HeadsBack(s'.workers[w], j) {
      assert HeadsBack(s.workers[w], j) || HasReason(c, s, e, j);
    }
  }

  /** Each requeue of a job is for a conflict of its own, or with retries on for a failure of its own. */
  lemma {:induction false} RequeuesHaveReasons<J(!new), ID(!new)>(
    c: Config<J, ID>, ss: seq<Sys<J, ID>>, es: seq<Event<J>>, j: J, n: nat)
    requires IsRun(c, ss, es) && n <= |es|
    ensures TallyOf(es, j, n).requeues + (if Heading(ss[n], j) then 1 else 0) <= Reasons(c, ss, es, j, n)
  {
    if n > 0 {
      RequeuesHaveReasons(c, ss, es, j, n - 1);
      RunKeepsInv(c, ss, es, n - 1);
      StepAt(c, ss, es, n - 1);
      StepOnHeading(c, ss[n - 1], es[n - 1], j);
    }
  }

  // ----- Which workers stay -----

  predicate StepOfWorker<J>(e: Event<J>, w: nat) {
    !e.Queue? && !e.Admit? && !e.AddJob? && e.w == w
  }

  /** A worker with a job always has a next step, and its run may end in any way. */
  lemma WorkerNeverStuck<J(!new), ID(!new)>(c: Config<J, ID>, s: Sys<J, ID>, w: nat, outcome: Outcome)
    requires SysInv(s) && w < |s.workers| && !s.workers[w].Idle? && !s.workers[w].Gone?
    ensures exists e :: StepOfWorker(e, w) && Enabled(c, s, e)
    ensures s.workers[w].Running? ==> Enabled(c, s, Finish(w, outcome))
  {
    var e := match s.workers[w]
      case Picked(_) => Check(w)
      case Starting(_) => Start(w)
      case Running(_) => Finish(w, outcome)
      case Requeueing(_) => ReadRequeues(w)
      case Limiting(j) => Event.Limit(w, j)
      case Adding(_, _) => Request(w)
      case Forgetting(j) => Event.Forget(w, j)
      case _ => Done(w);
    if s.workers[w].Finishing? {
      HolderMayFinish(c, s, w);
    }
    assert StepOfWorker(e, w) && Enabled(c, s, e);
  }

  /** An idle worker may take the job at the head of the queue, or leave. */
  lemma IdleWorkerMayMove<J(!new), ID(!new)>(c: Config<J, ID>, s: Sys<J, ID>, w: nat)
    requires w < |s.workers| && s.workers[w].Idle?
    ensures Enabled(c, s, Leave(w)) && (s.dq.q.queue != [] ==> Enabled(c, s, Pick(w, s.dq.q.queue[0])))
  {
  }

  predicate CancelsWorker<J>(e: Event<J>, w: nat) {
    e.Finish? && e.w == w && e.outcome.Canceled?
  }

  predicate Leaving<J>(pc: WorkerPC<J>) {
    pc.Gone? || (pc.Finishing? && pc.last)
  }

  lemma StepOnLeaving<J(!new), ID(!new)>(c: Config<J, ID>, s: Sys<J, ID>, e: Event<J>, w: nat)
    requires Enabled(c, s, e) && w < |s.workers|
    ensures |After(c, s, e).workers| == |s.workers|
    ensures Leaving(After(c, s, e).workers[w]) <==> Leaving(s.workers[w]) || e == Leave(w) || CancelsWorker(e, w)
  {
  }

  /** A worker is on its way out exactly when its run was canceled, or it found the executor or the queue stopping. */
  lemma {:induction false} LeavesExactlyWhen<J(!new), ID(!new)>(
    c: Config<J, ID>, ss: seq<Sys<J, ID>>, es: seq<Event<J>>, w: nat, n: nat)
    requires IsRun(c, ss, es) && n <= |es| && w < |ss[0].workers|
    ensures |ss[n].workers| == |ss[0].workers|
    ensures Leaving(ss[n].workers[w]) <==> exists m :: 0 <= m < n && (es[m] == Leave(w) || CancelsWorker(es[m], w))
  {
    if n > 0 {
      LeavesExactlyWhen(c, ss, es, w, n - 1);
      StepAt(c, ss, es, n - 1);
      StepOnLeaving(c, ss[n - 1], es[n - 1], w);
    }
  }

  // ----- Jobs are admitted only while there is room -----

  predicate Admits<J(==)>(e: Event<J>, j: J) {
    e.Admit? && e.j == j
  }

  ghost function Admitted<J(!new)>(es: seq<Event<J>>, j: J, n: nat): nat
    requires n <= |es|
  {
    if n == 0 then 0 else Admitted(es, j, n - 1) + if Admits(es[n - 1], j) then 1 else 0
  }

  lemma OneCallerLess<J(!new)>(s: seq<J>, i: nat)
    requires i < |s|
    ensures multiset(Without(s, i)) == multiset(s) - multiset{s[i]}
  {
    assert s == s[..i] + [s[i]] + s[i + 1..];
  }

  lemma StepOnAdmitted<J(!new), ID(!new)>(c: Config<J, ID>, s: Sys<J, ID>, e: Event<J>, j: J)
    requires Enabled(c, s, e)
    ensures multiset(After(c, s, e).admitted)[j] + (if e.AddJob? && e.j == j then 1 else 0)
         == multiset(s.admitted)[j] + (if Admits(e, j) then 1 else 0)
  {
    if e.AddJob? {
      OneCallerLess(s.admitted, e.i);
    }
  }

  /** Each added job was admitted, one for one. */
  lemma {:induction false} AddedJobsWereAdmitted<J(!new), ID(!new)>(
    c: Config<J, ID>, ss: seq<Sys<J, ID>>, es: seq<Event<J>>, j: J, n: nat)
    requires IsRun(c, ss, es) && n <= |es|
    ensures TallyOf(es, j, n).adds + multiset(ss[n].admitted)[j] == Admitted(es, j, n)
  {
    if n > 0 {
      AddedJobsWereAdmitted(c, ss, es, j, n - 1);
      StepAt(c, ss, es, n - 1);
      StepOnAdmitted(c, ss[n - 1], es[n - 1], j);
    }
  }

  /** A job is admitted exactly when there is room: fewer than the maximum in channel, heap and queue. */
  lemma AdmittedExactlyWithRoom<J(!new), ID(!new)>(c: Config<J, ID>, s: Sys<J, ID>, j: J)
    ensures Enabled(c, s, Admit(j)) <==> |s.dq.loop.ch| + |s.dq.loop.heap| + |s.dq.q.queue| < c.maxQueueSize
  {
  }
}
