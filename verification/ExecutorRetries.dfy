/** How often the executor retries: a bound for every job, and for all jobs together. */
module ExecutorRetries {
  import opened WaitingLoop
  import opened RateLimiters
  import opened Executor

  // ----- The count never passes the maximum -----

  ghost predicate AllCounted<J(!new)>(l: Limiter<J>) {
    Counting(l) && forall j :: Counted(l, j, NumRequeues(l, j))
  }

  lemma FreshIsCounted<J(!new)>(l: Limiter<J>)
    requires Fresh(l) && Counting(l)
    ensures AllCounted(l) && forall j :: NumRequeues(l, j) == 0
  {
    forall j
      ensures Counted(l, j, NumRequeues(l, j)) && NumRequeues(l, j) == 0
    {
      RequeuesAreCount(l, j, 0);
    }
  }

  lemma WhenBumps<J(!new)>(l: Limiter<J>, j: J)
    requires AllCounted(l)
    ensures AllCounted(AfterWhen(l, j))
    ensures forall k :: NumRequeues(AfterWhen(l, j), k) == NumRequeues(l, k) + if k == j then 1 else 0
  {
    forall k
      ensures Counting(AfterWhen(l, j)) && Counted(AfterWhen(l, j), k, NumRequeues(AfterWhen(l, j), k))
      ensures NumRequeues(AfterWhen(l, j), k) == NumRequeues(l, k) + if k == j then 1 else 0
    {
      WhenCounts(l, j, k, NumRequeues(l, k));
      RequeuesAreCount(AfterWhen(l, j), k, NumRequeues(l, k) + if k == j then 1 else 0);
    }
    WhenCounts(l, j, j, NumRequeues(l, j));
  }

  lemma ForgetClears<J(!new)>(l: Limiter<J>, j: J)
    requires AllCounted(l)
    ensures AllCounted(AfterForget(l, j))
    ensures forall k :: NumRequeues(AfterForget(l, j), k) == if k == j then 0 else NumRequeues(l, k)
  {
    forall k
      ensures Counted(AfterForget(l, j), k, NumRequeues(AfterForget(l, j), k))
      ensures NumRequeues(AfterForget(l, j), k) == if k == j then 0 else NumRequeues(l, k)
    {
      ForgetCounts(l, j, k, NumRequeues(l, k));
      RequeuesAreCount(AfterForget(l, j), k, if k == j then 0 else NumRequeues(l, k));
    }
    ForgetCounts(l, j, j, NumRequeues(l, j));
  }

  function Limit<J, ID>(c: Config<J, ID>): nat {
    if c.maxRetries < 0 then 0 else c.maxRetries
  }

  /** The count is within the maximum, and under it while a worker that found it so is about to raise it. */
  ghost predicate RetryInv<J(!new), ID(!new)>(c: Config<J, ID>, s: Sys<J, ID>) {
    && AllCounted(s.limiter)
    && (forall j :: NumRequeues(s.limiter, j) <= Limit(c))
    && (forall w :: 0 <= w < |s.workers| && s.workers[w].Limiting? ==> NumRequeues(s.limiter, s.workers[w].j) < Limit(c))
  }

  /** A worker with the job in hand is the only one that changes the job's count. */
  lemma OthersHoldOthers<J(!new), ID(!new)>(s: Sys<J, ID>, v: nat, w: nat)
    requires SysInv(s) && v < |s.workers| && w < |s.workers| && v != w
    requires !s.workers[v].Idle? && !s.workers[v].Gone? && !s.workers[w].Idle? && !s.workers[w].Gone?
    ensures s.workers[v].j != s.workers[w].j
  {
    assert HoldsJob(s.workers[v], s.workers[v].j) && HoldsJob(s.workers[w], s.workers[w].j);
  }

  lemma StepKeepsRetryInv<J(!new), ID(!new)>(c: Config<J, ID>, s: Sys<J, ID>, e: Event<J>)
    requires SysInv(s) && RetryInv(c, s) && Enabled(c, s, e)
    ensures RetryInv(c, After(c, s, e))
  {
    var s' := After(c, s, e);
    match e
    case Limit(w, j) =>
      WhenBumps(s.limiter, j);
      forall v | 0 <= v < |s'.workers| && s'.workers[v].Limiting?
        ensures NumRequeues(s'.limiter, s'.workers[v].j) < Limit(c)
      {
        OthersHoldOthers(s, v, w);
      }
    case Forget(w, j) =>
      ForgetClears(s.limiter, j);
      forall v | 0 <= v < |s'.workers| && s'.workers[v].Limiting?
        ensures NumRequeues(s'.limiter, s'.workers[v].j) < Limit(c)
      {
        OthersHoldOthers(s, v, w);
      }
    case _ =>
  }

  lemma {:induction false} RunKeepsRetryInv<J(!new), ID(!new)>(
    c: Config<J, ID>, ss: seq<Sys<J, ID>>, es: seq<Event<J>>, n: nat)
    requires IsRun(c, ss, es) && n <= |es|
    ensures RetryInv(c, ss[n])
  {
    if n == 0 {
      FreshIsCounted(ss[0].limiter);
    } else {
      RunKeepsRetryInv(c, ss, es, n - 1);
      RunKeepsInv(c, ss, es, n - 1);
      StepAt(c, ss, es, n - 1);
      StepKeepsRetryInv(c, ss[n - 1], es[n - 1]);
    }
  }

  /** In every reachable state no job has been requeued more often than the maximum since it was last forgotten. */
  lemma RequeuesWithinMaximum<J(!new), ID(!new)>(
    c: Config<J, ID>, ss: seq<Sys<J, ID>>, es: seq<Event<J>>, n: nat, j: J)
    requires IsRun(c, ss, es) && n <= |es|
    ensures NumRequeues(ss[n].limiter, j) <= Limit(c)
  {
    RunKeepsRetryInv(c, ss, es, n);
  }

  // ----- Pick-ups are paid for by added jobs -----

  /**
    Whether a worker has the job in hand: with `returning`, having counted a requeue and not yet put the job
    back; without, not having decided yet what becomes of it.
   */
  function Weight<J(==)>(pc: WorkerPC<J>, j: J, returning: bool): nat {
    if HoldsJob(pc, j) && !pc.Finishing? && pc.Adding? == returning then 1 else 0
  }

  function Total<J(==)>(ws: seq<WorkerPC<J>>, j: J, returning: bool): nat {
    if ws == [] then 0 else Weight(ws[0], j, returning) + Total(ws[1..], j, returning)
  }

  lemma {:induction false} TotalUpdate<J(!new)>(ws: seq<WorkerPC<J>>, j: J, returning: bool, i: nat, pc: WorkerPC<J>)
    requires i < |ws|
    ensures Total(ws[i := pc], j, returning) == Total(ws, j, returning) - Weight(ws[i], j, returning) + Weight(pc, j, returning)
    ensures Weight(ws[i], j, returning) <= Total(ws, j, returning)
  {
    if i == 0 {
      assert ws[i := pc][1..] == ws[1..];
    } else {
      TotalUpdate(ws[1..], j, returning, i - 1, pc);
      assert ws[i := pc][1..] == ws[1..][i - 1 := pc];
    }
  }

  lemma {:induction false} IdleTotal<J(!new)>(ws: seq<WorkerPC<J>>, j: J, returning: bool)
    requires forall i :: 0 <= i < |ws| ==> ws[i].Idle?
    ensures Total(ws, j, returning) == 0
  {
    if ws != [] {
      IdleTotal(ws[1..], j, returning);
    }
  }

  /** Copies of the job that will come up for picking. */
  function Coming<J(==)>(dq: DQ.Sys<J>, j: J): nat {
    DQ.Coming(dq, j, Always)
  }

  datatype Tally = Tally(adds: nat, picks: nat, requeues: nat, forgets: nat)

  function Tallied<J(==)>(t: Tally, e: Event<J>, j: J): Tally {
    match e
    case AddJob(_, k) => if k == j then t.(adds := t.adds + 1) else t
    case Pick(_, k) => if k == j then t.(picks := t.picks + 1) else t
    case Limit(_, k) => if k == j then t.(requeues := t.requeues + 1) else t
    case Forget(_, k) => if k == j then t.(forgets := t.forgets + 1) else t
    case _ => t
  }

  ghost function TallyOf<J(!new)>(es: seq<Event<J>>, j: J, n: nat): Tally
    requires n <= |es|
  {
    if n == 0 then Tally(0, 0, 0, 0) else Tallied(TallyOf(es, j, n - 1), es[n - 1], j)
  }

  /** The worker that is returning the job puts it back. */
  predicate PutsBack<J(==), ID>(s: Sys<J, ID>, e: Event<J>, j: J) {
    e.Request? && e.w < |s.workers| && s.workers[e.w].Adding? && s.workers[e.w].j == j
  }

  lemma StepOnComing<J(!new), ID(!new)>(c: Config<J, ID>, s: Sys<J, ID>, e: Event<J>, j: J)
    requires SysInv(s) && Enabled(c, s, e)
    ensures Coming(After(c, s, e).dq, j) <=
      Coming(s.dq, j)
      + (if (e.AddJob? && e.j == j) || PutsBack(s, e, j) then 1 else 0)
      - (if e.Pick? && e.j == j then 1 else 0)
  {
    StepOfQueue(c, s, e);
    if QueueEvent(s, e) != [] {
      DQ.StepOnComing(s.dq, QueueEvent(s, e)[0], j, Always);
    }
  }

  lemma StepOnWorkers<J(!new), ID(!new)>(c: Config<J, ID>, s: Sys<J, ID>, e: Event<J>, j: J, returning: bool)
    requires Enabled(c, s, e)
    ensures e.Queue? || e.Admit? || e.AddJob? ==> After(c, s, e).workers == s.workers
    ensures !(e.Queue? || e.Admit? || e.AddJob?) ==>
      && e.w < |s.workers| == |After(c, s, e).workers|
      && Total(After(c, s, e).workers, j, returning) ==
         Total(s.workers, j, returning) - Weight(s.workers[e.w], j, returning) + Weight(After(c, s, e).workers[e.w], j, returning)
      && Weight(s.workers[e.w], j, returning) <= Total(s.workers, j, returning)
  {
    if !(e.Queue? || e.Admit? || e.AddJob?) {
      TotalUpdate(s.workers, j, returning, e.w, After(c, s, e).workers[e.w]);
    }
  }

  /** What one step does to the jobs being returned. */
  lemma StepOnReturning<J(!new), ID(!new)>(c: Config<J, ID>, s: Sys<J, ID>, e: Event<J>, j: J)
    requires Enabled(c, s, e)
    ensures Total(After(c, s, e).workers, j, true) <=
      Total(s.workers, j, true) + (if e.Limit? && e.j == j then 1 else 0) - (if PutsBack(s, e, j) then 1 else 0)
  {
    StepOnWorkers(c, s, e, j, true);
  }

  /** What one step does to the jobs in hand and not decided. */
  lemma StepOnUndecided<J(!new), ID(!new)>(c: Config<J, ID>, s: Sys<J, ID>, e: Event<J>, j: J)
    requires Enabled(c, s, e)
    ensures Total(After(c, s, e).workers, j, false) <=
      Total(s.workers, j, false)
      + (if e.Pick? && e.j == j then 1 else 0) - (if (e.Limit? || e.Forget?) && e.j == j then 1 else 0)
    ensures (e.Limit? || e.Forget?) && e.j == j ==> Total(s.workers, j, false) >= 1
  {
    StepOnWorkers(c, s, e, j, false);
  }

  /**
    The account of one job. Each pick-up uses up a copy, and copies come from added jobs and counted
    requeues; a copy that is not yet forgotten stands for an added job of its own; each forgetting pays for at
    most the maximum of requeues, and an open count is covered by a job not forgotten yet.
   */
  ghost predicate Account<J(!new), ID(!new)>(c: Config<J, ID>, s: Sys<J, ID>, t: Tally, j: J) {
    && t.picks + Coming(s.dq, j) + Total(s.workers, j, true) <= t.adds + t.requeues
    && t.forgets + Coming(s.dq, j) + Total(s.workers, j, true) + Total(s.workers, j, false) <= t.adds
    && t.requeues <= Limit(c) * t.forgets + NumRequeues(s.limiter, j)
    && (NumRequeues(s.limiter, j) > 0 ==> t.forgets < t.adds)
  }

  lemma StepOnCount<J(!new), ID(!new)>(c: Config<J, ID>, s: Sys<J, ID>, e: Event<J>, j: J)
    requires RetryInv(c, s) && Enabled(c, s, e)
    ensures NumRequeues(After(c, s, e).limiter, j) ==
      if e.Limit? && e.j == j then NumRequeues(s.limiter, j) + 1
      else if e.Forget? && e.j == j then 0 else NumRequeues(s.limiter, j)
  {
    if e.Limit? {
      WhenBumps(s.limiter, e.j);
    } else if e.Forget? {
      ForgetClears(s.limiter, e.j);
    }
  }

  lemma OneForgetMore(limit: nat, forgets: nat)
    ensures limit * (forgets + 1) == limit * forgets + limit
  {
  }

  lemma StepKeepsAccount<J(!new), ID(!new)>(c: Config<J, ID>, s: Sys<J, ID>, e: Event<J>, t: Tally, j: J)
    requires SysInv(s) && RetryInv(c, s) && Enabled(c, s, e) && Account(c, s, t, j)
    ensures Account(c, After(c, s, e), Tallied(t, e, j), j)
  {
    StepOnComing(c, s, e, j);
    StepOnReturning(c, s, e, j);
    StepOnUndecided(c, s, e, j);
    StepOnCount(c, s, e, j);
    OneForgetMore(Limit(c), t.forgets);
  }

  lemma {:induction false} RunKeepsAccount<J(!new), ID(!new)>(
    c: Config<J, ID>, ss: seq<Sys<J, ID>>, es: seq<Event<J>>, n: nat, j: J)
    requires IsRun(c, ss, es) && n <= |es|
    ensures Account(c, ss[n], TallyOf(es, j, n), j)
  {
    if n == 0 {
      FreshIsCounted(ss[0].limiter);
      IdleTotal(ss[0].workers, j, true);
      IdleTotal(ss[0].workers, j, false);
    } else {
      RunKeepsAccount(c, ss, es, n - 1, j);
      RunKeepsInv(c, ss, es, n - 1);
      RunKeepsRetryInv(c, ss, es, n - 1);
      StepAt(c, ss, es, n - 1);
      StepKeepsAccount(c, ss[n - 1], es[n - 1], TallyOf(es, j, n - 1), j);
    }
  }

  lemma Settled(limit: nat, t: Tally, open: nat)
    requires t.picks <= t.adds + t.requeues && t.requeues <= limit * t.forgets + open && open <= limit
    requires if open > 0 then t.forgets < t.adds else t.forgets <= t.adds
    ensures t.picks <= t.adds * (limit + 1)
  {
    var paid := if open > 0 then t.forgets + 1 else t.forgets;
    OneForgetMore(limit, t.forgets);
    assert t.requeues <= limit * paid;
    assert limit * paid <= limit * t.adds;
  }

  /** A job added N times is picked up at most N·(maxRetries + 1) times, in every interleaving of any number of workers. */
  lemma PickUpsBounded<J(!new), ID(!new)>(
    c: Config<J, ID>, ss: seq<Sys<J, ID>>, es: seq<Event<J>>, n: nat, j: J)
    requires IsRun(c, ss, es) && n <= |es|
    ensures TallyOf(es, j, n).picks <= TallyOf(es, j, n).adds * (Limit(c) + 1)
  {
    RunKeepsAccount(c, ss, es, n, j);
    RunKeepsRetryInv(c, ss, es, n);
    Settled(Limit(c), TallyOf(es, j, n), NumRequeues(ss[n].limiter, j));
  }

  // ----- All jobs together -----

  ghost function Adds<J(!new)>(es: seq<Event<J>>, among: set<J>, n: nat): nat
    requires n <= |es|
  {
    if n == 0 then 0 else Adds(es, among, n - 1) + if es[n - 1].AddJob? && es[n - 1].j in among then 1 else 0
  }

  ghost function Picks<J(!new)>(es: seq<Event<J>>, among: set<J>, n: nat): nat
    requires n <= |es|
  {
    if n == 0 then 0 else Picks(es, among, n - 1) + if es[n - 1].Pick? && es[n - 1].j in among then 1 else 0
  }

  lemma {:induction false} SetOneAside<J(!new)>(es: seq<Event<J>>, among: set<J>, j: J, n: nat)
    requires n <= |es| && j in among
    ensures Adds(es, among, n) == Adds(es, among - {j}, n) + TallyOf(es, j, n).adds
    ensures Picks(es, among, n) == Picks(es, among - {j}, n) + TallyOf(es, j, n).picks
  {
    if n > 0 {
      SetOneAside(es, among, j, n - 1);
    }
  }

  lemma {:induction false} NoneAmongNone<J(!new)>(es: seq<Event<J>>, n: nat)
    requires n <= |es|
    ensures Picks(es, {}, n) == 0
  {
    if n > 0 {
      NoneAmongNone(es, n - 1);
    }
  }

  /** The jobs of any set, added N times in all, are picked up at most N·(maxRetries + 1) times. */
  lemma {:induction false} AllPickUpsBounded<J(!new), ID(!new)>(
    c: Config<J, ID>, ss: seq<Sys<J, ID>>, es: seq<Event<J>>, n: nat, among: set<J>)
    requires IsRun(c, ss, es) && n <= |es|
    ensures Picks(es, among, n) <= Adds(es, among, n) * (Limit(c) + 1)
    decreases among
  {
    if among == {} {
      NoneAmongNone(es, n);
    } else {
      var j :| j in among;
      AllPickUpsBounded(c, ss, es, n, among - {j});
      PickUpsBounded(c, ss, es, n, j);
      SetOneAside(es, among, j, n);
      Distribute(Adds(es, among - {j}, n), TallyOf(es, j, n).adds, Limit(c) + 1);
    }
  }

  lemma Distribute(a: nat, b: nat, k: nat)
    ensures (a + b) * k == a * k + b * k
  {
  }
}
