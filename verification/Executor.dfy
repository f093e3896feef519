/**
  The executor: workers that take jobs from a rate-limited delaying queue, run them, and put failed ones
  back until they have been retried too often. Any number of workers, in every interleaving.
 */
module Executor {
  import opened WorkQueue
  import opened Callers
  import opened RateLimiters
  import DQ = DelayingSystem

  /** `concurrent`: the job allows concurrent runs. */
  datatype Config<!J, ID> = Config(
    maxRetries: int, allowRetries: bool, maxQueueSize: int, id: J -> ID, concurrent: J -> bool)

  /** Where a worker stands in runJob and requeueJob. */
  datatype WorkerPC<J> =
    | Idle
    | Picked(j: J)             // about to test whether the job runs already
    | Starting(j: J)           // about to note that it runs
    | Running(j: J)
    | Requeueing(j: J)         // about to read the number of requeues
    | Limiting(j: J)           // found it under the maximum, about to ask the limiter
    | Adding(j: J, delay: int) // about to put the job back after the delay
    | Forgetting(j: J)         // about to clear the count
    | Finishing(j: J, last: bool)
    | Gone

  datatype Outcome = Succeeded | Canceled | Failed

  datatype Sys<J, ID> = Sys(
    dq: DQ.Sys<J>, limiter: Limiter<J>, running: set<ID>, workers: seq<WorkerPC<J>>, admitted: seq<J>)

  datatype Event<J> =
    | Queue(e: DQ.Event<J>)           // a step of the queue's own: the clock, its loop, a pending send, shutdown
    | Admit(j: J)                     // AddJob found room
    | AddJob(i: nat, j: J)            // and adds the job
    | Pick(w: nat, j: J)
    | Check(w: nat)
    | Start(w: nat)
    | Finish(w: nat, outcome: Outcome)
    | ReadRequeues(w: nat)
    | Limit(w: nat, j: J)
    | Request(w: nat)
    | Dropped(w: nat)                 // the queue is shutting down and takes nothing
    | Forget(w: nat, j: J)
    | Done(w: nat)
    | Leave(w: nat)

  function Initial<J, ID>(workers: nat, limiter: Limiter<J>, clock: int): Sys<J, ID> {
    Sys(DQ.Start(clock), limiter, {}, seq(workers, _ => Idle), [])
  }

  function Len<J>(dq: DQ.Sys<J>): nat {
    |dq.loop.ch| + |dq.loop.heap| + |dq.q.queue|
  }

  predicate OwnStep<J>(e: DQ.Event<J>) {
    e.Tick? || e.Send? || e.Abandon? || e.LoopStep? || e.ShutDown? || e.Close?
  }

  ghost predicate Enabled<J(!new), ID(!new)>(c: Config<J, ID>, s: Sys<J, ID>, e: Event<J>) {
    match e
    case Queue(qe) => OwnStep(qe) && DQ.Enabled(s.dq, qe)
    case Admit(_) => Len(s.dq) < c.maxQueueSize
    case AddJob(i, j) => i < |s.admitted| && s.admitted[i] == j
    case Pick(w, j) => w < |s.workers| && s.workers[w].Idle? && DQ.Enabled(s.dq, DQ.Get(j))
    case Check(w) => w < |s.workers| && s.workers[w].Picked?
    case Start(w) => w < |s.workers| && s.workers[w].Starting?
    case Finish(w, _) => w < |s.workers| && s.workers[w].Running?
    case ReadRequeues(w) => w < |s.workers| && s.workers[w].Requeueing?
    case Limit(w, j) => w < |s.workers| && s.workers[w] == Limiting(j)
    case Request(w) => w < |s.workers| && s.workers[w].Adding?
    case Dropped(w) => w < |s.workers| && s.workers[w].Adding? && s.dq.q.shuttingDown
    case Forget(w, j) => w < |s.workers| && s.workers[w] == Forgetting(j)
    case Done(w) => w < |s.workers| && s.workers[w].Finishing? && DQ.Enabled(s.dq, DQ.Done(s.workers[w].j))
    case Leave(w) => w < |s.workers| && s.workers[w].Idle?
  }

  function AfterRun<J, ID>(c: Config<J, ID>, j: J, outcome: Outcome): WorkerPC<J> {
    match outcome
    case Succeeded => Forgetting(j)
    case Canceled => Finishing(j, true)
    case Failed => if c.allowRetries then Requeueing(j) else Finishing(j, false)
  }

  ghost function After<J(!new), ID(!new)>(c: Config<J, ID>, s: Sys<J, ID>, e: Event<J>): Sys<J, ID>
    requires Enabled(c, s, e)
  {
    match e
    case Queue(qe) => s.(dq := DQ.After(s.dq, qe))
    case Admit(j) => s.(admitted := s.admitted + [j])
    case AddJob(i, j) => s.(admitted := Without(s.admitted, i), dq := DQ.After(s.dq, DQ.Add(j)))
    case Pick(w, j) => s.(dq := DQ.After(s.dq, DQ.Get(j)), workers := s.workers[w := Picked(j)])
    case Check(w) =>
      var j := s.workers[w].j;
      var conflict := !c.concurrent(j) && c.id(j) in s.running;
      s.(workers := s.workers[w := if conflict then Requeueing(j) else Starting(j)])
    case Start(w) =>
      var j := s.workers[w].j;
      s.(running := s.running + {c.id(j)}, workers := s.workers[w := Running(j)])
    case Finish(w, outcome) =>
      var j := s.workers[w].j;
      s.(running := s.running - {c.id(j)}, workers := s.workers[w := AfterRun(c, j, outcome)])
    case ReadRequeues(w) =>
      var j := s.workers[w].j;
      s.(workers := s.workers[w := if NumRequeues(s.limiter, j) < c.maxRetries then Limiting(j) else Forgetting(j)])
    case Limit(w, j) =>
      s.(limiter := AfterWhen(s.limiter, j), workers := s.workers[w := Adding(j, WhenDelay(s.limiter, j))])
    case Request(w) =>
      var j := s.workers[w].j;
      s.(dq := DQ.After(s.dq, DQ.Request(j, s.workers[w].delay)), workers := s.workers[w := Finishing(j, false)])
    case Dropped(w) => s.(workers := s.workers[w := Finishing(s.workers[w].j, false)])
    case Forget(w, j) => s.(limiter := AfterForget(s.limiter, j), workers := s.workers[w := Finishing(j, false)])
    case Done(w) =>
      s.(dq := DQ.After(s.dq, DQ.Done(s.workers[w].j)),
         workers := s.workers[w := if s.workers[w].last then Gone else Idle])
    case Leave(w) => s.(workers := s.workers[w := Gone])
  }

  ghost predicate IsRun<J(!new), ID(!new)>(c: Config<J, ID>, ss: seq<Sys<J, ID>>, es: seq<Event<J>>) {
    && |ss| == |es| + 1
    && ss[0] == Initial(|ss[0].workers|, ss[0].limiter, ss[0].dq.clock)
    && Fresh(ss[0].limiter) && Counting(ss[0].limiter)
    && forall i {:trigger es[i]} :: 0 <= i < |es| ==> Enabled(c, ss[i], es[i]) && ss[i + 1] == After(c, ss[i], es[i])
  }

  lemma StepAt<J(!new), ID(!new)>(c: Config<J, ID>, ss: seq<Sys<J, ID>>, es: seq<Event<J>>, n: nat)
    requires IsRun(c, ss, es) && n < |es|
    ensures Enabled(c, ss[n], es[n]) && ss[n + 1] == After(c, ss[n], es[n])
  {
  }

  // ----- One holder for each job -----

  predicate HoldsJob<J(==)>(pc: WorkerPC<J>, j: J) {
    !pc.Idle? && !pc.Gone? && pc.j == j
  }

  /** Each held job is being processed, and no two workers hold the same one. */
  ghost predicate OneHolder<J(!new)>(ws: seq<WorkerPC<J>>, processing: set<J>) {
    && (forall w, j :: 0 <= w < |ws| && HoldsJob(ws[w], j) ==> j in processing)
    && (forall v, w, j :: 0 <= v < w < |ws| && HoldsJob(ws[v], j) ==> !HoldsJob(ws[w], j))
  }

  lemma MovesOn<J(!new)>(ws: seq<WorkerPC<J>>, w: nat, pc: WorkerPC<J>, processing: set<J>)
    requires w < |ws| && OneHolder(ws, processing) && forall j :: HoldsJob(pc, j) ==> HoldsJob(ws[w], j)
    ensures OneHolder(ws[w := pc], processing)
  {
  }

  lemma TakesJob<J(!new)>(ws: seq<WorkerPC<J>>, w: nat, j: J, processing: set<J>)
    requires w < |ws| && OneHolder(ws, processing) && j !in processing
    ensures OneHolder(ws[w := Picked(j)], processing + {j})
  {
  }

  lemma GivesBack<J(!new)>(ws: seq<WorkerPC<J>>, w: nat, j: J, pc: WorkerPC<J>, processing: set<J>)
    requires w < |ws| && OneHolder(ws, processing) && HoldsJob(ws[w], j) && (pc.Idle? || pc.Gone?)
    ensures OneHolder(ws[w := pc], processing - {j})
  {
  }

  ghost predicate SysInv<J(!new), ID(!new)>(s: Sys<J, ID>) {
    DQ.SysInv(s.dq) && OneHolder(s.workers, s.dq.q.processing)
  }

  /** Done is always called on an item in processing, as the queue asks. */
  lemma HolderMayFinish<J(!new), ID(!new)>(c: Config<J, ID>, s: Sys<J, ID>, w: nat)
    requires SysInv(s) && w < |s.workers| && s.workers[w].Finishing?
    ensures Enabled(c, s, Done(w))
  {
    assert HoldsJob(s.workers[w], s.workers[w].j);
  }

  /** What the executor asks of its queue in a step, if anything. */
  function QueueEvent<J, ID>(s: Sys<J, ID>, e: Event<J>): seq<DQ.Event<J>> {
    match e
    case Queue(qe) => [qe]
    case AddJob(_, j) => [DQ.Add(j)]
    case Pick(_, j) => [DQ.Get(j)]
    case Request(w) => if w < |s.workers| && s.workers[w].Adding? then [DQ.Request(s.workers[w].j, s.workers[w].delay)] else []
    case Done(w) => if w < |s.workers| && s.workers[w].Finishing? then [DQ.Done(s.workers[w].j)] else []
    case _ => []
  }

  lemma StepOfQueue<J(!new), ID(!new)>(c: Config<J, ID>, s: Sys<J, ID>, e: Event<J>)
    requires Enabled(c, s, e)
    ensures QueueEvent(s, e) == [] ==> After(c, s, e).dq == s.dq
    ensures QueueEvent(s, e) != [] ==>
      DQ.Enabled(s.dq, QueueEvent(s, e)[0]) && After(c, s, e).dq == DQ.After(s.dq, QueueEvent(s, e)[0])
  {
  }

  lemma QueueKeepsProcessing<J(!new)>(dq: DQ.Sys<J>, e: DQ.Event<J>)
    requires DQ.Enabled(dq, e)
    ensures DQ.After(dq, e).q.processing ==
      if e.Get? then dq.q.processing + {e.x} else if e.Done? then dq.q.processing - {e.x} else dq.q.processing
  {
  }

  lemma StepKeepsInv<J(!new), ID(!new)>(c: Config<J, ID>, s: Sys<J, ID>, e: Event<J>)
    requires SysInv(s) && Enabled(c, s, e)
    ensures SysInv(After(c, s, e))
  {
    StepOfQueue(c, s, e);
    if QueueEvent(s, e) != [] {
      DQ.StepKeepsInv(s.dq, QueueEvent(s, e)[0]);
      QueueKeepsProcessing(s.dq, QueueEvent(s, e)[0]);
    }
    StepKeepsHolders(c, s, e, After(c, s, e));
  }

  lemma StepKeepsHolders<J(!new), ID(!new)>(c: Config<J, ID>, s: Sys<J, ID>, e: Event<J>, s': Sys<J, ID>)
    requires SysInv(s) && Enabled(c, s, e) && s' == After(c, s, e)
    requires s'.dq.q.processing ==
      if e.Pick? then s.dq.q.processing + {e.j} else if e.Done? then s.dq.q.processing - {s.workers[e.w].j} else s.dq.q.processing
    ensures OneHolder(s'.workers, s'.dq.q.processing)
  {
    var p := s.dq.q.processing;
    match e
    case Queue(_) =>
    case Admit(_) =>
    case AddJob(_, _) =>
    case Pick(w, j) =>
      GetKeepsInv(s.dq.q);
      TakesJob(s.workers, w, j, p);
    case Done(w) => GivesBack(s.workers, w, s.workers[w].j, s'.workers[w], p);
    case _ => MovesOn(s.workers, e.w, s'.workers[e.w], p);
  }

  lemma {:induction false} RunKeepsInv<J(!new), ID(!new)>(c: Config<J, ID>, ss: seq<Sys<J, ID>>, es: seq<Event<J>>, n: nat)
    requires IsRun(c, ss, es) && n <= |es|
    ensures SysInv(ss[n])
  {
    if n > 0 {
      RunKeepsInv(c, ss, es, n - 1);
      StepAt(c, ss, es, n - 1);
      StepKeepsInv(c, ss[n - 1], es[n - 1]);
    }
  }
}
