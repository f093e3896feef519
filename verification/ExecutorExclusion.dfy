/** Jobs that do not allow concurrent runs: what keeps two of one ID apart, and when nothing does. */
module ExecutorExclusion {
  import opened WorkQueue
  import opened RateLimiters
  import opened Executor

  /** Two workers run jobs of the same ID, and neither job allows it. */
  predicate BothRunning<J, ID(==)>(c: Config<J, ID>, s: Sys<J, ID>, v: nat, w: nat) {
    && v < w < |s.workers| && s.workers[v].Running? && s.workers[w].Running?
    && c.id(s.workers[v].j) == c.id(s.workers[w].j)
    && !c.concurrent(s.workers[v].j) && !c.concurrent(s.workers[w].j)
  }

  ghost predicate Exclusive<J(!new), ID(!new)>(c: Config<J, ID>, workers: nat) {
    forall ss: seq<Sys<J, ID>>, es, n: nat, v: nat, w: nat ::
      IsRun(c, ss, es) && |ss[0].workers| == workers && n <= |es| ==> !BothRunning(c, ss[n], v, w)
  }

  lemma {:induction false} SameWorkers<J(!new), ID(!new)>(c: Config<J, ID>, ss: seq<Sys<J, ID>>, es: seq<Event<J>>, n: nat)
    requires IsRun(c, ss, es) && n <= |es|
    ensures |ss[n].workers| == |ss[0].workers|
  {
    if n > 0 {
      SameWorkers(c, ss, es, n - 1);
      StepAt(c, ss, es, n - 1);
    }
  }

  /** The job itself, as opposed to its ID, never runs twice at once. */
  lemma OneJobRunsOnce<J(!new), ID(!new)>(c: Config<J, ID>, ss: seq<Sys<J, ID>>, es: seq<Event<J>>, n: nat, v: nat, w: nat)
    requires IsRun(c, ss, es) && n <= |es| && v < w < |ss[n].workers|
    requires ss[n].workers[v].Running? && ss[n].workers[w].Running?
    ensures ss[n].workers[v].j != ss[n].workers[w].j
  {
    RunKeepsInv(c, ss, es, n);
    var a, b := ss[n].workers[v].j, ss[n].workers[w].j;
    assert HoldsJob(ss[n].workers[v], a) && HoldsJob(ss[n].workers[w], b);
  }

  // ----- Looking before starting keeps jobs apart, but for the moment between the two -----

  predicate Active<J>(pc: WorkerPC<J>) {
    pc.Starting? || pc.Running?
  }

  /** No job with this ID allows concurrent runs. */
  ghost predicate NoneConcurrent<J(!new), ID(!new)>(c: Config<J, ID>, id: ID) {
    forall j :: c.id(j) == id ==> !c.concurrent(j)
  }

  /** The worker looks while another, with a job of the same ID, has looked and not yet started. */
  ghost predicate Races<J(!new), ID(!new)>(c: Config<J, ID>, s: Sys<J, ID>, e: Event<J>) {
    && e.Check? && e.w < |s.workers| && s.workers[e.w].Picked?
    && exists v :: 0 <= v < |s.workers| && s.workers[v].Starting? && c.id(s.workers[v].j) == c.id(s.workers[e.w].j)
  }

  ghost predicate RaceFree<J(!new), ID(!new)>(c: Config<J, ID>, ss: seq<Sys<J, ID>>, es: seq<Event<J>>) {
    IsRun(c, ss, es) && forall i {:trigger es[i]} :: 0 <= i < |es| ==> !Races(c, ss[i], es[i])
  }

  /** At most one job with this ID is active, and while it runs that is noted. */
  ghost predicate Apart<J(!new), ID(!new)>(c: Config<J, ID>, s: Sys<J, ID>, id: ID) {
    && (forall v, w :: 0 <= v < w < |s.workers| && Active(s.workers[v]) && Active(s.workers[w]) && c.id(s.workers[v].j) == id
          ==> c.id(s.workers[w].j) != id)
    && (forall w :: 0 <= w < |s.workers| && s.workers[w].Running? && c.id(s.workers[w].j) == id ==> id in s.running)
  }

  lemma OthersStayApart<J(!new), ID(!new)>(c: Config<J, ID>, s: Sys<J, ID>, e: Event<J>, id: ID)
    requires Apart(c, s, id) && Enabled(c, s, e) && !e.Check? && !e.Start? && !e.Finish?
    ensures Apart(c, After(c, s, e), id)
  {
    var s' := After(c, s, e);
    assert s'.running == s.running && |s'.workers| == |s.workers|;
    assert forall w :: 0 <= w < |s.workers| && Active(s'.workers[w]) ==> s'.workers[w] == s.workers[w];
  }

  lemma FinishKeepsApart<J(!new), ID(!new)>(c: Config<J, ID>, s: Sys<J, ID>, e: Event<J>, id: ID)
    requires Apart(c, s, id) && Enabled(c, s, e) && e.Finish?
    ensures Apart(c, After(c, s, e), id)
  {
    var s' := After(c, s, e);
    forall w | 0 <= w < |s'.workers| && s'.workers[w].Running? && c.id(s'.workers[w].j) == id
      ensures id in s'.running
    {
      assert w != e.w && Active(s.workers[w]) && Active(s.workers[e.w]);
    }
  }

  lemma StepKeepsApart<J(!new), ID(!new)>(c: Config<J, ID>, s: Sys<J, ID>, e: Event<J>, id: ID)
    requires NoneConcurrent(c, id) && Apart(c, s, id) && Enabled(c, s, e) && !Races(c, s, e)
    ensures Apart(c, After(c, s, e), id)
  {
    if e.Finish? {
      FinishKeepsApart(c, s, e, id);
    } else if !e.Check? && !e.Start? {
      OthersStayApart(c, s, e, id);
    }
  }

  /** In a run without that race, jobs of an ID of which none allows concurrent runs never run at the same time. */
  lemma {:induction false} ApartWithoutRace<J(!new), ID(!new)>(
    c: Config<J, ID>, ss: seq<Sys<J, ID>>, es: seq<Event<J>>, id: ID, n: nat)
    requires RaceFree(c, ss, es) && n <= |es| && NoneConcurrent(c, id)
    ensures Apart(c, ss[n], id)
  {
    if n > 0 {
      ApartWithoutRace(c, ss, es, id, n - 1);
      StepAt(c, ss, es, n - 1);
      StepKeepsApart(c, ss[n - 1], es[n - 1], id);
    }
  }

  /** Two jobs of an ID do not allow concurrent runs, and a third of the same ID does. */
  ghost predicate Mixed<J(!new), ID(!new)>(c: Config<J, ID>) {
    exists a, b, d :: MixedBy(c, a, b, d)
  }

  predicate MixedBy<J(==), ID(==)>(c: Config<J, ID>, a: J, b: J, d: J) {
    a != b && c.id(a) == c.id(b) == c.id(d) && !c.concurrent(a) && !c.concurrent(b) && c.concurrent(d)
  }

  lemma UnmixedStayApart<J(!new), ID(!new)>(c: Config<J, ID>, ss: seq<Sys<J, ID>>, es: seq<Event<J>>, n: nat, v: nat, w: nat)
    requires RaceFree(c, ss, es) && n <= |es| && !Mixed(c)
    ensures !BothRunning(c, ss[n], v, w)
  {
    if BothRunning(c, ss[n], v, w) {
      OneJobRunsOnce(c, ss, es, n, v, w);
      var a, b := ss[n].workers[v].j, ss[n].workers[w].j;
      assert NoneConcurrent(c, c.id(a)) by {
        forall d | c.id(d) == c.id(a)
          ensures !c.concurrent(d)
        {
          assert !MixedBy(c, a, b, d);
        }
      }
      ApartWithoutRace(c, ss, es, c.id(a), n);
    }
  }

  // ----- A job that allows concurrent runs takes the note of another away -----

  lemma Next<J(!new), ID(!new)>(c: Config<J, ID>, ss: seq<Sys<J, ID>>, es: seq<Event<J>>, e: Event<J>)
    returns (ss': seq<Sys<J, ID>>, es': seq<Event<J>>)
    requires RaceFree(c, ss, es) && Enabled(c, ss[|es|], e) && !Races(c, ss[|es|], e)
    ensures RaceFree(c, ss', es') && ss'[0] == ss[0] && ss'[|es'|] == After(c, ss[|es|], e)
  {
    ss', es' := ss + [After(c, ss[|es|], e)], es + [e];
  }

  /** The open queue holds just `queue`, the IDs in `running` are noted, and the workers stand as in `ws`. */
  ghost predicate Stands<J(!new), ID(!new)>(s: Sys<J, ID>, queue: seq<J>, running: set<ID>, ws: seq<WorkerPC<J>>) {
    && s.dq.q.queue == queue && (forall j :: j in s.dq.q.dirty ==> j in queue) && !s.dq.q.shuttingDown
    && s.running == running && s.workers == ws
  }

  ghost predicate Reaches<J(!new), ID(!new)>(
    c: Config<J, ID>, ss: seq<Sys<J, ID>>, es: seq<Event<J>>, queue: seq<J>, running: set<ID>, ws: seq<WorkerPC<J>>)
  {
    RaceFree(c, ss, es) && |ss[0].workers| == |ws| && Stands(ss[|es|], queue, running, ws)
  }

  lemma ThreeAdmitted<J(!new), ID(!new)>(c: Config<J, ID>, a: J, d: J, b: J, l: Limiter<J>, workers: nat)
    returns (ss: seq<Sys<J, ID>>, es: seq<Event<J>>)
    requires c.maxQueueSize > 0 && Fresh(l) && Counting(l)
    ensures RaceFree(c, ss, es) && |ss[0].workers| == workers
    ensures ss[|es|] == Initial(workers, l, 0).(admitted := [a, d, b])
  {
    ss, es := [Initial(workers, l, 0)], [];
    ss, es := Next(c, ss, es, Admit(a));
    ss, es := Next(c, ss, es, Admit(d));
    ss, es := Next(c, ss, es, Admit(b));
  }

  lemma ThreeAdded<J(!new), ID(!new)>(c: Config<J, ID>, a: J, d: J, b: J, l: Limiter<J>, workers: nat)
    returns (ss: seq<Sys<J, ID>>, es: seq<Event<J>>)
    requires a != b && a != d && b != d && c.maxQueueSize > 0 && Fresh(l) && Counting(l)
    ensures Reaches(c, ss, es, [a, d, b], {}, seq(workers, _ => Idle))
  {
    ss, es := ThreeAdmitted(c, a, d, b, l, workers);
    ss, es := Next(c, ss, es, AddJob(0, a));
    ss, es := Next(c, ss, es, AddJob(0, d));
    ss, es := Next(c, ss, es, AddJob(0, b));
    assert Added(Added(Added(Init(), a), d), b) == State([a, d, b], {a, d, b}, {}, false, false);
  }

  /** A worker takes the job at the head, finds that it may run, and runs it. */
  lemma Begins<J(!new), ID(!new)>(
    c: Config<J, ID>, ss: seq<Sys<J, ID>>, es: seq<Event<J>>, queue: seq<J>, running: set<ID>, ws: seq<WorkerPC<J>>, w: nat)
    returns (ss': seq<Sys<J, ID>>, es': seq<Event<J>>)
    requires Reaches(c, ss, es, queue, running, ws) && queue != [] && w < |ws| && ws[w].Idle?
    requires (c.concurrent(queue[0]) || c.id(queue[0]) !in running) && forall v :: 0 <= v < |ws| ==> !ws[v].Starting?
    ensures Reaches(c, ss', es', queue[1..], running + {c.id(queue[0])}, ws[w := Running(queue[0])])
  {
    assert forall j :: j in queue <==> j == queue[0] || j in queue[1..];
    ss', es' := Next(c, ss, es, Pick(w, queue[0]));
    ss', es' := Next(c, ss', es', Check(w));
    ss', es' := Next(c, ss', es', Start(w));
  }

  /** The worker's job succeeds, is forgotten and done. */
  lemma Ends<J(!new), ID(!new)>(
    c: Config<J, ID>, ss: seq<Sys<J, ID>>, es: seq<Event<J>>, queue: seq<J>, running: set<ID>, ws: seq<WorkerPC<J>>, w: nat)
    returns (ss': seq<Sys<J, ID>>, es': seq<Event<J>>)
    requires Reaches(c, ss, es, queue, running, ws) && w < |ws| && ws[w].Running?
    ensures Reaches(c, ss', es', queue, running - {c.id(ws[w].j)}, ws[w := Idle])
  {
    RunKeepsInv(c, ss, es, |es|);
    assert HoldsJob(ws[w], ws[w].j);
    ss', es' := Next(c, ss, es, Finish(w, Succeeded));
    ss', es' := Next(c, ss', es', Event.Forget(w, ws[w].j));
    ss', es' := Next(c, ss', es', Done(w));
  }

  /**
    Without any race: one job runs; the job that allows it starts and ends beside it, which takes the ID off
    the list; the other job then looks, finds nothing, and runs beside the first.
   */
  lemma NoteIsTakenAway<J(!new), ID(!new)>(c: Config<J, ID>, a: J, b: J, d: J, l: Limiter<J>, workers: nat)
    returns (ss: seq<Sys<J, ID>>, es: seq<Event<J>>)
    requires MixedBy(c, a, b, d) && c.maxQueueSize > 0 && workers >= 2 && Fresh(l) && Counting(l)
    ensures RaceFree(c, ss, es) && |ss[0].workers| == workers && BothRunning(c, ss[|es|], 0, 1)
  {
    var id, idle := c.id(a), seq(workers, _ => Idle);
    ss, es := ThreeAdded(c, a, d, b, l, workers);
    ss, es := Begins(c, ss, es, [a, d, b], {}, idle, 0);
    ss, es := Begins(c, ss, es, [d, b], {id}, idle[0 := Running(a)], 1);
    ss, es := Ends(c, ss, es, [b], {id}, idle[0 := Running(a)][1 := Running(d)], 1);
    ss, es := Begins(c, ss, es, [b], {}, idle[0 := Running(a)], 1);
  }

  ghost predicate ExclusiveUnlessRacing<J(!new), ID(!new)>(c: Config<J, ID>, workers: nat) {
    forall ss: seq<Sys<J, ID>>, es, n: nat, v: nat, w: nat ::
      RaceFree(c, ss, es) && |ss[0].workers| == workers && n <= |es| ==> !BothRunning(c, ss[n], v, w)
  }

  /** But for the race, jobs of one ID are kept apart exactly when there is at most one worker or no ID is mixed. */
  lemma ExclusiveUnlessRacingExactlyWhen<J(!new), ID(!new)>(c: Config<J, ID>, l: Limiter<J>, workers: nat)
    requires c.maxQueueSize > 0 && Fresh(l) && Counting(l)
    ensures ExclusiveUnlessRacing(c, workers) <==> workers <= 1 || !Mixed(c)
  {
    if workers <= 1 || !Mixed(c) {
      forall ss: seq<Sys<J, ID>>, es, n: nat, v: nat, w: nat
        | RaceFree(c, ss, es) && |ss[0].workers| == workers && n <= |es|
        ensures !BothRunning(c, ss[n], v, w)
      {
        SameWorkers(c, ss, es, n);
        if !Mixed(c) {
          UnmixedStayApart(c, ss, es, n, v, w);
        }
      }
    } else {
      var a, b, d :| MixedBy(c, a, b, d);
      var ss, es := NoteIsTakenAway(c, a, b, d, l, workers);
    }
  }

  // ----- Two workers that both look before either has started -----

  /** Two jobs are added. */
  lemma BothAdded<J(!new), ID(!new)>(c: Config<J, ID>, a: J, b: J, l: Limiter<J>, workers: nat)
    returns (ss: seq<Sys<J, ID>>, es: seq<Event<J>>)
    requires a != b && c.maxQueueSize > 0 && Fresh(l) && Counting(l)
    ensures IsRun(c, ss, es) && |ss[0].workers| == workers
    ensures ss[|es|] == Initial(workers, l, 0).(dq := DQ.Start(0).(q := State([a, b], {a, b}, {}, false, false)))
  {
    ss, es := [Initial(workers, l, 0)], [];
    ss, es := Extended(c, ss, es, Admit(a));
    ss, es := Extended(c, ss, es, Admit(b));
    ss, es := Extended(c, ss, es, AddJob(0, a));
    ss, es := Extended(c, ss, es, AddJob(0, b));
    assert Added(Added(Init(), a), b) == State([a, b], {a, b}, {}, false, false);
  }

  /** Two workers pick them up. */
  lemma BothPicked<J(!new), ID(!new)>(c: Config<J, ID>, a: J, b: J, l: Limiter<J>, workers: nat)
    returns (ss: seq<Sys<J, ID>>, es: seq<Event<J>>)
    requires a != b && c.maxQueueSize > 0 && workers >= 2 && Fresh(l) && Counting(l)
    ensures IsRun(c, ss, es) && |ss[0].workers| == workers
    ensures |ss[|es|].workers| == workers && ss[|es|].workers[0] == Picked(a) && ss[|es|].workers[1] == Picked(b)
    ensures ss[|es|].running == {}
  {
    ss, es := BothAdded(c, a, b, l, workers);
    ss, es := Extended(c, ss, es, Pick(0, a));
    ss, es := Extended(c, ss, es, Pick(1, b));
  }

  /** From there both look, find nothing running, and start. */
  lemma BothStart<J(!new), ID(!new)>(c: Config<J, ID>, a: J, b: J, ss: seq<Sys<J, ID>>, es: seq<Event<J>>)
    returns (ss': seq<Sys<J, ID>>, es': seq<Event<J>>)
    requires IsRun(c, ss, es) && |ss[|es|].workers| >= 2 && ss[|es|].running == {}
    requires ss[|es|].workers[0] == Picked(a) && ss[|es|].workers[1] == Picked(b)
    requires c.id(a) == c.id(b) && !c.concurrent(a) && !c.concurrent(b)
    ensures IsRun(c, ss', es') && ss'[0] == ss[0] && BothRunning(c, ss'[|es'|], 0, 1)
  {
    ss', es' := Extended(c, ss, es, Check(0));
    ss', es' := Extended(c, ss', es', Check(1));
    ss', es' := Extended(c, ss', es', Start(0));
    ss', es' := Extended(c, ss', es', Start(1));
  }

  lemma Extended<J(!new), ID(!new)>(c: Config<J, ID>, ss: seq<Sys<J, ID>>, es: seq<Event<J>>, e: Event<J>)
    returns (ss': seq<Sys<J, ID>>, es': seq<Event<J>>)
    requires IsRun(c, ss, es) && Enabled(c, ss[|es|], e)
    ensures IsRun(c, ss', es') && ss'[0] == ss[0] && ss'[|es'|] == After(c, ss[|es|], e)
  {
    ss', es' := ss + [After(c, ss[|es|], e)], es + [e];
  }

  /** Two jobs of one ID, neither of which allows concurrent runs. */
  predicate Contend<J(==), ID(==)>(c: Config<J, ID>, a: J, b: J) {
    a != b && c.id(a) == c.id(b) && !c.concurrent(a) && !c.concurrent(b)
  }

  /** Jobs of one ID are kept apart exactly when there is at most one worker or no two jobs contend. */
  lemma ExclusiveExactlyWhen<J(!new), ID(!new)>(c: Config<J, ID>, l: Limiter<J>, workers: nat)
    requires c.maxQueueSize > 0 && Fresh(l) && Counting(l)
    ensures Exclusive(c, workers) <==> workers <= 1 || forall a, b :: !Contend(c, a, b)
  {
    if workers <= 1 || forall a, b :: !Contend(c, a, b) {
      forall ss: seq<Sys<J, ID>>, es, n: nat, v: nat, w: nat | IsRun(c, ss, es) && |ss[0].workers| == workers && n <= |es|
        ensures !BothRunning(c, ss[n], v, w)
      {
        SameWorkers(c, ss, es, n);
        if BothRunning(c, ss[n], v, w) {
          OneJobRunsOnce(c, ss, es, n, v, w);
          assert Contend(c, ss[n].workers[v].j, ss[n].workers[w].j);
        }
      }
    } else {
      var a, b :| Contend(c, a, b);
      var ss, es := BothPicked(c, a, b, l, workers);
      var ss', es' := BothStart(c, a, b, ss, es);
    }
  }
}
