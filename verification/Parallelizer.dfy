/** The chunked parallel loop: workers take chunks of indices from a channel until done or canceled. */
module Parallelizer {

  function CeilDiv(a: nat, b: nat): nat
    requires b > 0
  {
    (a + b - 1) / b
  }

  datatype Job = Job(pieces: nat, chunkSize: int, workers: nat) {
    /** A chunk holds one piece unless more are asked for. */
    function Size(): (n: nat)
      ensures n > 0
    {
      if chunkSize < 1 then 1 else chunkSize
    }

    function Chunks(): nat {
      CeilDiv(pieces, Size())
    }
  }

  datatype Worker = Idle | Busy(p: nat, end: nat) | Exited

  /** `next` is the first chunk still in the channel; `executed` lists the pieces worked on, in order. */
  datatype State = State(next: nat, workers: seq<Worker>, executed: seq<nat>, canceled: bool)

  datatype Event = Take(w: nat) | Work(w: nat) | Stop(w: nat) | ChunkDone(w: nat) | Leave(w: nat) | Cancel

  function Start(j: Job): State
  {
    State(0, seq(if j.Chunks() < j.workers then j.Chunks() else j.workers, _ => Idle), [], false)
  }

  predicate Enabled(j: Job, s: State, e: Event)
  {
    match e
    case Take(w) => w < |s.workers| && s.workers[w].Idle? && s.next < j.Chunks()
    case Work(w) => w < |s.workers| && s.workers[w].Busy? && s.workers[w].p < s.workers[w].end && !s.canceled
    case Stop(w) => w < |s.workers| && s.workers[w].Busy? && s.workers[w].p < s.workers[w].end && s.canceled
    case ChunkDone(w) => w < |s.workers| && s.workers[w].Busy? && s.workers[w].p >= s.workers[w].end
    case Leave(w) => w < |s.workers| && s.workers[w].Idle? && s.next >= j.Chunks()
    case Cancel => true
  }

  function After(j: Job, s: State, e: Event): State
    requires Enabled(j, s, e)
  {
    match e
    case Take(w) =>
      var start := s.next * j.Size();
      var end := start + j.Size();
      s.(next := s.next + 1, workers := s.workers[w := Busy(start, if end > j.pieces then j.pieces else end)])
    case Work(w) =>
      var p := s.workers[w].p;
      s.(executed := s.executed + [p], workers := s.workers[w := Busy(p + 1, s.workers[w].end)])
    case Stop(w) => s.(workers := s.workers[w := Exited])
    case ChunkDone(w) => s.(workers := s.workers[w := Idle])
    case Leave(w) => s.(workers := s.workers[w := Exited])
    case Cancel => s.(canceled := true)
  }

  ghost predicate IsRun(j: Job, ss: seq<State>, es: seq<Event>)
  {
    && |ss| == |es| + 1 && ss[0] == Start(j)
    && forall i {:trigger es[i]} :: 0 <= i < |es| ==> Enabled(j, ss[i], es[i]) && ss[i + 1] == After(j, ss[i], es[i])
  }

  // ----- Where each piece is -----

  function Times(executed: seq<nat>, q: nat): nat {
    if executed == [] then 0
    else Times(executed[..|executed| - 1], q) + if executed[|executed| - 1] == q then 1 else 0
  }

  function Holds(w: Worker, q: nat): nat {
    if w.Busy? && w.p <= q < w.end then 1 else 0
  }

  function Holders(ws: seq<Worker>, q: nat): nat {
    if ws == [] then 0 else Holds(ws[0], q) + Holders(ws[1..], q)
  }

  lemma {:induction false} HoldersUpdate(ws: seq<Worker>, i: nat, w: Worker, q: nat)
    requires i < |ws|
    ensures Holders(ws[i := w], q) == Holders(ws, q) - Holds(ws[i], q) + Holds(w, q)
  {
    if i == 0 {
      assert ws[i := w][1..] == ws[1..];
    } else {
      HoldersUpdate(ws[1..], i - 1, w, q);
      assert ws[i := w][1..] == ws[1..][i - 1 := w];
    }
  }

  lemma {:induction false} NobodyHolds(ws: seq<Worker>, q: nat)
    requires forall i :: 0 <= i < |ws| ==> !ws[i].Busy?
    ensures Holders(ws, q) == 0
  {
    if ws != [] {
      NobodyHolds(ws[1..], q);
    }
  }

  /** A piece has been executed, is with a worker, or is still in the channel. */
  function Places(j: Job, s: State, q: nat): nat {
    Times(s.executed, q) + Holders(s.workers, q) + if s.next * j.Size() <= q < j.pieces then 1 else 0
  }

  lemma ChunksCover(a: nat, b: nat)
    requires b > 0
    ensures CeilDiv(a, b) * b >= a
  {
    var c := CeilDiv(a, b);
    assert a + b - 1 == c * b + (a + b - 1) % b;
  }

  lemma NextChunk(next: nat, size: nat)
    ensures (next + 1) * size == next * size + size
  {
  }

  /** A step moves a piece from place to place; only a stop may drop it. */
  lemma StepMovesPiece(j: Job, s: State, e: Event, q: nat)
    requires Enabled(j, s, e) && q < j.pieces
    ensures Places(j, After(j, s, e), q) <= Places(j, s, q)
    ensures !e.Stop? ==> Places(j, After(j, s, e), q) == Places(j, s, q)
  {
    var s' := After(j, s, e);
    if !e.Cancel? {
      HoldersUpdate(s.workers, e.w, s'.workers[e.w], q);
    }
    match e
    case Take(w) =>
      NextChunk(s.next, j.Size());
    case Work(w) =>
      assert s'.executed[..|s.executed|] == s.executed;
    case _ =>
  }

  /** Pieces with workers are pieces of the job, and no worker leaves early unless canceled. */
  ghost predicate Inv(j: Job, s: State)
  {
    && (forall i :: 0 <= i < |s.workers| && s.workers[i].Busy? ==> s.workers[i].end <= j.pieces)
    && (forall p :: p in s.executed ==> p < j.pieces)
    && (!s.canceled ==> forall i :: 0 <= i < |s.workers| && s.workers[i].Exited? ==> s.next >= j.Chunks())
    && |s.workers| == |Start(j).workers|
  }

  lemma {:induction false} RunKeepsInv(j: Job, ss: seq<State>, es: seq<Event>, n: nat)
    requires IsRun(j, ss, es) && n <= |es|
    ensures Inv(j, ss[n])
  {
    if n > 0 {
      RunKeepsInv(j, ss, es, n - 1);
      var e := es[n - 1];
    }
  }

  lemma {:induction false} RunMovesPiece(j: Job, ss: seq<State>, es: seq<Event>, n: nat, q: nat)
    requires IsRun(j, ss, es) && n <= |es| && q < j.pieces
    ensures Places(j, ss[n], q) <= 1
    ensures !ss[n].canceled ==> Places(j, ss[n], q) == 1
  {
    if n == 0 {
      NobodyHolds(ss[0].workers, q);
    } else {
      RunMovesPiece(j, ss, es, n - 1, q);
      var e := es[n - 1];
      StepMovesPiece(j, ss[n - 1], e, q);
    }
  }

  // ----- The promises -----

  predicate Finished(s: State) {
    forall i :: 0 <= i < |s.workers| ==> s.workers[i].Exited?
  }

  ghost function Cancels(es: seq<Event>, n: nat): nat
    requires n <= |es|
  {
    if n == 0 then 0 else Cancels(es, n - 1) + if es[n - 1].Cancel? then 1 else 0
  }

  lemma {:induction false} CanceledExactlyWhen(j: Job, ss: seq<State>, es: seq<Event>, n: nat)
    requires IsRun(j, ss, es) && n <= |es|
    ensures ss[n].canceled <==> Cancels(es, n) > 0
  {
    if n > 0 {
      CanceledExactlyWhen(j, ss, es, n - 1);
      var e := es[n - 1];
    }
  }

  /** From a cancel on no further piece is executed. */
  lemma {:induction false} CancelStops(j: Job, ss: seq<State>, es: seq<Event>, i: nat, n: nat)
    requires IsRun(j, ss, es) && i < n <= |es| && es[i].Cancel?
    ensures ss[n].executed == ss[i].executed && ss[n].canceled
    decreases n
  {
    var e := es[n - 1];
    if n > i + 1 {
      CancelStops(j, ss, es, i, n - 1);
    }
  }

  /** In every interleaving, canceled or not, no piece is executed twice, and nothing else is executed. */
  lemma AtMostOnce(j: Job, ss: seq<State>, es: seq<Event>, n: nat)
    requires IsRun(j, ss, es) && n <= |es|
    ensures forall q: nat :: q < j.pieces ==> Times(ss[n].executed, q) <= 1
    ensures forall p :: p in ss[n].executed ==> p < j.pieces
  {
    RunKeepsInv(j, ss, es, n);
    forall q: nat | q < j.pieces
      ensures Times(ss[n].executed, q) <= 1
    {
      RunMovesPiece(j, ss, es, n, q);
    }
  }

  /** Not canceled, the loop ends with every piece executed exactly once, given a worker or nothing to do. */
  lemma ExactlyOnce(j: Job, ss: seq<State>, es: seq<Event>, n: nat, q: nat)
    requires IsRun(j, ss, es) && n <= |es| && Finished(ss[n]) && Cancels(es, n) == 0 && q < j.pieces
    ensures Times(ss[n].executed, q) == if j.workers > 0 then 1 else 0
  {
    CanceledExactlyWhen(j, ss, es, n);
    RunKeepsInv(j, ss, es, n);
    RunMovesPiece(j, ss, es, n, q);
    NobodyHolds(ss[n].workers, q);
    ChunksCover(j.pieces, j.Size());
    if j.workers > 0 {
      assert ss[n].workers[0].Exited?;
      AllTaken(j, ss[n].next, q);
    } else {
      NoWorkerNoWork(j, ss, es, n);
    }
  }

  lemma AllTaken(j: Job, next: nat, q: nat)
    requires next >= j.Chunks() && q < j.pieces
    ensures q < next * j.Size()
  {
    ChunksCover(j.pieces, j.Size());
    assert next * j.Size() >= j.Chunks() * j.Size();
  }

  lemma {:induction false} NoWorkerNoWork(j: Job, ss: seq<State>, es: seq<Event>, n: nat)
    requires IsRun(j, ss, es) && n <= |es| && j.workers == 0
    ensures ss[n].executed == [] && ss[n].workers == []
  {
    if n > 0 {
      NoWorkerNoWork(j, ss, es, n - 1);
      var e := es[n - 1];
    }
  }

  // ----- Who takes what -----

  /** There are as many workers as asked for, but no more than chunks. */
  lemma {:induction false} WorkersStay(j: Job, ss: seq<State>, es: seq<Event>, n: nat)
    requires IsRun(j, ss, es) && n <= |es|
    ensures |ss[n].workers| <= j.workers && |ss[n].workers| <= j.Chunks()
    ensures |ss[n].workers| == j.workers || |ss[n].workers| == j.Chunks()
  {
    if n > 0 {
      WorkersStay(j, ss, es, n - 1);
      var e := es[n - 1];
    }
  }

  ghost function Takes(es: seq<Event>, n: nat): nat
    requires n <= |es|
  {
    if n == 0 then 0 else Takes(es, n - 1) + if es[n - 1].Take? then 1 else 0
  }

  lemma {:induction false} NextIsTakes(j: Job, ss: seq<State>, es: seq<Event>, n: nat)
    requires IsRun(j, ss, es) && n <= |es|
    ensures ss[n].next == Takes(es, n)
  {
    if n > 0 {
      NextIsTakes(j, ss, es, n - 1);
      var e := es[n - 1];
    }
  }

  lemma QuotientTimes(a: nat, b: nat)
    requires b > 0
    ensures a / b * b <= a
  {
  }

  lemma TimesGrows(a: nat, b: nat, k: nat)
    requires a <= b
    ensures a * k <= b * k
  {
  }

  lemma ChunkIsNotEmpty(pieces: nat, size: nat, chunk: nat)
    requires size > 0 && chunk < CeilDiv(pieces, size)
    ensures chunk * size < pieces
  {
    QuotientTimes(pieces + size - 1, size);
    TimesGrows(chunk + 1, CeilDiv(pieces, size), size);
    NextChunk(chunk, size);
  }

  /**
    Chunks are handed out in order: each the next so many pieces as asked for, or one; only the last may be shorter,
    and none is empty.
   */
  lemma TakesNextChunk(j: Job, ss: seq<State>, es: seq<Event>, n: nat)
    requires IsRun(j, ss, es) && n < |es| && es[n].Take?
    ensures var size := if j.chunkSize > 1 then j.chunkSize else 1;
            var p, w := Takes(es, n) * size, es[n].w;
            && w < |ss[n + 1].workers| && ss[n + 1].workers[w].Busy? && ss[n + 1].workers[w].p == p < ss[n + 1].workers[w].end
            && ss[n + 1].workers[w].end <= p + size && ss[n + 1].workers[w].end <= j.pieces
            && (ss[n + 1].workers[w].end == p + size || ss[n + 1].workers[w].end == j.pieces)
  {
    NextIsTakes(j, ss, es, n);
    var e := es[n];
    ChunkIsNotEmpty(j.pieces, j.Size(), ss[n].next);
  }

  /** A worker that stops or leaves does not come back. */
  lemma {:induction false} StopIsForGood(j: Job, ss: seq<State>, es: seq<Event>, i: nat, n: nat)
    requires IsRun(j, ss, es) && i < n <= |es| && (es[i].Stop? || es[i].Leave?)
    ensures es[i].w < |ss[n].workers| && ss[n].workers[es[i].w].Exited?
    decreases n
  {
    var e := es[n - 1];
    if n > i + 1 {
      StopIsForGood(j, ss, es, i, n - 1);
    }
  }

  // ----- The loop ends -----

  function Left(w: Worker): nat {
    match w
    case Idle => 1
    case Busy(p, end) => if p < end then end - p + 2 else 2
    case Exited => 0
  }

  function AllLeft(ws: seq<Worker>): nat {
    if ws == [] then 0 else Left(ws[0]) + AllLeft(ws[1..])
  }

  lemma {:induction false} AllLeftUpdate(ws: seq<Worker>, i: nat, w: Worker)
    requires i < |ws|
    ensures AllLeft(ws[i := w]) == AllLeft(ws) - Left(ws[i]) + Left(w)
  {
    if i == 0 {
      assert ws[i := w][1..] == ws[1..];
    } else {
      AllLeftUpdate(ws[1..], i - 1, w);
      assert ws[i := w][1..] == ws[1..][i - 1 := w];
    }
  }

  /** The steps still to come: those of chunks not taken, and those of the workers. */
  function StepsLeft(j: Job, s: State): int
  {
    (j.Chunks() - s.next) * (j.Size() + 2) + AllLeft(s.workers)
  }

  lemma StepComesCloser(j: Job, s: State, e: Event)
    requires Enabled(j, s, e)
    ensures StepsLeft(j, After(j, s, e)) <= StepsLeft(j, s) - if e.Cancel? then 0 else 1
    ensures s.next <= j.Chunks() ==> After(j, s, e).next <= j.Chunks()
  {
    var s' := After(j, s, e);
    if !e.Cancel? {
      AllLeftUpdate(s.workers, e.w, s'.workers[e.w]);
    }
    if e.Take? {
      OneChunkLess(j.Chunks() - s.next, j.Size() + 2);
    }
  }

  lemma OneChunkLess(chunks: int, steps: int)
    ensures (chunks - 1) * steps == chunks * steps - steps
  {
  }

  /** No schedule goes on for ever: the steps of the workers are bounded from the start. */
  lemma {:induction false} EveryRunEnds(j: Job, ss: seq<State>, es: seq<Event>, n: nat)
    requires IsRun(j, ss, es) && n <= |es|
    ensures n - Cancels(es, n) + StepsLeft(j, ss[n]) <= StepsLeft(j, Start(j))
    ensures ss[n].next <= j.Chunks() && StepsLeft(j, ss[n]) >= 0
  {
    if n > 0 {
      EveryRunEnds(j, ss, es, n - 1);
      var e := es[n - 1];
      StepComesCloser(j, ss[n - 1], e);
    }
    SomeLeft(j, ss[n]);
  }

  lemma NotNegative(chunks: nat, steps: nat)
    ensures chunks * steps >= 0
  {
  }

  lemma SomeLeft(j: Job, s: State)
    requires s.next <= j.Chunks()
    ensures StepsLeft(j, s) >= 0
  {
    NotNegative(j.Chunks() - s.next, j.Size() + 2);
  }

  /** And none gets stuck: a worker that has not left can take a step, and a cancel may come at any time. */
  lemma NeverStuck(j: Job, s: State)
    requires !Finished(s)
    ensures Enabled(j, s, Cancel) && exists e: Event :: !e.Cancel? && Enabled(j, s, e)
  {
    var w :| 0 <= w < |s.workers| && !s.workers[w].Exited?;
    var e := match s.workers[w]
      case Idle => if s.next < j.Chunks() then Take(w) else Leave(w)
      case Busy(p, end) => if p >= end then ChunkDone(w) else if s.canceled then Stop(w) else Work(w)
      case Exited => Cancel;
    assert Enabled(j, s, e);
  }
}
