/**
  A delay of any length loses a key. A run in which one caller uses AddAfter with one positive delay and Add,
  and the queue ends up holding a pending key that nothing will ever push.
 */
module IndexerLostKey {
  import opened IndexerQueue
  import opened WaitHeap
  import opened WaitingLoop
  import opened Waiters
  import opened IndexerSystem
  import opened IndexerTokens

  /** A run from the start, at time zero, whose callers of AddAfter use only the delay `d`. */
  datatype Run<!I(!new), !K(!new)> = Run(ss: seq<Sys<I, K>>, es: seq<Event<I, K>>) {
    ghost predicate Ok(ops: Ops<I, K>, d: int) {
      IsRunFrom(ops, Start(0), ss, es) && DelaysWithin(es, delay => delay == d)
    }

    ghost function Last(): Sys<I, K>
      requires |ss| == |es| + 1
    {
      ss[|es|]
    }
  }

  lemma Then<I(!new), K(!new)>(ops: Ops<I, K>, d: int, r: Run<I, K>, e: Event<I, K>) returns (r': Run<I, K>)
    requires r.Ok(ops, d) && Enabled(ops, r.Last(), e) && (e.AddAfter? ==> e.delay == d)
    ensures r'.Ok(ops, d) && r'.Last() == After(ops, r.Last(), e)
  {
    r' := Run(r.ss + [After(ops, r.Last(), e)], r.es + [e]);
  }

  /** The open queue with one entry at most, nobody waiting, and nobody in the middle of a call. */
  function Quiet<I, K>(pending: map<K, Entry<I>>, clock: int, loop: Loop<K>): Sys<I, K> {
    Sys(Core(pending, map[], {}, [], false, false), clock, [], [], [], [], loop, Open, NoWaits(), Gate(0, 0, 0))
  }

  /** AddAfter makes a new entry and sends its token. */
  lemma Requested<I(!new), K(!new)>(ops: Ops<I, K>, x: I, k: K, d: int, r: Run<I, K>, clock: int, loop: Loop<K>)
    returns (r': Run<I, K>)
    requires ops.key(x) == Some(k) && d > 0 && loop.ch == []
    requires r.Ok(ops, d) && r.Last() == Quiet(map[], clock, loop)
    ensures r'.Ok(ops, d) && r'.Last() == Quiet(map[k := Entry(x, clock + d)], clock, loop.(ch := [Token(k, clock + d)]))
  {
    r' := Then(ops, d, r, AddAfter(x, d));
    r' := Then(ops, d, r', Offer(0));
    r' := Then(ops, d, r', Decide(0));
    r' := Then(ops, d, r', Send(0));
  }

  /** The loop comes round to its wait with an empty heap. */
  lemma CameRound<I(!new), K(!new)>(
    ops: Ops<I, K>, d: int, r: Run<I, K>, pending: map<K, Entry<I>>, clock: int, ch: seq<Token<K>>) returns (r': Run<I, K>)
    requires r.Ok(ops, d) && r.Last() == Quiet(pending, clock, Loop(Top, ch, map[]))
    ensures r'.Ok(ops, d) && r'.Last() == Quiet(pending, clock, Loop(Select, ch, map[]))
  {
    r' := Then(ops, d, r, LoopStep(Begin, Nobody));
    r' := Then(ops, d, r', LoopStep(ReadClock, Nobody));
    r' := Then(ops, d, r', LoopStep(FireDone, Nobody));
  }

  /** The loop receives a token that is not due and files it. */
  lemma Filed<I(!new), K(!new)>(
    ops: Ops<I, K>, d: int, r: Run<I, K>, pending: map<K, Entry<I>>, clock: int, loop: Loop<K>, tok: Token<K>) returns (r': Run<I, K>)
    requires r.Ok(ops, d) && r.Last() == Quiet(pending, clock, loop)
    requires loop.ch == [tok] && clock < tok.readyAt && (loop.pc.Select? || loop.pc.Draining?)
    ensures r'.Ok(ops, d)
    ensures r'.Last() == Quiet(pending, clock, Loop(Draining, [], Sooner(loop.heap, tok.data, tok.readyAt)))
  {
    r' := Then(ops, d, r, LoopStep(Receive, Nobody));
    r' := Then(ops, d, r', LoopStep(Keep, Nobody));
  }

  /** Add brings the pending entry forward to now and sends a second token. */
  lemma Advanced<I(!new), K(!new)>(ops: Ops<I, K>, x: I, k: K, d: int, r: Run<I, K>, heap: map<K, int>) returns (r': Run<I, K>)
    requires ops.key(x) == Some(k) && d > 0
    requires r.Ok(ops, d) && r.Last() == Quiet(map[k := Entry(x, d)], 0, Loop(Draining, [], heap))
    ensures r'.Ok(ops, d) && r'.Last() == Quiet(map[k := Entry(x, 0)], 0, Loop(Draining, [Token(k, 0)], heap))
  {
    r' := Then(ops, d, r, GatePass(true));
    r' := Then(ops, d, r', AddNow(x));
    assert map[k := Entry(x, d)][k := Entry(x, 0)] == map[k := Entry(x, 0)];
    r' := Then(ops, d, r', Offer(0));
    r' := Then(ops, d, r', Decide(0));
    r' := Then(ops, d, r', Send(0));
  }

  /** The second token makes the key dirty. */
  lemma Marked<I(!new), K(!new)>(ops: Ops<I, K>, x: I, k: K, d: int, r: Run<I, K>, heap: map<K, int>) returns (r': Run<I, K>)
    requires r.Ok(ops, d) && r.Last() == Quiet(map[k := Entry(x, 0)], 0, Loop(Draining, [Token(k, 0)], heap))
    ensures r'.Ok(ops, d)
    ensures r'.Last() == Quiet(map[], 0, Loop(Draining, [], heap)).(core := Core(map[k := Entry(x, 0)], map[], {k}, [k], false, false))
  {
    r' := Then(ops, d, r, LoopStep(Receive, Nobody));
    r' := Then(ops, d, r', LoopStep(Deliver, Nobody));
  }

  /** A consumer takes the key and finishes. */
  lemma Served<I(!new), K(!new)>(ops: Ops<I, K>, x: I, k: K, d: int, r: Run<I, K>, loop: Loop<K>) returns (r': Run<I, K>)
    requires r.Ok(ops, d)
    requires r.Last() == Quiet(map[], 0, loop).(core := Core(map[k := Entry(x, 0)], map[], {k}, [k], false, false))
    ensures r'.Ok(ops, d) && r'.Last() == Quiet(map[], 0, loop)
  {
    var entry := map[k := Entry(x, 0)];
    assert entry - {k} == map[];
    assert {k} - {k} == {};
    r' := Then(ops, d, r, Get(k, true));
    assert r'.Last().core == Core(map[], entry, {}, [], false, false);
    r' := Then(ops, d, r', Done(k, Nobody));
  }

  /** The loop comes round when the stale token is due. */
  lemma CameDue<I(!new), K(!new)>(ops: Ops<I, K>, pending: map<K, Entry<I>>, d: int, r: Run<I, K>, heap: map<K, int>)
    returns (r': Run<I, K>)
    requires d > 0 && r.Ok(ops, d) && r.Last() == Quiet(pending, 1, Loop(Draining, [], heap))
    ensures r'.Ok(ops, d) && r'.Last() == Quiet(pending, d, Loop(Firing(d), [], heap))
  {
    r' := Then(ops, d, r, LoopStep(Drained, Nobody));
    r' := Then(ops, d, r', Tick(d));
    r' := Then(ops, d, r', LoopStep(Begin, Nobody));
    r' := Then(ops, d, r', LoopStep(ReadClock, Nobody));
  }

  /** The stale token finds the entry not due, and is the last one. */
  lemma Missed<I(!new), K(!new)>(ops: Ops<I, K>, x: I, k: K, d: int, r: Run<I, K>) returns (r': Run<I, K>)
    requires r.Ok(ops, d) && r.Last() == Quiet(map[k := Entry(x, 1 + d)], d, Loop(Firing(d), [], map[k := d]))
    ensures r'.Ok(ops, d) && r'.Last() == Quiet(map[k := Entry(x, 1 + d)], d, Loop(Firing(d), [], map[]))
  {
    assert map[k := d] - {k} == map[];
    r' := Then(ops, d, r, LoopStep(Fire(k), Nobody));
  }

  /**
    AddAfter, Add, Get and Done leave a stale token in the heap. A second AddAfter then loses the key: its
    token gives way to the stale one, which comes too early.
   */
  lemma KeyIsLost<I(!new), K(!new)>(ops: Ops<I, K>, x: I, k: K, d: int) returns (r: Run<I, K>)
    requires ops.key(x) == Some(k) && d > 0
    ensures r.Ok(ops, d) && Lost(r.Last(), k)
  {
    r := Run([Start(0)], []);
    r := Requested(ops, x, k, d, r, 0, Idle());
    r := CameRound(ops, d, r, map[k := Entry(x, d)], 0, [Token(k, d)]);
    r := Filed(ops, d, r, map[k := Entry(x, d)], 0, Loop(Select, [Token(k, d)], map[]), Token(k, d));
    r := Advanced(ops, x, k, d, r, map[k := d]);
    r := Marked(ops, x, k, d, r, map[k := d]);
    r := Served(ops, x, k, d, r, Loop(Draining, [], map[k := d]));
    r := Then(ops, d, r, Tick(1));
    r := Requested(ops, x, k, d, r, 1, Loop(Draining, [], map[k := d]));
    r := Filed(ops, d, r, map[k := Entry(x, 1 + d)], 1, Loop(Draining, [Token(k, 1 + d)], map[k := d]), Token(k, 1 + d));
    r := CameDue(ops, map[k := Entry(x, 1 + d)], d, r, map[k := d]);
    r := Missed(ops, x, k, d, r);
  }

  /** Keys are never lost exactly when no caller of AddAfter asks for a positive delay. */
  lemma NeverLostExactlyWithoutDelay<I(!new), K(!new)>(ops: Ops<I, K>, x: I, k: K, allowed: int -> bool)
    requires ops.key(x) == Some(k)
    ensures NeverLost(ops, allowed) <==> forall d :: allowed(d) ==> d <= 0
  {
    if forall d :: allowed(d) ==> d <= 0 {
      forall ss, es, n: nat, key | IsRun(ops, ss, es) && DelaysWithin(es, allowed) && n <= |es|
        ensures !Lost(ss[n], key)
      {
        assert DelaysWithin(es, d => d <= 0);
        RunKeepsBacked(ops, ss, es, n);
      }
    } else {
      var d :| allowed(d) && d > 0;
      var r := KeyIsLost(ops, x, k, d);
      assert DelaysWithin(r.es, allowed);
      assert IsRun(ops, r.ss, r.es);
    }
  }
}
