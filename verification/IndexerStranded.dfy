/**
  One item without a key can strand a producer for good. A run that fills the queue, lets more producers fall
  asleep than there are entries, serves every entry, and has each woken producer fail on an item without a key.
 */
module IndexerStranded {
  import opened IndexerQueue
  import opened Waiters
  import opened IndexerSystem
  import opened IndexerLostKey
  import opened IndexerBackPressure

  /** The open queue, all of it due and queued, nobody in the middle of a call or waiting to consume. */
  ghost predicate Resting<I, K(!new)>(s: Sys<I, K>, queue: seq<K>, gate: Gate) {
    && s.core.queue == queue && s.core.pending.Keys == s.core.dirty && s.core.processing == map[]
    && Load(s.core) == |queue| && !s.core.shuttingDown && s.clock == 0
    && s.offering == [] && s.deciding == [] && s.pushing == [] && s.sending == []
    && s.w == NoWaits() && s.gate == gate
  }

  /** A run in which Add is called only with `bad`, and AddAfter only with the delay -1. */
  ghost predicate OnlyAdds<I(!new), K(!new)>(ops: Ops<I, K>, r: Run<I, K>, bad: I) {
    r.Ok(ops, -1) && forall i :: 0 <= i < |r.es| && r.es[i].AddNow? ==> r.es[i].item == bad
  }

  ghost predicate Reaches<I(!new), K(!new)>(ops: Ops<I, K>, bad: I, r: Run<I, K>, queue: seq<K>, gate: Gate) {
    OnlyAdds(ops, r, bad) && Resting(r.Last(), queue, gate)
  }

  lemma Next<I(!new), K(!new)>(ops: Ops<I, K>, bad: I, r: Run<I, K>, e: Event<I, K>) returns (r': Run<I, K>)
    requires OnlyAdds(ops, r, bad) && Enabled(ops, r.Last(), e)
    requires (e.AddAfter? ==> e.delay == -1) && (e.AddNow? ==> e.item == bad)
    ensures OnlyAdds(ops, r', bad) && r'.Last() == After(ops, r.Last(), e)
  {
    r' := Run(r.ss + [After(ops, r.Last(), e)], r.es + [e]);
  }

  lemma LastIsReachable<I(!new), K(!new)>(ops: Ops<I, K>, bad: I, r: Run<I, K>)
    requires OnlyAdds(ops, r, bad)
    ensures SysInv(ops, r.Last())
  {
    RunKeepsInv(ops, r.ss, r.es, |r.es|);
  }

  /** A new key enters and is queued at once. */
  lemma Enters<I(!new), K(!new)>(ops: Ops<I, K>, bad: I, r: Run<I, K>, queue: seq<K>, gate: Gate, x: I, k: K)
    returns (r': Run<I, K>)
    requires Reaches(ops, bad, r, queue, gate) && ops.key(x) == Some(k) && k !in queue
    ensures Reaches(ops, bad, r', queue + [k], gate)
  {
    LastIsReachable(ops, bad, r);
    OfferAddsOne(ops, r.Last().core, k, x, -1);
    r' := Next(ops, bad, r, AddAfter(x, -1));
    r' := Next(ops, bad, r', Offer(0));
    r' := Next(ops, bad, r', Decide(0));
    r' := Next(ops, bad, r', Push(0, Nobody));
  }

  /** A consumer takes the key at the head and finishes, which wakes one producer. */
  lemma Leaves<I(!new), K(!new)>(ops: Ops<I, K>, bad: I, r: Run<I, K>, queue: seq<K>, gate: Gate) returns (r': Run<I, K>)
    requires Reaches(ops, bad, r, queue, gate) && queue != []
    ensures Reaches(ops, bad, r', queue[1..], GateSignalled(gate))
  {
    LastIsReachable(ops, bad, r);
    var c, k := r.Last().core, queue[0];
    HeadIsPending(ops, c);
    GetKeepsLoad(ops, c);
    r' := Next(ops, bad, r, Get(k, true));
    DoneDropsOne(r'.Last().core, k);
    assert map[k := c.pending[k]] - {k} == map[];
    r' := Next(ops, bad, r', Done(k, Nobody));
  }

  /** The items' keys are all different. */
  ghost predicate Distinct<I(!new), K(!new)>(ops: Ops<I, K>, items: seq<I>, keys: seq<K>) {
    && |items| == |keys| && (forall i :: 0 <= i < |items| ==> ops.key(items[i]) == Some(keys[i]))
    && (forall i, j :: 0 <= i < j < |keys| ==> keys[i] != keys[j])
  }

  lemma {:induction false} Fills<I(!new), K(!new)>(ops: Ops<I, K>, bad: I, items: seq<I>, keys: seq<K>, n: nat)
    returns (r: Run<I, K>)
    requires Distinct(ops, items, keys) && n <= |keys|
    ensures Reaches(ops, bad, r, keys[..n], Gate(0, 0, 0))
  {
    if n == 0 {
      r := Run([Start(0)], []);
    } else {
      r := Fills(ops, bad, items, keys, n - 1);
      r := Enters(ops, bad, r, keys[..n - 1], Gate(0, 0, 0), items[n - 1], keys[n - 1]);
      assert keys[..n - 1] + [keys[n - 1]] == keys[..n];
    }
  }

  lemma {:induction false} FallAsleep<I(!new), K(!new)>(ops: Ops<I, K>, bad: I, r: Run<I, K>, queue: seq<K>, n: nat)
    returns (r': Run<I, K>)
    requires Reaches(ops, bad, r, queue, Gate(0, 0, 0)) && |queue| >= QUEUE_ITEM_CAP
    ensures Reaches(ops, bad, r', queue, Gate(n, 0, 0))
  {
    if n == 0 {
      r' := r;
    } else {
      r' := FallAsleep(ops, bad, r, queue, n - 1);
      r' := Next(ops, bad, r', GateSleep(true));
    }
  }

  lemma {:induction false} Empties<I(!new), K(!new)>(
    ops: Ops<I, K>, bad: I, r: Run<I, K>, queue: seq<K>, asleep: nat, woken: nat) returns (r': Run<I, K>)
    requires Reaches(ops, bad, r, queue, Gate(asleep, woken, 0)) && |queue| <= asleep
    ensures Reaches(ops, bad, r', [], Gate(asleep - |queue|, woken + |queue|, 0))
    decreases |queue|
  {
    if queue == [] {
      r' := r;
    } else {
      r' := Leaves(ops, bad, r, queue, Gate(asleep, woken, 0));
      r' := Empties(ops, bad, r', queue[1..], asleep - 1, woken + 1);
    }
  }

  /** Every woken producer passes the gate and fails: its item has no key. */
  lemma {:induction false} AllFail<I(!new), K(!new)>(ops: Ops<I, K>, bad: I, r: Run<I, K>, woken: nat) returns (r': Run<I, K>)
    requires Reaches(ops, bad, r, [], Gate(1, woken, 0)) && ops.key(bad).None?
    ensures Reaches(ops, bad, r', [], Gate(1, 0, 0))
    decreases woken
  {
    if woken == 0 {
      r' := r;
    } else {
      r' := Next(ops, bad, r, GatePass(false));
      r' := Next(ops, bad, r', AddNow(bad));
      r' := AllFail(ops, bad, r', woken - 1);
    }
  }

  /** The queue ends up open and empty, with nobody on the way, and a producer asleep. */
  lemma ProducerIsStranded<I(!new), K(!new)>(ops: Ops<I, K>, items: seq<I>, keys: seq<K>, bad: I) returns (r: Run<I, K>)
    requires Distinct(ops, items, keys) && |keys| == QUEUE_ITEM_CAP && ops.key(bad).None?
    ensures OnlyAdds(ops, r, bad) && !NotStranded(r.Last())
  {
    r := Fills(ops, bad, items, keys, |keys|);
    assert keys[..|keys|] == keys;
    r := FallAsleep(ops, bad, r, keys, |keys| + 1);
    r := Empties(ops, bad, r, keys, |keys| + 1, 0);
    r := AllFail(ops, bad, r, |keys|);
  }

  /** Producers call Add only with items in `allowed`; what they give AddAfter is open. */
  ghost predicate AddsWithin<I(!new), K(!new)>(es: seq<Event<I, K>>, allowed: I -> bool) {
    forall i :: 0 <= i < |es| && es[i].AddNow? ==> allowed(es[i].item)
  }

  ghost predicate NeverStrands<I(!new), K(!new)>(ops: Ops<I, K>, allowed: I -> bool) {
    forall ss: seq<Sys<I, K>>, es, n: nat ::
      IsRun(ops, ss, es) && n <= |es| && AddsWithin(es, allowed) ==> NotStranded(ss[n])
  }

  /** Once the queue can fill up at all, producers are never stranded exactly when each item they add has a key. */
  lemma NeverStrandsExactlyWithKeys<I(!new), K(!new)>(ops: Ops<I, K>, items: seq<I>, keys: seq<K>, allowed: I -> bool)
    requires Distinct(ops, items, keys) && |keys| == QUEUE_ITEM_CAP
    ensures NeverStrands(ops, allowed) <==> forall x :: allowed(x) ==> ops.key(x).Some?
  {
    if forall x :: allowed(x) ==> ops.key(x).Some? {
      forall ss: seq<Sys<I, K>>, es, n: nat | IsRun(ops, ss, es) && n <= |es| && AddsWithin(es, allowed)
        ensures NotStranded(ss[n])
      {
        ProducersNotStranded(ops, ss, es, n);
      }
    } else {
      var bad :| allowed(bad) && ops.key(bad).None?;
      var r := ProducerIsStranded(ops, items, keys, bad);
      assert IsRun(ops, r.ss, r.es) && AddsWithin(r.es, allowed);
    }
  }
}
