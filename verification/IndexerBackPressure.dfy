/** Back-pressure: Add makes its callers wait while the queue is full, with the test and the insertion in separate steps. */
module IndexerBackPressure {
  import opened IndexerQueue
  import opened IndexerSystem

  /** All calls of Add and AddAfter that have begun and not returned. */
  function CallsInProgress<I, K>(s: Sys<I, K>): nat {
    s.gate.asleep + s.gate.woken + s.gate.passed + |s.offering| + |s.deciding| + |s.pushing| + |s.sending|
  }

  // ----- The load is bounded -----

  lemma OfferAddsOne<I, K(!new)>(ops: Ops<I, K>, c: Core<I, K>, key: K, item: I, readyAt: int)
    ensures Load(Offered(ops, c, key, item, readyAt)) == Load(c) + if Creates(ops, c, key, item) then 1 else 0
  {
    var pending := c.pending;
    if Creates(ops, c, key, item) {
      assert pending[key := Entry(item, readyAt)].Keys == pending.Keys + {key};
    } else if key in pending {
      assert pending[key := Merged(ops, pending[key], item, readyAt)].Keys == pending.Keys;
    }
  }

  lemma OfferLeavesSome<I, K(!new)>(ops: Ops<I, K>, c: Core<I, K>, key: K, item: I, readyAt: int)
    requires !c.shuttingDown
    ensures Load(Offered(ops, c, key, item, readyAt)) > 0
  {
    OfferAddsOne(ops, c, key, item, readyAt);
    assert key in c.pending ==> |c.pending| > 0;
    assert key in c.processing ==> |c.processing| > 0;
  }

  lemma OfferOnLoad<I, K(!new)>(ops: Ops<I, K>, s: Sys<I, K>, i: nat)
    requires Enabled(ops, s, Offer(i))
    ensures var c := After(ops, s, Offer(i)).core;
            && Load(s.core) <= Load(c) <= Load(s.core) + (if s.core.shuttingDown then 0 else 1)
            && (!s.core.shuttingDown ==> Load(c) > 0)
  {
    var c := s.offering[i];
    OfferAddsOne(ops, s.core, c.key, c.item, c.readyAt);
    if !s.core.shuttingDown {
      OfferLeavesSome(ops, s.core, c.key, c.item, c.readyAt);
    }
  }

  /** What one step does to the load. */
  lemma StepOnLoad<I, K(!new)>(ops: Ops<I, K>, s: Sys<I, K>, e: Event<I, K>)
    requires SysInv(ops, s) && Enabled(ops, s, e)
    ensures e.Done? ==> Load(After(ops, s, e).core) == Load(s.core) - 1
    ensures !e.Offer? && !e.Done? ==> Load(After(ops, s, e).core) == Load(s.core)
    ensures e.Offer? ==> Load(s.core) <= Load(After(ops, s, e).core) <= Load(s.core) + if s.core.shuttingDown then 0 else 1
    ensures e.Offer? && !s.core.shuttingDown ==> Load(After(ops, s, e).core) > 0
  {
    match e
    case Offer(i) => OfferOnLoad(ops, s, i);
    case Get(_, _) => GetKeepsLoad(ops, s.core);
    case Done(key, _) => DoneDropsOne(s.core, key);
    case _ =>
  }

  ghost predicate LoadInv<I, K>(s: Sys<I, K>, limit: nat) {
    && Load(s.core) <= limit
    && (!s.core.shuttingDown ==> Load(s.core) + s.gate.passed + |s.offering| <= limit)
  }

  lemma StepKeepsLoadInv<I, K(!new)>(ops: Ops<I, K>, s: Sys<I, K>, e: Event<I, K>, callers: nat)
    requires SysInv(ops, s) && Enabled(ops, s, e) && !e.AddAfter?
    requires LoadInv(s, QUEUE_ITEM_CAP + callers - 1) && CallsInProgress(After(ops, s, e)) <= callers
    ensures LoadInv(After(ops, s, e), QUEUE_ITEM_CAP + callers - 1)
  {
    StepOnLoad(ops, s, e);
  }

  /** Items enter only through Add, and at most `callers` calls are in progress at any time. */
  ghost predicate AddsOnly<I(!new), K(!new)>(ss: seq<Sys<I, K>>, es: seq<Event<I, K>>, callers: nat) {
    && (forall i :: 0 <= i < |es| ==> !es[i].AddAfter?)
    && (forall i :: 0 <= i < |ss| ==> CallsInProgress(ss[i]) <= callers)
  }

  lemma {:induction false} RunKeepsLoadInv<I(!new), K(!new)>(
    ops: Ops<I, K>, ss: seq<Sys<I, K>>, es: seq<Event<I, K>>, callers: nat, n: nat)
    requires IsRun(ops, ss, es) && n <= |es| && AddsOnly(ss, es, callers) && callers > 0
    ensures LoadInv(ss[n], QUEUE_ITEM_CAP + callers - 1)
  {
    if n > 0 {
      RunKeepsLoadInv(ops, ss, es, callers, n - 1);
      RunKeepsInv(ops, ss, es, n - 1);
      StepAt(ops, ss, es, n - 1);
      assert CallsInProgress(ss[n]) <= callers;
      StepKeepsLoadInv(ops, ss[n - 1], es[n - 1], callers);
    }
  }

  /** The queue overshoots its cap by at most the callers that race, less one. */
  lemma LoadIsBounded<I(!new), K(!new)>(
    ops: Ops<I, K>, ss: seq<Sys<I, K>>, es: seq<Event<I, K>>, callers: nat, n: nat)
    requires IsRun(ops, ss, es) && n <= |es| && AddsOnly(ss, es, callers) && callers > 0
    ensures |ss[n].core.pending| + |ss[n].core.processing| <= 128 + callers - 1
  {
    RunKeepsLoadInv(ops, ss, es, callers, n);
  }

  // ----- Producers are not stranded -----

  /** While a producer sleeps the queue is open, and somebody is there whose next step can wake it. */
  ghost predicate NotStranded<I, K>(s: Sys<I, K>) {
    s.gate.asleep > 0 ==>
      && !s.core.shuttingDown
      && (Load(s.core) > 0 || s.gate.woken > 0 || s.gate.passed > 0 || |s.offering| > 0)
  }

  /** The one step that strands: the last producer on its way turns out to hold an item without a key. */
  predicate LastOneFails<I, K>(ops: Ops<I, K>, s: Sys<I, K>, e: Event<I, K>) {
    && e.AddNow? && ops.key(e.item).None?
    && s.gate == Gate(s.gate.asleep, 0, 1) && s.gate.asleep > 0 && Load(s.core) == 0 && s.offering == []
  }

  lemma AddNowStrandsExactlyWhen<I, K(!new)>(ops: Ops<I, K>, s: Sys<I, K>, e: Event<I, K>)
    requires Enabled(ops, s, e) && NotStranded(s) && e.AddNow?
    ensures NotStranded(After(ops, s, e)) <==> !LastOneFails(ops, s, e)
  {
  }

  /** Steps that leave the gate, the calls and the load as they are. */
  predicate AwayFromGate<I, K>(e: Event<I, K>) {
    !(e.GatePass? || e.GateSleep? || e.AddAfter? || e.AddNow? || e.Offer? || e.Done? || e.StopShutdown?)
  }

  lemma StaysAwayFromGate<I, K(!new)>(ops: Ops<I, K>, s: Sys<I, K>, e: Event<I, K>)
    requires Enabled(ops, s, e) && AwayFromGate(e)
    ensures After(ops, s, e).gate == s.gate && After(ops, s, e).offering == s.offering
    ensures After(ops, s, e).core.shuttingDown == s.core.shuttingDown
  {
  }

  lemma OthersDoNotStrand<I, K(!new)>(ops: Ops<I, K>, s: Sys<I, K>, e: Event<I, K>)
    requires SysInv(ops, s) && Enabled(ops, s, e) && NotStranded(s) && !e.AddNow?
    ensures NotStranded(After(ops, s, e))
  {
    StepOnLoad(ops, s, e);
    if AwayFromGate(e) {
      StaysAwayFromGate(ops, s, e);
    }
  }

  /** A step keeps producers from being stranded exactly when it is not that one. */
  lemma StepStrandsExactlyWhen<I, K(!new)>(ops: Ops<I, K>, s: Sys<I, K>, e: Event<I, K>)
    requires SysInv(ops, s) && Enabled(ops, s, e) && NotStranded(s)
    ensures NotStranded(After(ops, s, e)) <==> !LastOneFails(ops, s, e)
  {
    if e.AddNow? {
      AddNowStrandsExactlyWhen(ops, s, e);
    } else {
      OthersDoNotStrand(ops, s, e);
    }
  }

  lemma {:induction false} ProducersNotStranded<I(!new), K(!new)>(
    ops: Ops<I, K>, ss: seq<Sys<I, K>>, es: seq<Event<I, K>>, n: nat)
    requires IsRun(ops, ss, es) && n <= |es|
    requires forall i :: 0 <= i < |es| && es[i].AddNow? ==> ops.key(es[i].item).Some?
    ensures NotStranded(ss[n])
  {
    if n > 0 {
      ProducersNotStranded(ops, ss, es, n - 1);
      RunKeepsInv(ops, ss, es, n - 1);
      StepAt(ops, ss, es, n - 1);
      StepStrandsExactlyWhen(ops, ss[n - 1], es[n - 1]);
    }
  }
}
