/**
  Whole runs of the keyed delaying queue: producers under back-pressure, consumers, drainers, the waiting
  loop and a clock that only moves forward, in every interleaving. Each lock-held section, clock read and
  channel operation is one step.
 */
module IndexerSystem {
  import opened IndexerQueue
  import opened WaitingLoop
  import opened Waiters
  import opened Callers

  /** The load at which Add makes its callers wait. */
  const QUEUE_ITEM_CAP := 128

  /** Add callers: waiting for room, woken and not yet run, and past the test but not yet in AddAfter. */
  datatype Gate = Gate(asleep: nat, woken: nat, passed: nat)

  /** A call of AddAfter that has read the clock and waits for the lock. */
  datatype Call<I, K> = Call(key: K, item: I, readyAt: int)

  /** The shutdown that runs once: not begun, begun, queue shut, stop channel closed. */
  datatype Stop = Open | Begun | Shut | Closed

  /** `deciding`, `pushing` and `sending` are callers that hold a token: before, and on either side of, the clock test. */
  datatype Sys<I, K> = Sys(
    core: Core<I, K>, clock: int,
    offering: seq<Call<I, K>>, deciding: seq<Token<K>>, pushing: seq<Token<K>>, sending: seq<Token<K>>,
    loop: Loop<K>, stop: Stop, w: Waits, gate: Gate)

  datatype Event<I, K> =
    | Tick(to: int)
    | GatePass(arriving: bool)
    | GateSleep(arriving: bool)
    | AddAfter(item: I, delay: int)
    | AddNow(item: I)
    | Offer(i: nat)
    | Decide(i: nat)
    | Push(i: nat, wake: Wake)
    | Send(i: nat)
    | Abandon(i: nat)
    | LoopStep(e: LoopEvent<K>, wake: Wake)
    | Get(key: K, arriving: bool)
    | Sleep(arriving: bool)
    | Quit(arriving: bool)
    | Done(key: K, wake: Wake)
    | StopBegin(drain: bool)
    | StopShutdown
    | StopClose
    | DrainEnter
    | Drain(step: DrainStep)

  function Start<I, K>(clock: int): Sys<I, K> {
    Sys(Empty(), clock, [], [], [], [], Idle(), Open, NoWaits(), Gate(0, 0, 0))
  }

  predicate GateRuns(g: Gate, arriving: bool) {
    arriving || g.woken > 0
  }

  function GateLeft(g: Gate, arriving: bool): Gate
    requires GateRuns(g, arriving)
  {
    if arriving then g else g.(woken := g.woken - 1)
  }

  function GateSignalled(g: Gate): Gate {
    if g.asleep == 0 then g else g.(asleep := g.asleep - 1, woken := g.woken + 1)
  }

  /** The key whose push this loop step performs, if it performs one. */
  function LoopKey<K>(l: Loop<K>, le: LoopEvent<K>): Option<K> {
    match le
    case Fire(k) => Some(k)
    case Deliver => if l.pc.Handling? then Some(l.pc.tok.data) else None
    case _ => None
  }

  ghost predicate Enabled<I, K(!new)>(ops: Ops<I, K>, s: Sys<I, K>, e: Event<I, K>) {
    match e
    case Tick(to) => s.clock <= to
    case GatePass(arriving) => GateRuns(s.gate, arriving) && (Load(s.core) < QUEUE_ITEM_CAP || s.core.shuttingDown)
    case GateSleep(arriving) => GateRuns(s.gate, arriving) && !(Load(s.core) < QUEUE_ITEM_CAP || s.core.shuttingDown)
    case AddAfter(_, _) => true
    case AddNow(_) => s.gate.passed > 0
    case Offer(i) => i < |s.offering|
    case Decide(i) => i < |s.deciding|
    case Push(i, wake) =>
      i < |s.pushing| && (PushEnqueues(s.core, s.pushing[i].data, s.clock) ==> CanWake(s.w, wake))
    case Send(i) => i < |s.sending| && |s.loop.ch| < CHANNEL_CAP
    case Abandon(i) => i < |s.sending| && s.stop.Closed?
    case LoopStep(le, wake) =>
      && LoopEnabled(s.loop, le, s.clock, s.core.shuttingDown, s.stop.Closed?)
      && var key := LoopKey(s.loop, le);
         (key.Some? && PushEnqueues(s.core, key.value, s.clock) ==> CanWake(s.w, wake))
    case Get(key, arriving) =>
      GetterRuns(s.w, arriving) && s.core.queue != [] && s.core.queue[0] == key && key in s.core.pending
    case Sleep(arriving) => GetterRuns(s.w, arriving) && s.core.queue == [] && !s.core.shuttingDown
    case Quit(arriving) => GetterRuns(s.w, arriving) && s.core.queue == [] && s.core.shuttingDown
    case Done(key, wake) => key in s.core.processing && (DoneSignals(s.core, key) ==> CanWake(s.w, wake))
    case StopBegin(_) => s.stop.Open?
    case StopShutdown => s.stop.Begun?
    case StopClose => s.stop.Shut?
    case DrainEnter => s.stop.Closed?
    case Drain(step) => DrainEnabled(s.w, step)
  }

  /** AddAfter up to the clock reading: nothing happens when the item has no key. */
  function Called<I, K>(ops: Ops<I, K>, s: Sys<I, K>, item: I, delay: int): Sys<I, K> {
    match ops.key(item)
    case None => s
    case Some(key) => s.(offering := s.offering + [Call(key, item, s.clock + delay)])
  }

  function PushedBy<I, K(==)>(s: Sys<I, K>, key: K, wake: Wake): Sys<I, K>
    requires PushEnqueues(s.core, key, s.clock) ==> CanWake(s.w, wake)
  {
    s.(core := Pushed(s.core, key, s.clock), w := SignalledIf(s.w, PushEnqueues(s.core, key, s.clock), wake))
  }

  ghost function After<I, K(!new)>(ops: Ops<I, K>, s: Sys<I, K>, e: Event<I, K>): Sys<I, K>
    requires Enabled(ops, s, e)
  {
    match e
    case Tick(to) => s.(clock := to)
    case GatePass(arriving) =>
      var g := GateLeft(s.gate, arriving);
      s.(gate := g.(passed := g.passed + 1))
    case GateSleep(arriving) =>
      var g := GateLeft(s.gate, arriving);
      s.(gate := g.(asleep := g.asleep + 1))
    case AddAfter(item, delay) => Called(ops, s, item, delay)
    case AddNow(item) => Called(ops, s.(gate := s.gate.(passed := s.gate.passed - 1)), item, 0)
    case Offer(i) =>
      var c := s.offering[i];
      s.(offering := Without(s.offering, i), core := Offered(ops, s.core, c.key, c.item, c.readyAt),
         deciding := if NeedsPush(ops, s.core, c.key, c.item, c.readyAt) then s.deciding + [Token(c.key, c.readyAt)] else s.deciding)
    case Decide(i) =>
      var tok := s.deciding[i];
      if tok.readyAt < s.clock then s.(deciding := Without(s.deciding, i), pushing := s.pushing + [tok])
      else s.(deciding := Without(s.deciding, i), sending := s.sending + [tok])
    case Push(i, wake) => PushedBy(s.(pushing := Without(s.pushing, i)), s.pushing[i].data, wake)
    case Send(i) => s.(sending := Without(s.sending, i), loop := s.loop.(ch := s.loop.ch + [s.sending[i]]))
    case Abandon(i) => s.(sending := Without(s.sending, i))
    case LoopStep(le, wake) =>
      var s' := s.(loop := LoopAfter(s.loop, le, s.clock));
      var key := LoopKey(s.loop, le);
      if key.Some? then PushedBy(s', key.value, wake) else s'
    case Get(_, arriving) => s.(core := Taken(s.core), w := GetterLeft(s.w, arriving))
    case Sleep(arriving) => s.(w := GetterSlept(s.w, arriving))
    case Quit(arriving) => s.(w := GetterLeft(s.w, arriving))
    case Done(key, wake) =>
      s.(core := Finished(s.core, key), w := SignalledIf(s.w, DoneSignals(s.core, key), wake),
         gate := GateSignalled(s.gate))
    case StopBegin(drain) => s.(core := s.core.(drain := drain || s.core.drain), stop := Begun)
    case StopShutdown =>
      s.(core := s.core.(shuttingDown := true), stop := Shut, w := Broadcasted(s.w),
         gate := s.gate.(asleep := 0, woken := s.gate.woken + s.gate.asleep))
    case StopClose => s.(stop := Closed)
    case DrainEnter => s.(w := s.w.(checking := s.w.checking + 1))
    case Drain(step) => s.(w := DrainStepped(s.w, step, s.core.processing != map[], s.core.drain))
  }

  ghost predicate IsRunFrom<I(!new), K(!new)>(
    ops: Ops<I, K>, start: Sys<I, K>, ss: seq<Sys<I, K>>, es: seq<Event<I, K>>)
  {
    && |ss| == |es| + 1 && ss[0] == start
    && forall i {:trigger es[i]} :: 0 <= i < |es| ==> Enabled(ops, ss[i], es[i]) && ss[i + 1] == After(ops, ss[i], es[i])
  }

  ghost predicate IsRun<I(!new), K(!new)>(ops: Ops<I, K>, ss: seq<Sys<I, K>>, es: seq<Event<I, K>>) {
    |ss| > 0 && IsRunFrom(ops, Start(ss[0].clock), ss, es)
  }

  lemma StepAt<I(!new), K(!new)>(ops: Ops<I, K>, ss: seq<Sys<I, K>>, es: seq<Event<I, K>>, n: nat)
    requires IsRun(ops, ss, es) && n < |es|
    ensures Enabled(ops, ss[n], es[n]) && ss[n + 1] == After(ops, ss[n], es[n])
  {
  }

  // ----- What every reachable state keeps -----

  /** Every marked key is due. */
  ghost predicate DirtyIsDue<I, K(!new)>(c: Core<I, K>, clock: int) {
    forall k :: k in c.dirty && k in c.pending ==> c.pending[k].readyAt <= clock
  }

  ghost predicate OffersKeyed<I, K(!new)>(ops: Ops<I, K>, offering: seq<Call<I, K>>) {
    forall i :: 0 <= i < |offering| ==> ops.key(offering[i].item) == Some(offering[i].key)
  }

  ghost predicate SysInv<I, K(!new)>(ops: Ops<I, K>, s: Sys<I, K>) {
    && Inv(ops, s.core) && OffersKeyed(ops, s.offering) && DirtyIsDue(s.core, s.clock)
    && LoopInv(s.loop, s.clock)
    && (s.stop.Shut? || s.stop.Closed? <==> s.core.shuttingDown)
    && WakeInv(s.w, |s.core.queue|, s.core.shuttingDown)
  }

  lemma StepKeepsCoreInv<I, K(!new)>(ops: Ops<I, K>, s: Sys<I, K>, e: Event<I, K>)
    requires SysInv(ops, s) && Enabled(ops, s, e)
    ensures Inv(ops, After(ops, s, e).core)
  {
    match e
    case Offer(i) => OfferKeepsInv(ops, s.core, s.offering[i].key, s.offering[i].item, s.offering[i].readyAt);
    case Push(i, _) => PushKeepsInv(ops, s.core, s.pushing[i].data, s.clock);
    case LoopStep(le, _) =>
      if LoopKey(s.loop, le).Some? {
        PushKeepsInv(ops, s.core, LoopKey(s.loop, le).value, s.clock);
      }
    case Get(_, _) => GetKeepsInv(ops, s.core);
    case Done(key, _) => DoneKeepsInv(ops, s.core, key);
    case _ =>
  }

  lemma StepKeepsKeyedAndDue<I, K(!new)>(ops: Ops<I, K>, s: Sys<I, K>, e: Event<I, K>)
    requires SysInv(ops, s) && Enabled(ops, s, e)
    ensures OffersKeyed(ops, After(ops, s, e).offering)
    ensures DirtyIsDue(After(ops, s, e).core, After(ops, s, e).clock)
  {
  }

  lemma PushKeepsWakeInv<I, K(!new)>(s: Sys<I, K>, key: K, wake: Wake)
    requires PushEnqueues(s.core, key, s.clock) ==> CanWake(s.w, wake)
    requires WakeInv(s.w, |s.core.queue|, s.core.shuttingDown)
    ensures WakeInv(PushedBy(s, key, wake).w, |PushedBy(s, key, wake).core.queue|, s.core.shuttingDown)
  {
    if PushEnqueues(s.core, key, s.clock) {
      SignalKeepsWakeInv(s.w, |s.core.queue|, s.core.shuttingDown, wake);
    }
  }

  ghost predicate Wakeful<I, K>(s: Sys<I, K>) {
    WakeInv(s.w, |s.core.queue|, s.core.shuttingDown)
  }

  lemma PushingStaysWakeful<I, K(!new)>(ops: Ops<I, K>, s: Sys<I, K>, e: Event<I, K>)
    requires Wakeful(s) && Enabled(ops, s, e) && (e.Push? || e.LoopStep?)
    ensures Wakeful(After(ops, s, e))
  {
    if e.Push? {
      PushKeepsWakeInv(s, s.pushing[e.i].data, e.wake);
    } else if LoopKey(s.loop, e.e).Some? {
      PushKeepsWakeInv(s, LoopKey(s.loop, e.e).value, e.wake);
    }
  }

  lemma ConsumingStaysWakeful<I, K(!new)>(ops: Ops<I, K>, s: Sys<I, K>, e: Event<I, K>)
    requires Wakeful(s) && Enabled(ops, s, e) && (e.Get? || e.Sleep? || e.Quit? || e.Done?)
    ensures Wakeful(After(ops, s, e))
  {
    if !e.Done? {
      GetKeepsWakeInv(s.w, |s.core.queue|, s.core.shuttingDown, e.arriving);
    } else if DoneSignals(s.core, e.key) {
      SignalKeepsWakeInv(s.w, |s.core.queue|, s.core.shuttingDown, e.wake);
    }
  }

  lemma StepStaysWakeful<I, K(!new)>(ops: Ops<I, K>, s: Sys<I, K>, e: Event<I, K>)
    requires SysInv(ops, s) && Enabled(ops, s, e)
    ensures Wakeful(After(ops, s, e))
  {
    if e.Push? || e.LoopStep? {
      PushingStaysWakeful(ops, s, e);
    } else if e.Get? || e.Sleep? || e.Quit? || e.Done? {
      ConsumingStaysWakeful(ops, s, e);
    } else if e.StopShutdown? {
      BroadcastKeepsWakeInv(s.w, |s.core.queue|, s.core.shuttingDown);
    } else if e.Drain? {
      DrainKeepsWakeInv(s.w, |s.core.queue|, s.core.shuttingDown, e.step, s.core.processing != map[], s.core.drain);
    }
  }

  lemma StepKeepsInv<I, K(!new)>(ops: Ops<I, K>, s: Sys<I, K>, e: Event<I, K>)
    requires SysInv(ops, s) && Enabled(ops, s, e)
    ensures SysInv(ops, After(ops, s, e))
  {
    StepKeepsCoreInv(ops, s, e);
    StepKeepsKeyedAndDue(ops, s, e);
    StepStaysWakeful(ops, s, e);
  }

  lemma {:induction false} RunKeepsInv<I(!new), K(!new)>(ops: Ops<I, K>, ss: seq<Sys<I, K>>, es: seq<Event<I, K>>, n: nat)
    requires IsRun(ops, ss, es) && n <= |es|
    ensures SysInv(ops, ss[n])
  {
    if n > 0 {
      RunKeepsInv(ops, ss, es, n - 1);
      StepAt(ops, ss, es, n - 1);
      StepKeepsInv(ops, ss[n - 1], es[n - 1]);
    }
  }
}
