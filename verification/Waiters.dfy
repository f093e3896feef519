/**
  The callers blocked on the condition variable that consumers (Get) and drainers
  (ShutDownWithDrain) share. Callers are counted by where they stand.
 */
module Waiters {

  /**
    `getAsleep`, `getWoken`: consumers inside Wait, and consumers woken that have not run yet.
    The others count drainers: `starting` has set the drain flag and not yet shut the queue down;
    `checking` is about to test for processing items; `deciding` found some and is about to test the
    drain flag; `waiting` found it set and is about to take the lock to wait; then asleep and woken.
   */
  datatype Waits = Waits(
    getAsleep: nat, getWoken: nat,
    starting: nat, checking: nat, deciding: nat, waiting: nat, drainAsleep: nat, drainWoken: nat)

  function NoWaits(): Waits {
    Waits(0, 0, 0, 0, 0, 0, 0, 0)
  }

  // ----- Signal and broadcast -----

  /** Whom a signal wakes: a sleeper of either kind, or nobody when nobody sleeps. */
  datatype Wake = Nobody | Getter | Drainer

  predicate CanWake(w: Waits, wake: Wake) {
    match wake
    case Nobody => w.getAsleep == 0 && w.drainAsleep == 0
    case Getter => w.getAsleep > 0
    case Drainer => w.drainAsleep > 0
  }

  /** Whom a signal may wake. */
  function SomeWake(w: Waits): (wake: Wake)
    ensures CanWake(w, wake)
  {
    if w.getAsleep > 0 then Getter else if w.drainAsleep > 0 then Drainer else Nobody
  }

  function Signalled(w: Waits, wake: Wake): Waits
    requires CanWake(w, wake)
  {
    match wake
    case Nobody => w
    case Getter => w.(getAsleep := w.getAsleep - 1, getWoken := w.getWoken + 1)
    case Drainer => w.(drainAsleep := w.drainAsleep - 1, drainWoken := w.drainWoken + 1)
  }

  function SignalledIf(w: Waits, signal: bool, wake: Wake): Waits
    requires signal ==> CanWake(w, wake)
  {
    if signal then Signalled(w, wake) else w
  }

  function Broadcasted(w: Waits): Waits {
    w.(getAsleep := 0, getWoken := w.getWoken + w.getAsleep,
       drainAsleep := 0, drainWoken := w.drainWoken + w.drainAsleep)
  }

  // ----- Consumers -----

  /** A Get caller runs: either it has just arrived, or it was woken. */
  predicate GetterRuns(w: Waits, arriving: bool) {
    arriving || w.getWoken > 0
  }

  function GetterLeft(w: Waits, arriving: bool): Waits
    requires GetterRuns(w, arriving)
  {
    if arriving then w else w.(getWoken := w.getWoken - 1)
  }

  function GetterSlept(w: Waits, arriving: bool): Waits
    requires GetterRuns(w, arriving)
  {
    var w := GetterLeft(w, arriving);
    w.(getAsleep := w.getAsleep + 1)
  }

  // ----- Drainers -----

  datatype DrainStep = IsProcessing | ShouldDrain | WaitForProcessing | Resume

  predicate DrainEnabled(w: Waits, step: DrainStep) {
    match step
    case IsProcessing => w.checking > 0
    case ShouldDrain => w.deciding > 0
    case WaitForProcessing => w.waiting > 0
    case Resume => w.drainWoken > 0
  }

  /** `busy`: some item is being processed; `drain`: the drain flag. A drainer that is done leaves the count. */
  function DrainStepped(w: Waits, step: DrainStep, busy: bool, drain: bool): Waits
    requires DrainEnabled(w, step)
  {
    match step
    case IsProcessing =>
      w.(checking := w.checking - 1, deciding := if busy then w.deciding + 1 else w.deciding)
    case ShouldDrain =>
      w.(deciding := w.deciding - 1, waiting := if drain then w.waiting + 1 else w.waiting)
    case WaitForProcessing =>
      if busy then w.(waiting := w.waiting - 1, drainAsleep := w.drainAsleep + 1)
      else w.(waiting := w.waiting - 1, checking := w.checking + 1)
    case Resume =>
      w.(drainWoken := w.drainWoken - 1, checking := w.checking + 1)
  }

  /** Callers of Get inside their wait loop. */
  function Getters(w: Waits): nat {
    w.getAsleep + w.getWoken
  }

  function Sleepers(w: Waits): nat {
    w.getAsleep + w.drainAsleep
  }

  function Drainers(w: Waits): nat {
    w.starting + w.checking + w.deciding + w.waiting + w.drainAsleep + w.drainWoken
  }

  predicate DrainLeaves(step: DrainStep, busy: bool, drain: bool) {
    (step.IsProcessing? && !busy) || (step.ShouldDrain? && !drain)
  }

  /**
    A drainer leaves at its test for processing items when there are none, at its test of the flag when that is
    cleared, and nowhere else.
   */
  lemma DrainerLeavesExactlyWhen(w: Waits, step: DrainStep, busy: bool, drain: bool)
    requires DrainEnabled(w, step)
    ensures Drainers(DrainStepped(w, step, busy, drain)) == Drainers(w) - if DrainLeaves(step, busy, drain) then 1 else 0
  {
  }

  // ----- No lost wakeup -----

  /**
    While a consumer sleeps the queue is open and every queued item has a woken consumer on its way;
    drainers get past their own shutdown only once the queue is shut.
   */
  ghost predicate WakeInv(w: Waits, queued: nat, shuttingDown: bool) {
    && (w.getAsleep > 0 ==> !shuttingDown && queued <= w.getWoken)
    && (w.checking + w.deciding + w.waiting + w.drainAsleep + w.drainWoken > 0 ==> shuttingDown)
  }

  /** A signal, with an item put on the queue or without. */
  lemma SignalKeepsWakeInv(w: Waits, queued: nat, down: bool, wake: Wake)
    requires WakeInv(w, queued, down) && CanWake(w, wake)
    ensures WakeInv(Signalled(w, wake), queued, down) && WakeInv(Signalled(w, wake), queued + 1, down)
  {
  }

  lemma GetKeepsWakeInv(w: Waits, queued: nat, down: bool, arriving: bool)
    requires WakeInv(w, queued, down) && GetterRuns(w, arriving)
    ensures queued > 0 ==> WakeInv(GetterLeft(w, arriving), queued - 1, down)
    ensures queued == 0 && down ==> WakeInv(GetterLeft(w, arriving), 0, down)
    ensures queued == 0 && !down ==> WakeInv(GetterSlept(w, arriving), 0, down)
  {
  }

  lemma BroadcastKeepsWakeInv(w: Waits, queued: nat, down: bool)
    requires WakeInv(w, queued, down)
    ensures WakeInv(Broadcasted(w), queued, true)
  {
  }

  lemma DrainKeepsWakeInv(w: Waits, queued: nat, down: bool, step: DrainStep, busy: bool, drain: bool)
    requires WakeInv(w, queued, down) && DrainEnabled(w, step)
    ensures WakeInv(DrainStepped(w, step, busy, drain), queued, down)
  {
  }
}
