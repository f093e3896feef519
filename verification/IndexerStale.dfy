/**
  Exactly when a pending key can be lost: when some token earlier than its entry is on its way and not due yet, or
  sits in the heap where the loop may still file the entry's own token under it.
 */
module IndexerStale {
  import opened IndexerQueue
  import opened WaitingLoop
  import opened Waiters
  import opened Callers
  import opened IndexerSystem
  import opened IndexerRuns
  import opened IndexerTokens

  /** The key's token is in the heap, and the loop may file another before it fires this one. */
  predicate Exposed<K(==)>(l: Loop<K>, key: K) {
    && key in l.heap
    && (l.pc.Select? || l.pc.Draining? || l.pc.Handling? || (l.pc.Firing? && l.pc.now < l.heap[key]))
  }

  /** The loop has a token earlier than `readyAt` that will swallow, or be in the heap to swallow, one for `readyAt`. */
  ghost predicate LoopStale<K(!new)>(l: Loop<K>, clock: int, key: K, readyAt: int) {
    || (exists r :: clock < r < readyAt && Holds(l, Token(key, r)))
    || (Exposed(l, key) && l.heap[key] < readyAt)
  }

  predicate WithCallers<I, K(==)>(s: Sys<I, K>, tok: Token<K>) {
    tok in s.deciding || tok in s.pushing || tok in s.sending
  }

  ghost predicate CallersStale<I, K(!new)>(s: Sys<I, K>, key: K, readyAt: int) {
    exists r :: s.clock < r < readyAt && WithCallers(s, Token(key, r))
  }

  ghost predicate Stale<I, K(!new)>(s: Sys<I, K>, key: K) {
    && key in s.core.pending && s.clock < s.core.pending[key].readyAt
    && (|| CallersStale(s, key, s.core.pending[key].readyAt)
        || LoopStale(s.loop, s.clock, key, s.core.pending[key].readyAt))
  }

  // ----- Without a stale token the one that is needed stays on its way -----

  /** A step of the loop keeps a token it does not hand over, unless a filing favours an earlier one. */
  lemma LoopKeepsToken<K(!new)>(l: Loop<K>, e: LoopEvent<K>, clock: int, down: bool, stopped: bool, tok: Token<K>)
    requires LoopEnabled(l, e, clock, down, stopped) && Holds(l, tok)
    requires !(e == Fire(tok.data) && l.heap[tok.data] == tok.readyAt) && !(e.Deliver? && l.pc.tok == tok)
    requires e.Keep? && l.pc.tok.data == tok.data && tok.data in l.heap ==>
      !(l.pc.tok == tok && l.heap[tok.data] < tok.readyAt) && !(l.pc.tok.readyAt < l.heap[tok.data] == tok.readyAt)
    ensures Holds(LoopAfter(l, e, clock), tok)
  {
    if tok in l.ch && e.Receive? {
      assert l.ch == [l.ch[0]] + l.ch[1..];
    }
  }

  lemma LoopStepKeepsNeeded<I(!new), K(!new)>(ops: Ops<I, K>, s: Sys<I, K>, e: Event<I, K>, key: K)
    requires SysInv(ops, s) && Enabled(ops, s, e) && e.LoopStep? && !s.core.shuttingDown && key in s.core.pending
    requires key !in After(ops, s, e).core.dirty && !Stale(s, key)
    requires Holds(s.loop, Token(key, s.core.pending[key].readyAt))
    ensures Holds(After(ops, s, e).loop, Token(key, s.core.pending[key].readyAt))
  {
    var tok := Token(key, s.core.pending[key].readyAt);
    assert !(Pushes(s, e, key) && tok.readyAt <= s.clock) by {
      if Pushes(s, e, key) && tok.readyAt <= s.clock {
        DuePushMarks(ops, s, e, key);
      }
    }
    assert e.e.Keep? ==> Holds(s.loop, s.loop.pc.tok);
    LoopKeepsToken(s.loop, e.e, s.clock, s.core.shuttingDown, s.stop.Closed?, tok);
  }

  lemma PushKeepsNeeded<I(!new), K(!new)>(ops: Ops<I, K>, s: Sys<I, K>, e: Event<I, K>, key: K)
    requires PushingDue(s) && Enabled(ops, s, e) && e.Push? && !s.core.shuttingDown && key in s.core.pending
    requires key !in After(ops, s, e).core.dirty && HasToken(s, Token(key, s.core.pending[key].readyAt))
    ensures HasToken(After(ops, s, e), Token(key, s.core.pending[key].readyAt))
  {
    var tok := Token(key, s.core.pending[key].readyAt);
    WithoutKeeps(s.pushing, e.i, tok);
    assert s.pushing[e.i] != tok by {
      if s.pushing[e.i] == tok {
        DuePushMarks(ops, s, e, key);
      }
    }
  }

  lemma OthersKeepToken<I(!new), K(!new)>(ops: Ops<I, K>, s: Sys<I, K>, e: Event<I, K>, tok: Token<K>)
    requires SysInv(ops, s) && Enabled(ops, s, e) && !s.core.shuttingDown && HasToken(s, tok) && !e.Push?
    requires !(e.LoopStep? && Holds(s.loop, tok))
    ensures HasToken(After(ops, s, e), tok)
  {
    match e
    case Decide(i) => WithoutKeeps(s.deciding, i, tok);
    case Send(i) =>
      WithoutKeeps(s.sending, i, tok);
      assert After(ops, s, e).loop.ch[|s.loop.ch|] == s.sending[i];
    case _ =>
  }

  lemma NeededStays<I(!new), K(!new)>(ops: Ops<I, K>, s: Sys<I, K>, e: Event<I, K>, key: K)
    requires SysInv(ops, s) && PushingDue(s) && Enabled(ops, s, e) && !s.core.shuttingDown && key in s.core.pending
    requires key !in After(ops, s, e).core.dirty && !Stale(s, key)
    requires HasToken(s, Token(key, s.core.pending[key].readyAt))
    ensures HasToken(After(ops, s, e), Token(key, s.core.pending[key].readyAt))
  {
    var tok := Token(key, s.core.pending[key].readyAt);
    if e.Push? {
      PushKeepsNeeded(ops, s, e, key);
    } else if e.LoopStep? && Holds(s.loop, tok) {
      LoopStepKeepsNeeded(ops, s, e, key);
    } else {
      OthersKeepToken(ops, s, e, tok);
    }
  }

  /** Where the loop has a stale token after a step, it had one before, or the token is new. */
  lemma LoopStaleComesFrom<K(!new)>(
    l: Loop<K>, e: LoopEvent<K>, clock: int, down: bool, stopped: bool, key: K, readyAt: int)
    requires LoopEnabled(l, e, clock, down, stopped) && clock < readyAt && LoopStale(LoopAfter(l, e, clock), clock, key, readyAt)
    ensures LoopStale(l, clock, key, readyAt)
  {
    var l' := LoopAfter(l, e, clock);
    if r :| clock < r < readyAt && Holds(l', Token(key, r)) {
      StepHoldsNothingNew(l, e, clock, down, stopped, Token(key, r));
    } else {
      assert !Holds(l', Token(key, l'.heap[key])) || l'.heap[key] <= clock;
    }
  }

  lemma NotDueComesFrom<I(!new), K(!new)>(ops: Ops<I, K>, s: Sys<I, K>, e: Event<I, K>, key: K, r: int)
    requires SysInv(ops, s) && Enabled(ops, s, e) && key in s.core.pending && key in After(ops, s, e).core.pending
    requires After(ops, s, e).clock < r < After(ops, s, e).core.pending[key].readyAt && HasToken(After(ops, s, e), Token(key, r))
    ensures Stale(s, key)
  {
    StepOnPending(ops, s, e, key);
    ClockMovesOn(ops, s, e);
    assert HasToken(s, Token(key, r)) by {
      if !HasToken(s, Token(key, r)) {
        StepMakesToken(ops, s, e, Token(key, r));
      }
    }
    assert WithCallers(s, Token(key, r)) || Holds(s.loop, Token(key, r));
  }

  lemma OtherStepsLeaveHeap<I(!new), K(!new)>(ops: Ops<I, K>, s: Sys<I, K>, e: Event<I, K>)
    requires Enabled(ops, s, e) && !e.LoopStep?
    ensures After(ops, s, e).loop.pc == s.loop.pc && After(ops, s, e).loop.heap == s.loop.heap
  {
  }

  lemma LoopStepIsLoopStep<I(!new), K(!new)>(ops: Ops<I, K>, s: Sys<I, K>, e: Event<I, K>)
    requires Enabled(ops, s, e) && e.LoopStep?
    ensures After(ops, s, e).loop == LoopAfter(s.loop, e.e, s.clock) && After(ops, s, e).clock == s.clock
  {
  }

  lemma ExposedComesFrom<I(!new), K(!new)>(ops: Ops<I, K>, s: Sys<I, K>, e: Event<I, K>, key: K, readyAt: int)
    requires Enabled(ops, s, e) && LoopStale(After(ops, s, e).loop, After(ops, s, e).clock, key, readyAt)
    requires After(ops, s, e).clock < readyAt
    requires forall r :: After(ops, s, e).clock < r < readyAt ==> !HasToken(After(ops, s, e), Token(key, r))
    ensures LoopStale(s.loop, s.clock, key, readyAt)
  {
    if e.LoopStep? {
      LoopStepIsLoopStep(ops, s, e);
      LoopStaleComesFrom(s.loop, e.e, s.clock, s.core.shuttingDown, s.stop.Closed?, key, readyAt);
    } else {
      OtherStepsLeaveHeap(ops, s, e);
    }
  }

  lemma StaleForLater<I(!new), K(!new)>(s: Sys<I, K>, key: K, readyAt: int)
    requires key in s.core.pending && s.clock < readyAt <= s.core.pending[key].readyAt && LoopStale(s.loop, s.clock, key, readyAt)
    ensures Stale(s, key)
  {
  }

  /** Every step is open here, offers and the clock included: none makes a token stale. */
  lemma StaleComesFrom<I(!new), K(!new)>(ops: Ops<I, K>, s: Sys<I, K>, e: Event<I, K>, s': Sys<I, K>, key: K)
    requires SysInv(ops, s) && Enabled(ops, s, e) && s' == After(ops, s, e) && key in s.core.pending && Stale(s', key)
    ensures Stale(s, key)
  {
    var readyAt := s'.core.pending[key].readyAt;
    if r :| s'.clock < r < readyAt && HasToken(s', Token(key, r)) {
      NotDueComesFrom(ops, s, e, key, r);
    } else {
      StepOnPending(ops, s, e, key);
      ClockMovesOn(ops, s, e);
      ExposedComesFrom(ops, s, e, key, readyAt);
      StaleForLater(s, key, readyAt);
    }
  }

  /** The token the key needs is on its way, and nothing will get in its way. */
  ghost predicate Covered<I, K(!new)>(s: Sys<I, K>, key: K) {
    key in s.core.pending && HasToken(s, Token(key, s.core.pending[key].readyAt)) && !Stale(s, key)
  }

  lemma StepKeepsCovered<I(!new), K(!new)>(ops: Ops<I, K>, s: Sys<I, K>, e: Event<I, K>, key: K)
    requires SysInv(ops, s) && PushingDue(s) && Enabled(ops, s, e) && !s.core.shuttingDown && Covered(s, key)
    requires key in After(ops, s, e).core.pending && key !in After(ops, s, e).core.dirty
    ensures Covered(After(ops, s, e), key)
  {
    var s' := After(ops, s, e);
    StepOnPending(ops, s, e, key);
    if s'.core.pending[key].readyAt == s.core.pending[key].readyAt {
      NeededStays(ops, s, e, key);
    } else {
      OfferMakesToken(ops, s, e, key);
    }
    assert !Stale(s', key) by {
      if Stale(s', key) {
        StaleComesFrom(ops, s, e, s', key);
      }
    }
  }

  // ----- With a stale token the key can be lost -----

  /** The open queue holds the key, and nobody has marked it. */
  ghost predicate Unmarked<I, K(!new)>(s: Sys<I, K>, key: K) {
    !s.core.shuttingDown && key in s.core.pending && key !in s.core.dirty
  }

  ghost predicate Ready<I, K(!new)>(ops: Ops<I, K>, s: Sys<I, K>, key: K) {
    SysInv(ops, s) && PushingDue(s) && !s.loop.pc.Exited? && Unmarked(s, key)
  }

  /** The steps that carry on what has begun, at a standing clock. */
  predicate CarriesOn<I, K>(e: Event<I, K>) {
    e.Decide? || e.Push? || e.Send? || e.LoopStep?
  }

  lemma CarryingOnChangesNothing<I(!new), K(!new)>(ops: Ops<I, K>, s: Sys<I, K>, e: Event<I, K>, key: K)
    requires Ready(ops, s, key) && Enabled(ops, s, e) && CarriesOn(e) && s.clock < s.core.pending[key].readyAt
    ensures Ready(ops, After(ops, s, e), key)
    ensures After(ops, s, e).clock == s.clock && After(ops, s, e).core.pending == s.core.pending
  {
    StepKeepsInv(ops, s, e);
    StepKeepsPushingDue(ops, s, e);
  }

  lemma LoopKeepsStale<K(!new)>(l: Loop<K>, e: LoopEvent<K>, clock: int, key: K, readyAt: int)
    requires LoopEnabled(l, e, clock, false, false) && !e.Wake? && !e.Drained? && LoopInv(l, clock)
    requires LoopStale(l, clock, key, readyAt)
    ensures LoopStale(LoopAfter(l, e, clock), clock, key, readyAt)
  {
    var l' := LoopAfter(l, e, clock);
    if r :| clock < r < readyAt && Holds(l, Token(key, r)) {
      if e.Receive? {
        assert l.ch == [l.ch[0]] + l.ch[1..];
      }
      assert Holds(l', Token(key, r)) || Exposed(l', key);
    }
  }

  lemma CallersKeepStale<I(!new), K(!new)>(ops: Ops<I, K>, s: Sys<I, K>, e: Event<I, K>, key: K, r: int)
    requires PushingDue(s) && Enabled(ops, s, e) && (e.Decide? || e.Push? || e.Send?) && s.clock < r
    requires WithCallers(s, Token(key, r))
    ensures WithCallers(After(ops, s, e), Token(key, r)) || Holds(After(ops, s, e).loop, Token(key, r))
  {
    var s', tok := After(ops, s, e), Token(key, r);
    match e
    case Decide(i) => WithoutKeeps(s.deciding, i, tok);
    case Push(i, _) => WithoutKeeps(s.pushing, i, tok);
    case Send(i) =>
      WithoutKeeps(s.sending, i, tok);
      assert s'.loop.ch[|s.loop.ch|] == s.sending[i];
    case _ =>
  }

  lemma LoopStaleInLargerChannel<K(!new)>(l: Loop<K>, ch: seq<Token<K>>, clock: int, key: K, readyAt: int)
    requires LoopStale(l, clock, key, readyAt)
    ensures LoopStale(l.(ch := l.ch + ch), clock, key, readyAt)
  {
    if r :| clock < r < readyAt && Holds(l, Token(key, r)) {
      assert Holds(l.(ch := l.ch + ch), Token(key, r));
    }
  }

  lemma CarryingOnKeepsStale<I(!new), K(!new)>(ops: Ops<I, K>, s: Sys<I, K>, e: Event<I, K>, key: K)
    requires Ready(ops, s, key) && Stale(s, key) && Enabled(ops, s, e) && CarriesOn(e)
    requires e.LoopStep? ==> !e.e.Wake? && !e.e.Drained?
    ensures Stale(After(ops, s, e), key)
  {
    var s', readyAt := After(ops, s, e), s.core.pending[key].readyAt;
    CarryingOnChangesNothing(ops, s, e, key);
    if LoopStale(s.loop, s.clock, key, readyAt) {
      if e.LoopStep? {
        LoopKeepsStale(s.loop, e.e, s.clock, key, readyAt);
      } else if e.Send? {
        LoopStaleInLargerChannel(s.loop, [s.sending[e.i]], s.clock, key, readyAt);
      }
    } else if !e.LoopStep? {
      var r :| s.clock < r < readyAt && WithCallers(s, Token(key, r));
      CallersKeepStale(ops, s, e, key, r);
    } else {
      var r :| s.clock < r < readyAt && WithCallers(s, Token(key, r));
      assert WithCallers(s', Token(key, r));
    }
  }

  /** How far the loop is from receiving. */
  function Rank<K>(pc: PC<K>): nat {
    match pc
    case Top => 3
    case Timing => 2
    case Firing(_) => 1
    case _ => 0
  }

  /** The loop moves on to where it can receive. */
  lemma LoopTurns<K(!new)>(l: Loop<K>, clock: int) returns (e: LoopEvent<K>)
    requires Rank(l.pc) > 0
    ensures LoopEnabled(l, e, clock, false, false) && (e.Begin? || e.ReadClock? || e.Fire? || e.FireDone?)
    ensures var l' := LoopAfter(l, e, clock);
            l'.ch == l.ch && !l'.pc.Handling? && (Rank(l'.pc) < Rank(l.pc) || (l'.pc == l.pc && |l'.heap| < |l.heap|))
  {
    match l.pc
    case Top => e := Begin;
    case Timing => e := ReadClock;
    case Firing(now) =>
      e := FireDone;
      if exists y :: y in l.heap && l.heap[y] <= now {
        var y :| y in l.heap && l.heap[y] <= now;
        var x := SomeFirst(l.heap);
        e := Fire(x);
        assert (l.heap - {x}).Keys == l.heap.Keys - {x};
      }
  }

  /** Steps still needed to bring all tokens to the heap. */
  function Handed<I, K>(s: Sys<I, K>): nat {
    4 * |s.deciding| + |s.pushing| + 3 * |s.sending| + 2 * |s.loop.ch| + if s.loop.pc.Handling? then 1 else 0
  }

  ghost predicate Closer<I, K>(s': Sys<I, K>, s: Sys<I, K>) {
    || Handed(s') < Handed(s)
    || (Handed(s') == Handed(s) && Rank(s'.loop.pc) < Rank(s.loop.pc))
    || (Handed(s') == Handed(s) && Rank(s'.loop.pc) == Rank(s.loop.pc) && |s'.loop.heap| < |s.loop.heap|)
  }

  /** The callers' part: they decide, push and send. */
  lemma CallersBringCloser<I(!new), K(!new)>(ops: Ops<I, K>, s: Sys<I, K>) returns (e: Event<I, K>)
    requires s.deciding != [] || s.pushing != [] || (s.sending != [] && |s.loop.ch| < CHANNEL_CAP)
    ensures Enabled(ops, s, e) && CarriesOn(e) && !e.LoopStep? && Handed(After(ops, s, e)) < Handed(s)
  {
    e := if s.deciding != [] then Decide(0) else if s.pushing != [] then Push(0, SomeWake(s.w)) else Send(0);
  }

  /** The loop's part: it files or hands over what it holds, receives, or moves on to where it can. */
  lemma LoopBringsCloser<K(!new)>(l: Loop<K>, clock: int) returns (le: LoopEvent<K>)
    requires !l.pc.Exited? && (l.pc.Handling? || l.ch != [])
    ensures LoopEnabled(l, le, clock, false, false) && !le.Wake? && !le.Drained?
    ensures var l' := LoopAfter(l, le, clock);
            var held, held' := if l.pc.Handling? then 1 else 0, if l'.pc.Handling? then 1 else 0;
            || 2 * |l'.ch| + held' < 2 * |l.ch| + held
            || (l'.ch == l.ch && held' == held
                && (Rank(l'.pc) < Rank(l.pc) || (Rank(l'.pc) == Rank(l.pc) && |l'.heap| < |l.heap|)))
  {
    if l.pc.Handling? {
      le := if clock < l.pc.tok.readyAt then Keep else Deliver;
    } else if Rank(l.pc) == 0 {
      le := Receive;
    } else {
      le := LoopTurns(l, clock);
    }
  }

  /** While a token is outside the heap some step brings one closer to it. */
  lemma BringsCloser<I(!new), K(!new)>(ops: Ops<I, K>, s: Sys<I, K>, key: K) returns (e: Event<I, K>)
    requires Ready(ops, s, key) && Handed(s) > 0
    ensures Enabled(ops, s, e) && CarriesOn(e) && (e.LoopStep? ==> !e.e.Wake? && !e.e.Drained?)
    ensures Closer(After(ops, s, e), s)
  {
    if s.deciding != [] || s.pushing != [] || (s.sending != [] && |s.loop.ch| < CHANNEL_CAP) {
      e := CallersBringCloser(ops, s);
    } else {
      var le := LoopBringsCloser(s.loop, s.clock);
      e := LoopStep(le, SomeWake(s.w));
    }
  }

  /** A run from `s` in all of which the key stays unmarked. */
  ghost predicate Through<I(!new), K(!new)>(ops: Ops<I, K>, s: Sys<I, K>, ss: seq<Sys<I, K>>, es: seq<Event<I, K>>, key: K) {
    IsRunFrom(ops, s, ss, es) && forall m {:trigger ss[m]} :: 0 <= m < |ss| ==> Unmarked(ss[m], key)
  }

  lemma OneStepBefore<I(!new), K(!new)>(
    ops: Ops<I, K>, s: Sys<I, K>, e: Event<I, K>, ss: seq<Sys<I, K>>, es: seq<Event<I, K>>, key: K)
    requires Enabled(ops, s, e) && Unmarked(s, key) && Through(ops, After(ops, s, e), ss, es, key)
    ensures Through(ops, s, [s] + ss, [e] + es, key) && ([s] + ss)[|[e] + es|] == ss[|es|]
  {
    forall i | 0 <= i < |[e] + es|
      ensures Enabled(ops, ([s] + ss)[i], ([e] + es)[i])
           && ([s] + ss)[i + 1] == After(ops, ([s] + ss)[i], ([e] + es)[i])
    {
      if i > 0 {
        assert es[i - 1] == ([e] + es)[i];
      }
    }
  }

  /** All tokens are in the heap, that of the key earlier than its entry, which is not due. */
  ghost predicate Poised<I, K(!new)>(ops: Ops<I, K>, s: Sys<I, K>, key: K) {
    && Ready(ops, s, key) && Handed(s) == 0 && key in s.loop.heap
    && s.loop.heap[key] < s.core.pending[key].readyAt && s.clock < s.core.pending[key].readyAt
  }

  /** How far the loop is from firing the key. */
  function Distance<I, K(==)>(s: Sys<I, K>, key: K): nat
    requires key in s.loop.heap
  {
    match s.loop.pc
    case Firing(now) => if s.loop.heap[key] <= now then 0 else 5
    case Timing => if s.loop.heap[key] <= s.clock then 1 else 2
    case Top => 3
    case _ => 4
  }

  ghost predicate Nearer<I, K(!new)>(s': Sys<I, K>, s: Sys<I, K>, key: K)
    requires key in s.loop.heap && key in s'.loop.heap
  {
    Distance(s', key) < Distance(s, key) || (Distance(s', key) == Distance(s, key) && |s'.loop.heap| < |s.loop.heap|)
  }

  lemma TickStaysPoised<I(!new), K(!new)>(ops: Ops<I, K>, s: Sys<I, K>, key: K)
    requires Poised(ops, s, key) && s.loop.pc.Timing? && s.clock < s.loop.heap[key]
    ensures var s' := s.(clock := s.loop.heap[key]); Poised(ops, s', key) && Nearer(s', s, key)
  {
  }

  /** The loop comes round when the key's token is due. */
  lemma ComesRound<I(!new), K(!new)>(ops: Ops<I, K>, s: Sys<I, K>, key: K) returns (e: Event<I, K>)
    requires Poised(ops, s, key) && !s.loop.pc.Firing?
    ensures Enabled(ops, s, e) && Poised(ops, After(ops, s, e), key) && Nearer(After(ops, s, e), s, key)
  {
    if s.loop.pc.Timing? && s.clock < s.loop.heap[key] {
      e := Tick(s.loop.heap[key]);
      TickStaysPoised(ops, s, key);
    } else {
      var le := match s.loop.pc
        case Top => Begin
        case Timing => ReadClock
        case Draining => Drained
        case _ => LoopEvent.Wake;
      e := LoopStep(le, SomeWake(s.w));
      CarryingOnChangesNothing(ops, s, e, key);
    }
  }

  /** The loop fires what is due, until it fires the key's token, which finds the entry not due and is the last. */
  lemma FiresNext<I(!new), K(!new)>(ops: Ops<I, K>, s: Sys<I, K>, key: K) returns (e: Event<I, K>)
    requires Poised(ops, s, key) && s.loop.pc.Firing?
    ensures Enabled(ops, s, e)
    ensures var s' := After(ops, s, e); if key in s'.loop.heap then Poised(ops, s', key) && Nearer(s', s, key) else Lost(s', key)
  {
    var le := LoopTurns(s.loop, s.clock);
    e := LoopStep(le, SomeWake(s.w));
    CarryingOnChangesNothing(ops, s, e, key);
  }

  lemma {:induction false} Fires<I(!new), K(!new)>(ops: Ops<I, K>, s: Sys<I, K>, key: K)
    returns (ss: seq<Sys<I, K>>, es: seq<Event<I, K>>)
    requires Poised(ops, s, key)
    ensures Through(ops, s, ss, es, key) && Lost(ss[|es|], key)
    decreases Distance(s, key), |s.loop.heap|
  {
    var e;
    if s.loop.pc.Firing? {
      e := FiresNext(ops, s, key);
    } else {
      e := ComesRound(ops, s, key);
    }
    var s' := After(ops, s, e);
    if key in s'.loop.heap {
      ss, es := Fires(ops, s', key);
    } else {
      ss, es := [s'], [];
    }
    OneStepBefore(ops, s, e, ss, es, key);
    ss, es := [s] + ss, [e] + es;
  }

  lemma {:induction false} StaleLosesKey<I(!new), K(!new)>(ops: Ops<I, K>, s: Sys<I, K>, key: K)
    returns (ss: seq<Sys<I, K>>, es: seq<Event<I, K>>)
    requires Ready(ops, s, key) && Stale(s, key)
    ensures Through(ops, s, ss, es, key) && Lost(ss[|es|], key)
    decreases Handed(s), Rank(s.loop.pc), |s.loop.heap|
  {
    if Handed(s) == 0 {
      ss, es := Fires(ops, s, key);
    } else {
      var e := BringsCloser(ops, s, key);
      CarryingOnChangesNothing(ops, s, e, key);
      CarryingOnKeepsStale(ops, s, e, key);
      ss, es := StaleLosesKey(ops, After(ops, s, e), key);
      OneStepBefore(ops, s, e, ss, es, key);
      ss, es := [s] + ss, [e] + es;
    }
  }

  // ----- Exactly when -----

  /** From `s` on, whatever happens, the key is not lost while it stays pending and unmarked in the open queue. */
  ghost predicate SafeFrom<I(!new), K(!new)>(ops: Ops<I, K>, s: Sys<I, K>, key: K) {
    forall ss: seq<Sys<I, K>>, es :: Through(ops, s, ss, es, key) ==> !Lost(ss[|es|], key)
  }

  lemma {:induction false} StaysCovered<I(!new), K(!new)>(
    ops: Ops<I, K>, s: Sys<I, K>, ss: seq<Sys<I, K>>, es: seq<Event<I, K>>, key: K, n: nat)
    requires SysInv(ops, s) && PushingDue(s) && Covered(s, key) && Through(ops, s, ss, es, key) && n <= |es|
    ensures SysInv(ops, ss[n]) && PushingDue(ss[n]) && Covered(ss[n], key)
  {
    if n > 0 {
      StaysCovered(ops, s, ss, es, key, n - 1);
      var e := es[n - 1];
      assert Unmarked(ss[n - 1], key) && Unmarked(ss[n], key);
      StepKeepsInv(ops, ss[n - 1], e);
      StepKeepsPushingDue(ops, ss[n - 1], e);
      StepKeepsCovered(ops, ss[n - 1], e, key);
    }
  }

  lemma SafeAtExactlyWithoutStale<I(!new), K(!new)>(ops: Ops<I, K>, s: Sys<I, K>, key: K)
    requires Ready(ops, s, key) && HasToken(s, Token(key, s.core.pending[key].readyAt))
    ensures SafeFrom(ops, s, key) <==> !Stale(s, key)
  {
    if Stale(s, key) {
      var ss, es := StaleLosesKey(ops, s, key);
    } else {
      forall ss: seq<Sys<I, K>>, es | Through(ops, s, ss, es, key)
        ensures !Lost(ss[|es|], key)
      {
        StaysCovered(ops, s, ss, es, key, |es|);
      }
    }
  }

  lemma {:induction false} LoopLives<I(!new), K(!new)>(ops: Ops<I, K>, ss: seq<Sys<I, K>>, es: seq<Event<I, K>>, n: nat)
    requires IsRun(ops, ss, es) && n <= |es|
    ensures ss[n].loop.pc.Exited? ==> ss[n].core.shuttingDown
  {
    if n > 0 {
      LoopLives(ops, ss, es, n - 1);
      RunKeepsInv(ops, ss, es, n - 1);
      StepAt(ops, ss, es, n - 1);
    }
  }

  /**
    In every reachable state a pending, unmarked key whose token is on its way is safe exactly when no token is
    stale: none earlier than the entry is still to come due, and none sits in the heap where the key's own may be
    filed under it.
   */
  lemma SafeExactlyWithoutStale<I(!new), K(!new)>(
    ops: Ops<I, K>, ss: seq<Sys<I, K>>, es: seq<Event<I, K>>, key: K, n: nat)
    requires IsRun(ops, ss, es) && n <= |es| && Unmarked(ss[n], key)
    requires HasToken(ss[n], Token(key, ss[n].core.pending[key].readyAt))
    ensures SafeFrom(ops, ss[n], key) <==> !Stale(ss[n], key)
  {
    RunKeepsInv(ops, ss, es, n);
    RunPushingDue(ops, ss, es, n);
    LoopLives(ops, ss, es, n);
    SafeAtExactlyWithoutStale(ops, ss[n], key);
  }
}
