/**
  Tokens: each pending key waits for a token (a key and a time) to come around and push it. When the
  tokens on their way always include the one the key needs, and when they do not.
 */
module IndexerTokens {
  import opened IndexerQueue
  import opened WaitingLoop
  import opened Callers
  import opened IndexerSystem
  import opened IndexerRuns

  /** A token is on its way: with a caller, or with the loop. */
  predicate HasToken<I, K(==)>(s: Sys<I, K>, tok: Token<K>) {
    tok in s.deciding || tok in s.pushing || tok in s.sending || Holds(s.loop, tok)
  }

  /** Callers that push directly hold tokens whose time has come. */
  ghost predicate PushingDue<I, K>(s: Sys<I, K>) {
    forall i :: 0 <= i < |s.pushing| ==> s.pushing[i].readyAt <= s.clock
  }

  lemma StepKeepsPushingDue<I(!new), K(!new)>(ops: Ops<I, K>, s: Sys<I, K>, e: Event<I, K>)
    requires Enabled(ops, s, e) && PushingDue(s)
    ensures PushingDue(After(ops, s, e))
  {
  }

  lemma {:induction false} RunPushingDue<I(!new), K(!new)>(ops: Ops<I, K>, ss: seq<Sys<I, K>>, es: seq<Event<I, K>>, n: nat)
    requires IsRun(ops, ss, es) && n <= |es|
    ensures PushingDue(ss[n])
  {
    if n > 0 {
      RunPushingDue(ops, ss, es, n - 1);
      StepAt(ops, ss, es, n - 1);
      StepKeepsPushingDue(ops, ss[n - 1], es[n - 1]);
    }
  }

  /** No token for the key is earlier than its entry, so any that fires finds the entry due. */
  ghost predicate NoneEarlier<I, K(!new)>(s: Sys<I, K>, key: K, readyAt: int) {
    forall tok: Token<K> :: tok.data == key && HasToken(s, tok) ==> readyAt <= tok.readyAt
  }

  /** The token the key needs is on its way, and no earlier one is. */
  ghost predicate Tight<I, K(!new)>(s: Sys<I, K>, key: K) {
    key in s.core.pending ==>
      HasToken(s, Token(key, s.core.pending[key].readyAt)) && NoneEarlier(s, key, s.core.pending[key].readyAt)
  }

  /** The step pushes `key`: a caller does, or the loop hands a token over. */
  predicate Pushes<I, K(==)>(s: Sys<I, K>, e: Event<I, K>, key: K) {
    (e.Push? && e.i < |s.pushing| && s.pushing[e.i].data == key) || (e.LoopStep? && Delivers(s.loop, e.e, key))
  }

  lemma PushUsesToken<I(!new), K(!new)>(ops: Ops<I, K>, s: Sys<I, K>, e: Event<I, K>, key: K)
    requires Enabled(ops, s, e) && Pushes(s, e, key)
    ensures exists r :: HasToken(s, Token(key, r))
  {
    var r := if e.Push? then s.pushing[e.i].readyAt else if e.e.Fire? then s.loop.heap[key] else s.loop.pc.tok.readyAt;
    assert HasToken(s, Token(key, r));
  }

  lemma DuePushMarks<I(!new), K(!new)>(ops: Ops<I, K>, s: Sys<I, K>, e: Event<I, K>, key: K)
    requires Enabled(ops, s, e) && Pushes(s, e, key)
    requires !s.core.shuttingDown && key in s.core.pending && s.core.pending[key].readyAt <= s.clock
    ensures key in After(ops, s, e).core.dirty
  {
    if e.LoopStep? {
      assert LoopKey(s.loop, e.e) == Some(key);
    }
  }

  /** A marked key stays marked until Get takes it. */
  lemma StepKeepsDirty<I(!new), K(!new)>(ops: Ops<I, K>, s: Sys<I, K>, e: Event<I, K>, key: K)
    requires Enabled(ops, s, e) && key in s.core.dirty && key in After(ops, s, e).core.pending
    ensures key in After(ops, s, e).core.dirty
  {
  }

  /** Whenever a token fires for a key with none earlier, the key becomes dirty. */
  lemma FiringMarks<I(!new), K(!new)>(ops: Ops<I, K>, s: Sys<I, K>, e: Event<I, K>, key: K)
    requires SysInv(ops, s) && PushingDue(s) && Enabled(ops, s, e) && Pushes(s, e, key)
    requires !s.core.shuttingDown && key in s.core.pending && NoneEarlier(s, key, s.core.pending[key].readyAt)
    ensures key in After(ops, s, e).core.dirty
  {
    if e.Push? {
      assert HasToken(s, s.pushing[e.i]);
    } else {
      DeliveryIsDue(s.loop, e.e, s.clock, s.core.shuttingDown, s.stop.Closed?, key);
      var r :| r <= s.clock && Holds(s.loop, Token(key, r));
      assert HasToken(s, Token(key, r));
    }
    DuePushMarks(ops, s, e, key);
  }

  /** A step that does not push the key keeps its tokens, except that the loop may keep an earlier one instead. */
  lemma StepKeepsToken<I(!new), K(!new)>(ops: Ops<I, K>, s: Sys<I, K>, e: Event<I, K>, tok: Token<K>)
    requires SysInv(ops, s) && Enabled(ops, s, e) && !s.core.shuttingDown && HasToken(s, tok) && !Pushes(s, e, tok.data)
    ensures exists r :: r <= tok.readyAt && HasToken(After(ops, s, e), Token(tok.data, r))
  {
    var s' := After(ops, s, e);
    if e.LoopStep? && Holds(s.loop, tok) {
      assert Covers(s.loop, tok.data, tok.readyAt);
      StepKeepsCover(s.loop, e.e, s.clock, s.core.shuttingDown, s.stop.Closed?, tok.data, tok.readyAt);
      var r :| r <= tok.readyAt && Holds(s'.loop, Token(tok.data, r));
      assert HasToken(s', Token(tok.data, r));
    } else {
      assert tok == Token(tok.data, tok.readyAt);
      match e
      case Decide(i) => WithoutKeeps(s.deciding, i, tok);
      case Push(i, _) => WithoutKeeps(s.pushing, i, tok);
      case Send(i) =>
        WithoutKeeps(s.sending, i, tok);
        assert s'.loop.ch[|s.loop.ch|] == s.sending[i];
      case _ =>
      assert HasToken(s', tok);
    }
  }

  /** The only new token is the one an offer makes that brings the key in or forward, and it is for the entry's new time. */
  lemma StepMakesToken<I(!new), K(!new)>(ops: Ops<I, K>, s: Sys<I, K>, e: Event<I, K>, tok: Token<K>)
    requires SysInv(ops, s) && Enabled(ops, s, e) && HasToken(After(ops, s, e), tok) && !HasToken(s, tok)
    ensures Offers(s, e, tok.data) && OfferOf(s, e, tok.data).readyAt == tok.readyAt
    ensures var c := OfferOf(s, e, tok.data); NeedsPush(ops, s.core, c.key, c.item, c.readyAt)
    ensures tok.data in After(ops, s, e).core.pending && After(ops, s, e).core.pending[tok.data].readyAt == tok.readyAt
    ensures tok.data in s.core.pending ==> tok.readyAt < s.core.pending[tok.data].readyAt
  {
    match e
    case Decide(i) => WithoutKeeps(s.deciding, i, tok);
    case Push(i, _) => WithoutKeeps(s.pushing, i, tok);
    case Send(i) => WithoutKeeps(s.sending, i, tok);
    case Abandon(i) => WithoutKeeps(s.sending, i, tok);
    case LoopStep(le, _) =>
      if Holds(After(ops, s, e).loop, tok) {
        StepHoldsNothingNew(s.loop, le, s.clock, s.core.shuttingDown, s.stop.Closed?, tok);
      }
    case _ =>
  }

  // ----- Coverage: with no earlier token left over, the needed token stays on its way -----

  lemma OfferMakesToken<I(!new), K(!new)>(ops: Ops<I, K>, s: Sys<I, K>, e: Event<I, K>, key: K)
    requires Enabled(ops, s, e) && Offers(s, e, key)
    requires var c := OfferOf(s, e, key); NeedsPush(ops, s.core, c.key, c.item, c.readyAt)
    ensures HasToken(After(ops, s, e), Token(key, OfferOf(s, e, key).readyAt))
  {
    var s' := After(ops, s, e);
    assert s'.deciding[|s.deciding|] == Token(key, OfferOf(s, e, key).readyAt);
  }

  lemma CreationIsTight<I(!new), K(!new)>(ops: Ops<I, K>, s: Sys<I, K>, e: Event<I, K>, key: K)
    requires SysInv(ops, s) && Enabled(ops, s, e) && key !in s.core.pending && key in After(ops, s, e).core.pending
    requires NoneEarlier(s, key, After(ops, s, e).core.pending[key].readyAt)
    ensures Tight(After(ops, s, e), key)
  {
    var s' := After(ops, s, e);
    StepOnPending(ops, s, e, key);
    OfferMakesToken(ops, s, e, key);
    forall tok: Token<K> | tok.data == key && HasToken(s', tok)
      ensures s'.core.pending[key].readyAt <= tok.readyAt
    {
      if !HasToken(s, tok) {
        StepMakesToken(ops, s, e, tok);
      }
    }
  }

  lemma StepKeepsNoneEarlier<I(!new), K(!new)>(ops: Ops<I, K>, s: Sys<I, K>, e: Event<I, K>, key: K)
    requires SysInv(ops, s) && Enabled(ops, s, e) && key in s.core.pending && key in After(ops, s, e).core.pending
    requires NoneEarlier(s, key, s.core.pending[key].readyAt)
    ensures NoneEarlier(After(ops, s, e), key, After(ops, s, e).core.pending[key].readyAt)
  {
    var s' := After(ops, s, e);
    StepOnPending(ops, s, e, key);
    forall tok: Token<K> | tok.data == key && HasToken(s', tok)
      ensures s'.core.pending[key].readyAt <= tok.readyAt
    {
      if !HasToken(s, tok) {
        StepMakesToken(ops, s, e, tok);
      }
    }
  }

  lemma StepKeepsTight<I(!new), K(!new)>(ops: Ops<I, K>, s: Sys<I, K>, e: Event<I, K>, key: K)
    requires SysInv(ops, s) && PushingDue(s) && Enabled(ops, s, e) && Tight(s, key) && !s.core.shuttingDown
    requires key in s.core.pending && key in After(ops, s, e).core.pending && key !in After(ops, s, e).core.dirty
    ensures Tight(After(ops, s, e), key)
  {
    var s' := After(ops, s, e);
    var readyAt := s.core.pending[key].readyAt;
    assert !Pushes(s, e, key) by {
      if Pushes(s, e, key) {
        FiringMarks(ops, s, e, key);
      }
    }
    StepOnPending(ops, s, e, key);
    StepKeepsNoneEarlier(ops, s, e, key);
    if s'.core.pending[key].readyAt == readyAt {
      StepKeepsToken(ops, s, e, Token(key, readyAt));
      var r :| r <= readyAt && HasToken(s', Token(key, r));
      assert r == readyAt;
    } else {
      OfferMakesToken(ops, s, e, key);
    }
  }

  lemma RunKeepsTight<I(!new), K(!new)>(ops: Ops<I, K>, ss: seq<Sys<I, K>>, es: seq<Event<I, K>>, key: K, n: nat)
    requires IsRun(ops, ss, es) && n < |es| && !ss[n + 1].core.shuttingDown
    requires key in ss[n + 1].core.pending && key !in ss[n + 1].core.dirty
    requires if key in ss[n].core.pending then Tight(ss[n], key) else NoneEarlier(ss[n], key, ss[n + 1].core.pending[key].readyAt)
    ensures Tight(ss[n + 1], key)
  {
    RunKeepsInv(ops, ss, es, n);
    RunPushingDue(ops, ss, es, n);
    StepAt(ops, ss, es, n);
    if key in ss[n].core.pending {
      StepKeepsTight(ops, ss[n], es[n], key);
    } else {
      CreationIsTight(ops, ss[n], es[n], key);
    }
  }

  lemma StaysOpen<I(!new), K(!new)>(ops: Ops<I, K>, ss: seq<Sys<I, K>>, es: seq<Event<I, K>>, n: nat)
    requires IsRun(ops, ss, es) && n < |es|
    ensures ss[n].core.shuttingDown ==> ss[n + 1].core.shuttingDown
  {
    StepAt(ops, ss, es, n);
  }

  /**
    If no token earlier than the new entry is on its way when the entry is made, then as long as the key is
    pending and not dirty, the token it needs is on its way and no earlier one is, whatever producers race.
   */
  lemma {:induction false} TokenCoverage<I(!new), K(!new)>(
    ops: Ops<I, K>, ss: seq<Sys<I, K>>, es: seq<Event<I, K>>, key: K, i: nat, n: nat)
    requires IsRun(ops, ss, es) && n <= |es| && PendingSince(ss, key, i, n) && !ss[n].core.shuttingDown
    requires forall m :: i < m <= n ==> key !in ss[m].core.dirty
    requires NoneEarlier(ss[i], key, ss[i + 1].core.pending[key].readyAt)
    ensures Tight(ss[n], key)
    decreases n
  {
    StaysOpen(ops, ss, es, n - 1);
    if n > i + 1 {
      TokenCoverage(ops, ss, es, key, i, n - 1);
    }
    RunKeepsTight(ops, ss, es, key, n - 1);
  }

  // ----- Keys are never lost exactly when no delay is positive -----

  /** The open queue holds the key as pending, nobody has marked it, and no token for it is left: nothing will push it. */
  ghost predicate Lost<I, K(!new)>(s: Sys<I, K>, key: K) {
    && key in s.core.pending && key !in s.core.dirty && !s.core.shuttingDown
    && forall r :: !HasToken(s, Token(key, r))
  }

  lemma StaysTokenless<I(!new), K(!new)>(ops: Ops<I, K>, s: Sys<I, K>, e: Event<I, K>, key: K, r: int)
    requires SysInv(ops, s) && Enabled(ops, s, e) && Lost(s, key) && !Offers(s, e, key)
    ensures !HasToken(After(ops, s, e), Token(key, r))
  {
    if HasToken(After(ops, s, e), Token(key, r)) {
      StepMakesToken(ops, s, e, Token(key, r));
    }
  }

  lemma StaysUnmarked<I(!new), K(!new)>(ops: Ops<I, K>, s: Sys<I, K>, e: Event<I, K>, key: K)
    requires SysInv(ops, s) && Enabled(ops, s, e) && Lost(s, key)
    ensures key in After(ops, s, e).core.pending && key !in After(ops, s, e).core.dirty
  {
    assert !Pushes(s, e, key) by {
      if Pushes(s, e, key) {
        PushUsesToken(ops, s, e, key);
      }
    }
    if e.Get? {
      HeadIsPending(ops, s.core);
    }
  }

  /** Only an offer for the key itself can bring a lost key back. */
  lemma LostStaysLost<I(!new), K(!new)>(ops: Ops<I, K>, s: Sys<I, K>, e: Event<I, K>, key: K)
    requires SysInv(ops, s) && Enabled(ops, s, e) && Lost(s, key) && !Offers(s, e, key) && !After(ops, s, e).core.shuttingDown
    ensures Lost(After(ops, s, e), key)
  {
    StaysUnmarked(ops, s, e, key);
    forall r
      ensures !HasToken(After(ops, s, e), Token(key, r))
    {
      StaysTokenless(ops, s, e, key, r);
    }
  }

  /** Callers of AddAfter use only delays in `allowed`; Add, whose delay is zero, is always open. */
  ghost predicate DelaysWithin<I(!new), K(!new)>(es: seq<Event<I, K>>, allowed: int -> bool) {
    forall i :: 0 <= i < |es| && es[i].AddAfter? ==> allowed(es[i].delay)
  }

  ghost predicate NeverLost<I(!new), K(!new)>(ops: Ops<I, K>, allowed: int -> bool) {
    forall ss, es, n: nat, key ::
      IsRun(ops, ss, es) && DelaysWithin(es, allowed) && n <= |es| ==> !Lost(ss[n], key)
  }

  /** Nothing asks for the future: all times are past, and the heap stays empty. */
  ghost predicate AllDue<I, K(!new)>(s: Sys<I, K>) {
    && (forall i :: 0 <= i < |s.offering| ==> s.offering[i].readyAt <= s.clock)
    && (forall tok :: HasToken(s, tok) ==> tok.readyAt <= s.clock)
    && (forall k :: k in s.core.pending ==> s.core.pending[k].readyAt <= s.clock)
    && s.loop.heap == map[]
  }

  /** Each pending key is dirty or has a token on its way. */
  ghost predicate Backed<I, K(!new)>(s: Sys<I, K>) {
    forall k :: k in s.core.pending && k !in s.core.dirty && !s.core.shuttingDown ==> exists r :: HasToken(s, Token(k, r))
  }

  lemma StepKeepsTokensDue<I(!new), K(!new)>(ops: Ops<I, K>, s: Sys<I, K>, e: Event<I, K>, tok: Token<K>)
    requires SysInv(ops, s) && Enabled(ops, s, e) && AllDue(s) && HasToken(After(ops, s, e), tok)
    ensures tok.readyAt <= After(ops, s, e).clock
  {
    if !HasToken(s, tok) {
      StepMakesToken(ops, s, e, tok);
    }
  }

  lemma HeapStaysEmpty<I(!new), K(!new)>(ops: Ops<I, K>, s: Sys<I, K>, e: Event<I, K>)
    requires Enabled(ops, s, e) && AllDue(s)
    ensures After(ops, s, e).loop.heap == map[]
  {
    if e.LoopStep? && e.e.Keep? {
      assert HasToken(s, s.loop.pc.tok);
      assert false;
    }
  }

  lemma OffersStayDue<I(!new), K(!new)>(ops: Ops<I, K>, s: Sys<I, K>, e: Event<I, K>)
    requires Enabled(ops, s, e) && AllDue(s) && (e.AddAfter? ==> e.delay <= 0)
    ensures forall i :: 0 <= i < |After(ops, s, e).offering| ==> After(ops, s, e).offering[i].readyAt <= After(ops, s, e).clock
  {
  }

  lemma ClockMovesOn<I(!new), K(!new)>(ops: Ops<I, K>, s: Sys<I, K>, e: Event<I, K>)
    requires Enabled(ops, s, e)
    ensures s.clock <= After(ops, s, e).clock
  {
  }

  lemma PendingStaysDue<I(!new), K(!new)>(ops: Ops<I, K>, s: Sys<I, K>, e: Event<I, K>, k: K)
    requires SysInv(ops, s) && Enabled(ops, s, e) && AllDue(s) && k in After(ops, s, e).core.pending
    ensures After(ops, s, e).core.pending[k].readyAt <= After(ops, s, e).clock
  {
    StepOnPending(ops, s, e, k);
    ClockMovesOn(ops, s, e);
  }

  lemma StepKeepsAllDue<I(!new), K(!new)>(ops: Ops<I, K>, s: Sys<I, K>, e: Event<I, K>, s': Sys<I, K>)
    requires SysInv(ops, s) && Enabled(ops, s, e) && AllDue(s) && (e.AddAfter? ==> e.delay <= 0)
    requires s' == After(ops, s, e)
    ensures AllDue(s')
  {
    HeapStaysEmpty(ops, s, e);
    OffersStayDue(ops, s, e);
    forall tok | HasToken(s', tok)
      ensures tok.readyAt <= s'.clock
    {
      StepKeepsTokensDue(ops, s, e, tok);
    }
    forall k | k in s'.core.pending
      ensures s'.core.pending[k].readyAt <= s'.clock
    {
      PendingStaysDue(ops, s, e, k);
    }
  }

  lemma StepBacksKey<I(!new), K(!new)>(ops: Ops<I, K>, s: Sys<I, K>, e: Event<I, K>, k: K)
    requires SysInv(ops, s) && Enabled(ops, s, e) && AllDue(s) && Backed(s)
    requires var c := After(ops, s, e).core; k in c.pending && k !in c.dirty && !c.shuttingDown
    ensures exists r :: HasToken(After(ops, s, e), Token(k, r))
  {
    StepOnPending(ops, s, e, k);
    if k !in s.core.pending {
      OfferMakesToken(ops, s, e, k);
    } else {
      if k in s.core.dirty {
        StepKeepsDirty(ops, s, e, k);
      } else if Pushes(s, e, k) {
        DuePushMarks(ops, s, e, k);
      } else {
        var r :| HasToken(s, Token(k, r));
        StepKeepsToken(ops, s, e, Token(k, r));
      }
    }
  }

  lemma StepKeepsBacked<I(!new), K(!new)>(ops: Ops<I, K>, s: Sys<I, K>, e: Event<I, K>)
    requires SysInv(ops, s) && Enabled(ops, s, e) && AllDue(s) && Backed(s)
    ensures Backed(After(ops, s, e))
  {
    var s' := After(ops, s, e);
    forall k | k in s'.core.pending && k !in s'.core.dirty && !s'.core.shuttingDown
      ensures exists r :: HasToken(s', Token(k, r))
    {
      StepBacksKey(ops, s, e, k);
    }
  }

  lemma {:induction false} RunKeepsBacked<I(!new), K(!new)>(ops: Ops<I, K>, ss: seq<Sys<I, K>>, es: seq<Event<I, K>>, n: nat)
    requires IsRun(ops, ss, es) && n <= |es| && DelaysWithin(es, d => d <= 0)
    ensures AllDue(ss[n]) && Backed(ss[n])
  {
    if n > 0 {
      RunKeepsBacked(ops, ss, es, n - 1);
      RunKeepsInv(ops, ss, es, n - 1);
      StepAt(ops, ss, es, n - 1);
      assert es[n - 1].AddAfter? ==> es[n - 1].delay <= 0;
      StepKeepsAllDue(ops, ss[n - 1], es[n - 1], ss[n]);
      StepKeepsBacked(ops, ss[n - 1], es[n - 1]);
    }
  }
}
