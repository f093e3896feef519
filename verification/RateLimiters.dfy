/** Rate limiters, alone and composed as trees. */
module RateLimiters {
  import Backoff

  /**
    What a tree of limiters holds. `conv` is how the platform converts floats (see Backoff);
    `delays` are the answers the token bucket will give, whatever they are.
   */
  datatype Limiter<T> =
    | Exponential(failures: map<T, nat>, base: int, maxDelay: int, conv: Backoff.Conversion)
    | FastSlow(failures: map<T, nat>, maxFast: int, fast: int, slow: int)
    | Bucket(delays: seq<nat>)
    | MaxOf(limiters: seq<Limiter<T>>)
    | WithMaxWait(limiter: Limiter<T>, cap: int)

  function Max(a: int, b: int): int {
    if b > a then b else a
  }

  function Count<T(==)>(failures: map<T, nat>, x: T): nat {
    if x in failures then failures[x] else 0
  }

  // ----- When, Forget and NumRequeues -----

  /** The delay When answers with. */
  function WhenDelay<T(==)>(l: Limiter<T>, x: T): int
    decreases l, 1
  {
    match l
    case Exponential(failures, base, maxDelay, conv) => Backoff.Delay(base, maxDelay, Count(failures, x), conv)
    case FastSlow(failures, maxFast, fast, slow) => if Count(failures, x) + 1 <= maxFast then fast else slow
    case Bucket(delays) => if delays == [] then 0 else delays[0]
    case MaxOf(ls) => MaxDelay(l, x, |ls|)
    case WithMaxWait(inner, cap) => Backoff.Min(WhenDelay(inner, x), cap)
  }

  /** The worst answer of the first `n` limiters, and at least zero. */
  function MaxDelay<T(==)>(l: Limiter<T>, x: T, n: nat): int
    requires l.MaxOf? && n <= |l.limiters|
    decreases l, 0, n
  {
    if n == 0 then 0 else Max(MaxDelay(l, x, n - 1), WhenDelay(l.limiters[n - 1], x))
  }

  function AfterWhen<T(==)>(l: Limiter<T>, x: T): Limiter<T>
    decreases l, 1
  {
    match l
    case Exponential(failures, base, maxDelay, conv) =>
      Exponential(failures[x := Count(failures, x) + 1], base, maxDelay, conv)
    case FastSlow(failures, maxFast, fast, slow) => FastSlow(failures[x := Count(failures, x) + 1], maxFast, fast, slow)
    case Bucket(delays) => if delays == [] then l else Bucket(delays[1..])
    case MaxOf(ls) => MaxOf(AllAfterWhen(l, x, |ls|))
    case WithMaxWait(inner, cap) => WithMaxWait(AfterWhen(inner, x), cap)
  }

  function AllAfterWhen<T(==)>(l: Limiter<T>, x: T, n: nat): (ls: seq<Limiter<T>>)
    requires l.MaxOf? && n <= |l.limiters|
    ensures |ls| == n && forall i :: 0 <= i < n ==> ls[i] == AfterWhen(l.limiters[i], x)
    decreases l, 0, n
  {
    if n == 0 then [] else AllAfterWhen(l, x, n - 1) + [AfterWhen(l.limiters[n - 1], x)]
  }

  function AfterForget<T(==)>(l: Limiter<T>, x: T): Limiter<T>
    decreases l, 1
  {
    match l
    case Exponential(failures, base, maxDelay, conv) => Exponential(failures - {x}, base, maxDelay, conv)
    case FastSlow(failures, maxFast, fast, slow) => FastSlow(failures - {x}, maxFast, fast, slow)
    case Bucket(_) => l
    case MaxOf(ls) => MaxOf(AllAfterForget(l, x, |ls|))
    case WithMaxWait(inner, cap) => WithMaxWait(AfterForget(inner, x), cap)
  }

  function AllAfterForget<T(==)>(l: Limiter<T>, x: T, n: nat): (ls: seq<Limiter<T>>)
    requires l.MaxOf? && n <= |l.limiters|
    ensures |ls| == n && forall i :: 0 <= i < n ==> ls[i] == AfterForget(l.limiters[i], x)
    decreases l, 0, n
  {
    if n == 0 then [] else AllAfterForget(l, x, n - 1) + [AfterForget(l.limiters[n - 1], x)]
  }

  function NumRequeues<T(==)>(l: Limiter<T>, x: T): nat
    decreases l, 1
  {
    match l
    case Exponential(failures, _, _, _) => Count(failures, x)
    case FastSlow(failures, _, _, _) => Count(failures, x)
    case Bucket(_) => 0
    case MaxOf(ls) => MaxRequeues(l, x, |ls|)
    case WithMaxWait(inner, _) => NumRequeues(inner, x)
  }

  function MaxRequeues<T(==)>(l: Limiter<T>, x: T, n: nat): nat
    requires l.MaxOf? && n <= |l.limiters|
    decreases l, 0, n
  {
    if n == 0 then 0 else Max(MaxRequeues(l, x, n - 1), NumRequeues(l.limiters[n - 1], x))
  }

  // ----- The maximum is one -----

  lemma {:induction false} MaxDelayIsWorst<T(!new)>(l: Limiter<T>, x: T, n: nat)
    requires l.MaxOf? && n <= |l.limiters|
    ensures MaxDelay(l, x, n) >= 0 && forall i :: 0 <= i < n ==> WhenDelay(l.limiters[i], x) <= MaxDelay(l, x, n)
    ensures MaxDelay(l, x, n) == 0 || exists i :: 0 <= i < n && WhenDelay(l.limiters[i], x) == MaxDelay(l, x, n)
  {
    if n > 0 {
      MaxDelayIsWorst(l, x, n - 1);
    }
  }

  lemma {:induction false} MaxRequeuesIsMost<T(!new)>(l: Limiter<T>, x: T, n: nat)
    requires l.MaxOf? && n <= |l.limiters|
    ensures forall i :: 0 <= i < n ==> NumRequeues(l.limiters[i], x) <= MaxRequeues(l, x, n)
    ensures MaxRequeues(l, x, n) == 0 || exists i :: 0 <= i < n && NumRequeues(l.limiters[i], x) == MaxRequeues(l, x, n)
  {
    if n > 0 {
      MaxRequeuesIsMost(l, x, n - 1);
    }
  }

  /**
    A limiter over others, buckets among them or not, answers no less than zero and no less than any, and with one
    of these.
   */
  lemma MaxOfIsWorst<T(!new)>(l: Limiter<T>, x: T)
    requires l.MaxOf?
    ensures WhenDelay(l, x) >= 0 && forall i :: 0 <= i < |l.limiters| ==> WhenDelay(l.limiters[i], x) <= WhenDelay(l, x)
    ensures WhenDelay(l, x) == 0 || exists i :: 0 <= i < |l.limiters| && WhenDelay(l.limiters[i], x) == WhenDelay(l, x)
  {
    MaxDelayIsWorst(l, x, |l.limiters|);
  }

  /** And it reports no fewer requeues than any, and as many as one of them, or none. */
  lemma MaxOfIsMost<T(!new)>(l: Limiter<T>, x: T)
    requires l.MaxOf?
    ensures forall i :: 0 <= i < |l.limiters| ==> NumRequeues(l.limiters[i], x) <= NumRequeues(l, x)
    ensures NumRequeues(l, x) == 0 || exists i :: 0 <= i < |l.limiters| && NumRequeues(l.limiters[i], x) == NumRequeues(l, x)
  {
    MaxRequeuesIsMost(l, x, |l.limiters|);
  }

  /** A maximum wait cuts off what is longer and changes nothing else. */
  lemma MaxWaitCutsOff<T(!new)>(l: Limiter<T>, x: T)
    requires l.WithMaxWait?
    ensures WhenDelay(l, x) <= l.cap && WhenDelay(l, x) <= WhenDelay(l.limiter, x)
    ensures WhenDelay(l, x) == l.cap || WhenDelay(l, x) == WhenDelay(l.limiter, x)
  {
  }

  // ----- A tree counts failures -----

  /** Some leaf counts. */
  ghost predicate Counting<T(!new)>(l: Limiter<T>) {
    match l
    case Exponential(_, _, _, _) => true
    case FastSlow(_, _, _, _) => true
    case Bucket(_) => false
    case MaxOf(ls) => exists i :: 0 <= i < |ls| && Counting(ls[i])
    case WithMaxWait(inner, _) => Counting(inner)
  }

  /** Every leaf that counts has counted `n` failures of `x`. */
  ghost predicate Counted<T(!new)>(l: Limiter<T>, x: T, n: nat) {
    match l
    case Exponential(failures, _, _, _) => Count(failures, x) == n
    case FastSlow(failures, _, _, _) => Count(failures, x) == n
    case Bucket(_) => true
    case MaxOf(ls) => forall i :: 0 <= i < |ls| ==> Counted(ls[i], x, n)
    case WithMaxWait(inner, _) => Counted(inner, x, n)
  }

  lemma {:induction false} WhenCounts<T(!new)>(l: Limiter<T>, y: T, x: T, n: nat)
    requires Counted(l, x, n)
    ensures Counted(AfterWhen(l, y), x, if x == y then n + 1 else n)
    ensures Counting(AfterWhen(l, y)) == Counting(l)
  {
    match l
    case MaxOf(ls) =>
      var ls' := AfterWhen(l, y).limiters;
      forall i | 0 <= i < |ls|
        ensures Counted(ls'[i], x, if x == y then n + 1 else n) && Counting(ls'[i]) == Counting(ls[i])
      {
        WhenCounts(ls[i], y, x, n);
      }
    case WithMaxWait(inner, _) => WhenCounts(inner, y, x, n);
    case _ =>
  }

  lemma {:induction false} ForgetCounts<T(!new)>(l: Limiter<T>, y: T, x: T, n: nat)
    requires Counted(l, x, n)
    ensures Counted(AfterForget(l, y), x, if x == y then 0 else n)
    ensures Counting(AfterForget(l, y)) == Counting(l)
  {
    match l
    case MaxOf(ls) =>
      var ls' := AfterForget(l, y).limiters;
      forall i | 0 <= i < |ls|
        ensures Counted(ls'[i], x, if x == y then 0 else n) && Counting(ls'[i]) == Counting(ls[i])
      {
        ForgetCounts(ls[i], y, x, n);
      }
    case WithMaxWait(inner, _) => ForgetCounts(inner, y, x, n);
    case _ =>
  }

  lemma {:induction false} RequeuesAreCount<T(!new)>(l: Limiter<T>, x: T, n: nat)
    requires Counted(l, x, n)
    ensures NumRequeues(l, x) == if Counting(l) then n else 0
    decreases l, 1
  {
    match l
    case MaxOf(ls) => MaxRequeuesAreCount(l, x, n, |ls|);
    case WithMaxWait(inner, _) => RequeuesAreCount(inner, x, n);
    case _ =>
  }

  lemma {:induction false} MaxRequeuesAreCount<T(!new)>(l: Limiter<T>, x: T, n: nat, k: nat)
    requires l.MaxOf? && k <= |l.limiters| && Counted(l, x, n)
    ensures MaxRequeues(l, x, k) == if exists i :: 0 <= i < k && Counting(l.limiters[i]) then n else 0
    decreases l, 0, k
  {
    if k > 0 {
      MaxRequeuesAreCount(l, x, n, k - 1);
      RequeuesAreCount(l.limiters[k - 1], x, n);
    }
  }

  // ----- Whole histories -----

  datatype Op<T> = When(x: T) | Forget(x: T)

  function AfterOps<T(==)>(l: Limiter<T>, ops: seq<Op<T>>): Limiter<T>
    decreases |ops|
  {
    if ops == [] then l
    else
      var before := AfterOps(l, ops[..|ops| - 1]);
      match ops[|ops| - 1]
      case When(x) => AfterWhen(before, x)
      case Forget(x) => AfterForget(before, x)
  }

  /** How often When was asked about `x` since `x` was last forgotten. */
  function SinceForget<T(==)>(ops: seq<Op<T>>, x: T): nat
    decreases |ops|
  {
    if ops == [] then 0
    else
      var before := SinceForget(ops[..|ops| - 1], x);
      match ops[|ops| - 1]
      case When(y) => if x == y then before + 1 else before
      case Forget(y) => if x == y then 0 else before
  }

  ghost predicate Fresh<T(!new)>(l: Limiter<T>) {
    forall x :: Counted(l, x, 0)
  }

  lemma {:induction false} HistoryCounts<T(!new)>(l: Limiter<T>, ops: seq<Op<T>>, x: T)
    requires Fresh(l)
    ensures Counted(AfterOps(l, ops), x, SinceForget(ops, x)) && Counting(AfterOps(l, ops)) == Counting(l)
    decreases |ops|
  {
    if ops != [] {
      var init := ops[..|ops| - 1];
      HistoryCounts(l, init, x);
      match ops[|ops| - 1]
      case When(y) => WhenCounts(AfterOps(l, init), y, x, SinceForget(init, x));
      case Forget(y) => ForgetCounts(AfterOps(l, init), y, x, SinceForget(init, x));
    }
  }

  /** A fresh tree reports, for each item on its own, the Whens since its last Forget, if any leaf counts. */
  lemma RequeuesSinceForget<T(!new)>(l: Limiter<T>, ops: seq<Op<T>>, x: T)
    requires Fresh(l)
    ensures NumRequeues(AfterOps(l, ops), x) == if Counting(l) then SinceForget(ops, x) else 0
  {
    HistoryCounts(l, ops, x);
    RequeuesAreCount(AfterOps(l, ops), x, SinceForget(ops, x));
  }

  // ----- The delay is a fold of the count -----

  function Whens<T>(ops: seq<Op<T>>): nat
    decreases |ops|
  {
    if ops == [] then 0 else Whens(ops[..|ops| - 1]) + if ops[|ops| - 1].When? then 1 else 0
  }

  /** What a bucket has left after it was asked `k` times. */
  function Remaining(delays: seq<nat>, k: nat): seq<nat> {
    if k <= |delays| then delays[k..] else []
  }

  /**
    The delay of an item with `n` failures when the limiter has been asked `k` times in all, read off the shape of
    the tree: a maximum of leaves, cut off where capped. Each bucket gives its next answer.
   */
  ghost function FoldDelay<T(!new)>(l: Limiter<T>, n: nat, k: nat): int
    decreases l, 1
  {
    match l
    case Exponential(_, base, maxDelay, conv) => Backoff.Delay(base, maxDelay, n, conv)
    case FastSlow(_, maxFast, fast, slow) => if n < maxFast then fast else slow
    case Bucket(delays) => if k < |delays| then delays[k] else 0
    case MaxOf(ls) => FoldMax(l, n, k, |ls|)
    case WithMaxWait(inner, cap) => Backoff.Min(FoldDelay(inner, n, k), cap)
  }

  ghost function FoldMax<T(!new)>(l: Limiter<T>, n: nat, k: nat, upTo: nat): int
    requires l.MaxOf? && upTo <= |l.limiters|
    decreases l, 0, upTo
  {
    if upTo == 0 then 0 else Max(FoldMax(l, n, k, upTo - 1), FoldDelay(l.limiters[upTo - 1], n, k))
  }

  /** The second tree is the first, but for what it has counted, after `k` questions to its buckets. */
  ghost predicate SameShape<T(!new)>(a: Limiter<T>, b: Limiter<T>, k: nat) {
    match a
    case Exponential(_, base, maxDelay, conv) => b.Exponential? && b.base == base && b.maxDelay == maxDelay && b.conv == conv
    case FastSlow(_, maxFast, fast, slow) => b.FastSlow? && b.maxFast == maxFast && b.fast == fast && b.slow == slow
    case Bucket(delays) => b == Bucket(Remaining(delays, k))
    case MaxOf(ls) => b.MaxOf? && |b.limiters| == |ls| && forall i :: 0 <= i < |ls| ==> SameShape(ls[i], b.limiters[i], k)
    case WithMaxWait(inner, cap) => b.WithMaxWait? && b.cap == cap && SameShape(inner, b.limiter, k)
  }

  lemma {:induction false} OpKeepsShape<T(!new)>(l: Limiter<T>, m: Limiter<T>, x: T, k: nat)
    requires SameShape(l, m, k)
    ensures SameShape(l, AfterWhen(m, x), k + 1) && SameShape(l, AfterForget(m, x), k)
  {
    match l
    case MaxOf(ls) =>
      forall i | 0 <= i < |ls|
        ensures SameShape(ls[i], AfterWhen(m.limiters[i], x), k + 1) && SameShape(ls[i], AfterForget(m.limiters[i], x), k)
      {
        OpKeepsShape(ls[i], m.limiters[i], x, k);
      }
    case WithMaxWait(inner, _) => OpKeepsShape(inner, m.limiter, x, k);
    case _ =>
  }

  lemma {:induction false} SameAsSelf<T(!new)>(l: Limiter<T>)
    ensures SameShape(l, l, 0)
  {
    match l
    case MaxOf(ls) =>
      forall i | 0 <= i < |ls|
        ensures SameShape(ls[i], ls[i], 0)
      {
        SameAsSelf(ls[i]);
      }
    case WithMaxWait(inner, _) => SameAsSelf(inner);
    case _ =>
  }

  /** A history changes counts, and takes one answer from every bucket for each When. */
  lemma {:induction false} HistoryKeepsShape<T(!new)>(l: Limiter<T>, ops: seq<Op<T>>)
    ensures SameShape(l, AfterOps(l, ops), Whens(ops))
    decreases |ops|
  {
    if ops == [] {
      SameAsSelf(l);
    } else {
      var init := ops[..|ops| - 1];
      HistoryKeepsShape(l, init);
      OpKeepsShape(l, AfterOps(l, init), ops[|ops| - 1].x, Whens(init));
    }
  }

  lemma {:induction false} DelayFollowsShape<T(!new)>(l: Limiter<T>, m: Limiter<T>, x: T, n: nat, k: nat)
    requires SameShape(l, m, k) && Counted(m, x, n)
    ensures WhenDelay(m, x) == FoldDelay(l, n, k)
    decreases l, 1
  {
    match l
    case MaxOf(ls) => MaxFollowsShape(l, m, x, n, k, |ls|);
    case WithMaxWait(inner, _) => DelayFollowsShape(inner, m.limiter, x, n, k);
    case _ =>
  }

  lemma {:induction false} MaxFollowsShape<T(!new)>(l: Limiter<T>, m: Limiter<T>, x: T, n: nat, k: nat, upTo: nat)
    requires l.MaxOf? && SameShape(l, m, k) && Counted(m, x, n) && upTo <= |l.limiters|
    ensures MaxDelay(m, x, upTo) == FoldMax(l, n, k, upTo)
    decreases l, 0, upTo
  {
    if upTo > 0 {
      MaxFollowsShape(l, m, x, n, k, upTo - 1);
      DelayFollowsShape(l.limiters[upTo - 1], m.limiters[upTo - 1], x, n, k);
    }
  }

  /** A fresh tree answers with the fold of the item's count and, for its buckets, of all questions so far. */
  lemma DelaySinceForget<T(!new)>(l: Limiter<T>, ops: seq<Op<T>>, x: T)
    requires Fresh(l)
    ensures WhenDelay(AfterOps(l, ops), x) == FoldDelay(l, SinceForget(ops, x), Whens(ops))
  {
    HistoryCounts(l, ops, x);
    HistoryKeepsShape(l, ops);
    DelayFollowsShape(l, AfterOps(l, ops), x, SinceForget(ops, x), Whens(ops));
  }
}
