/** The limiters as objects that update their own counts, composed without sharing. */
module LimiterTree {
  import opened RateLimiters

  /** Which limiter an object is, with its settings. */
  datatype Kind =
    | ExponentialFailure(base: int, maxDelay: int, conv: Backoff.Conversion)
    | ItemFastSlow(maxFast: int, fast: int, slow: int)
    | TokenBucket
    | MaxOfAll
    | MaxWait(cap: int)

  class RateLimiter<T(==,!new)> {
    const kind: Kind
    const children: seq<RateLimiter<T>>
    var failures: map<T, nat>
    var delays: seq<nat>
    ghost const repr: set<RateLimiter<T>>

    /** A limiter on its own, which has counted nothing yet; `delays` is for the token bucket. */
    constructor Leaf(kind: Kind, delays: seq<nat>)
      requires !kind.MaxOfAll? && !kind.MaxWait?
      ensures Valid() && fresh(repr) && Fresh(Tree())
      ensures this.kind == kind && this.children == [] && this.failures == map[] && this.delays == delays
    {
      this.kind, this.delays := kind, delays;
      children, failures := [], map[];
      repr := {this};
    }

    /** A limiter over others that share nothing. */
    constructor Over(kind: Kind, children: seq<RateLimiter<T>>)
      requires kind.MaxOfAll? || (kind.MaxWait? && |children| == 1)
      requires forall i :: 0 <= i < |children| ==> children[i].Valid()
      requires forall i, j :: 0 <= i < j < |children| ==> children[i].repr !! children[j].repr
      ensures Valid() && this.kind == kind && this.children == children
      ensures fresh(repr - (set i, o | 0 <= i < |children| && o in children[i].repr :: o))
      ensures ChildrenFresh() ==> Fresh(Tree())
    {
      this.kind, this.children := kind, children;
      failures, delays := map[], [];
      repr := {this} + (set i, o | 0 <= i < |children| && o in children[i].repr :: o);
      new;
      if ChildrenFresh() {
        FreshFromChildren();
      }
    }

    /** A tree: the parts of different children are apart, and none contains its parent. */
    ghost predicate Valid()
      decreases repr
    {
      && this in repr
      && (kind.MaxWait? ==> |children| == 1)
      && (forall i :: 0 <= i < |children| ==> children[i].repr < repr && this !in children[i].repr && children[i].Valid())
      && (forall i, j :: 0 <= i < j < |children| ==> children[i].repr !! children[j].repr)
    }

    ghost function Tree(): Limiter<T>
      requires Valid()
      reads repr
      decreases repr, 1
    {
      match kind
      case ExponentialFailure(base, maxDelay, conv) => Exponential(failures, base, maxDelay, conv)
      case ItemFastSlow(maxFast, fast, slow) => FastSlow(failures, maxFast, fast, slow)
      case TokenBucket => Bucket(delays)
      case MaxOfAll => MaxOf(Trees(|children|))
      case MaxWait(cap) => WithMaxWait(children[0].Tree(), cap)
    }

    ghost function Trees(n: nat): (ls: seq<Limiter<T>>)
      requires Valid() && n <= |children|
      reads repr
      ensures |ls| == n && forall i :: 0 <= i < n ==> ls[i] == children[i].Tree()
      decreases repr, 0, n
    {
      if n == 0 then [] else Trees(n - 1) + [children[n - 1].Tree()]
    }

    ghost predicate ChildrenFresh()
      requires Valid()
      reads repr
    {
      forall i :: 0 <= i < |children| ==> Fresh(children[i].Tree())
    }

    /** Fresh limiters compose into a fresh one. */
    lemma FreshFromChildren()
      requires Valid() && (kind.MaxOfAll? || kind.MaxWait?) && ChildrenFresh()
      ensures Fresh(Tree())
    {
      forall x
        ensures Counted(Tree(), x, 0)
      {
        assert forall i :: 0 <= i < |children| ==> Counted(children[i].Tree(), x, 0);
      }
    }

    method When(x: T) returns (delay: int)
      requires Valid()
      modifies repr
      ensures delay == WhenDelay(old(Tree()), x) && Tree() == AfterWhen(old(Tree()), x)
      decreases repr, 1
    {
      match kind
      case ExponentialFailure(base, maxDelay, conv) =>
        var exp := Count(failures, x);
        failures := failures[x := exp + 1];
        delay := Backoff.Delay(base, maxDelay, exp, conv);
      case ItemFastSlow(maxFast, fast, slow) =>
        failures := failures[x := Count(failures, x) + 1];
        delay := if failures[x] <= maxFast then fast else slow;
      case TokenBucket =>
        delay := 0;
        if delays != [] {
          delay := delays[0];
          delays := delays[1..];
        }
      case MaxOfAll =>
        delay := WorstOf(x);
      case MaxWait(cap) =>
        delay := children[0].When(x);
        if delay > cap {
          delay := cap;
        }
    }

    method WorstOf(x: T) returns (ret: int)
      requires Valid() && kind.MaxOfAll?
      modifies repr
      ensures ret == WhenDelay(old(Tree()), x) && Tree() == AfterWhen(old(Tree()), x)
      decreases repr, 0
    {
      ret := 0;
      ghost var before := Tree();
      for i := 0 to |children|
        invariant ret == MaxDelay(before, x, i)
        invariant forall j :: 0 <= j < i ==> children[j].Tree() == AfterWhen(before.limiters[j], x)
        invariant forall j :: i <= j < |children| ==> children[j].Tree() == before.limiters[j]
      {
        var curr := children[i].When(x);
        if curr > ret {
          ret := curr;
        }
      }
    }

    method Forget(x: T)
      requires Valid()
      modifies repr
      ensures Tree() == AfterForget(old(Tree()), x)
      decreases repr, 1
    {
      match kind
      case ExponentialFailure(_, _, _) => failures := failures - {x};
      case ItemFastSlow(_, _, _) => failures := failures - {x};
      case TokenBucket =>
      case MaxOfAll => ForgetAll(x);
      case MaxWait(_) => children[0].Forget(x);
    }

    method ForgetAll(x: T)
      requires Valid() && kind.MaxOfAll?
      modifies repr
      ensures Tree() == AfterForget(old(Tree()), x)
      decreases repr, 0
    {
      ghost var before := Tree();
      for i := 0 to |children|
        invariant forall j :: 0 <= j < i ==> children[j].Tree() == AfterForget(before.limiters[j], x)
        invariant forall j :: i <= j < |children| ==> children[j].Tree() == before.limiters[j]
      {
        children[i].Forget(x);
      }
    }

    method Requeues(x: T) returns (n: nat)
      requires Valid()
      ensures n == NumRequeues(Tree(), x)
      decreases repr, 1
    {
      match kind
      case ExponentialFailure(_, _, _) => n := Count(failures, x);
      case ItemFastSlow(_, _, _) => n := Count(failures, x);
      case TokenBucket => n := 0;
      case MaxOfAll =>
        n := 0;
        for i := 0 to |children|
          invariant n == MaxRequeues(Tree(), x, i)
        {
          var curr := children[i].Requeues(x);
          if curr > n {
            n := curr;
          }
        }
      case MaxWait(_) => n := children[0].Requeues(x);
    }
  }
}
