/**
  The priority queue of delayed items: a binary heap of nodes that store their own
  index, and the by-item table the waiting loop keeps beside it.
 */
module WaitHeap {

  // ----- Heap order on the times alone -----

  /** The parent of a heap position; the root is its own parent, as Go's truncating (0-1)/2 has it. */
  function Parent(i: nat): (p: nat)
    ensures i > 0 ==> p < i
  {
    if i == 0 then 0 else (i - 1) / 2
  }

  /** Every time among the first `n` is at least its parent's. */
  ghost predicate HeapOrder(a: seq<int>, n: nat)
    requires n <= |a|
  {
    forall i :: 0 < i < n ==> a[Parent(i)] <= a[i]
  }

  /** Heap order except on the edges at `hole`; an edge that skips over `hole` is in order. */
  ghost predicate OrderAround(a: seq<int>, n: nat, hole: nat)
    requires n <= |a|
  {
    && (forall i :: 0 < i < n && i != hole && Parent(i) != hole ==> a[Parent(i)] <= a[i])
    && (0 < hole < n ==> forall i :: 0 < i < n && Parent(i) == hole ==> a[Parent(hole)] <= a[i])
  }

  /** The edges from `hole` down to its children. */
  ghost predicate OrderBelow(a: seq<int>, n: nat, hole: nat)
    requires n <= |a|
  {
    forall i :: 0 < i < n && Parent(i) == hole ==> a[hole] <= a[i]
  }

  function Swapped<A>(a: seq<A>, i: nat, j: nat): (b: seq<A>)
    requires i < |a| && j < |a|
    ensures |b| == |a|
  {
    a[i := a[j]][j := a[i]]
  }

  /** One sift-up exchange moves the only possible violation to the parent. */
  lemma SiftUpStep(a: seq<int>, j: nat)
    requires 0 < j < |a| && OrderAround(a, |a|, j) && OrderBelow(a, |a|, j)
    requires a[j] < a[Parent(j)]
    ensures OrderAround(Swapped(a, Parent(j), j), |a|, Parent(j))
    ensures OrderBelow(Swapped(a, Parent(j), j), |a|, Parent(j))
  {
    var p := Parent(j);
    var b := Swapped(a, p, j);
    forall i | 0 < i < |a| && i != p && Parent(i) != p
      ensures b[Parent(i)] <= b[i]
    {
    }
    if 0 < p {
      forall i | 0 < i < |a| && Parent(i) == p
        ensures b[Parent(p)] <= b[i]
      {
        assert a[Parent(p)] <= a[p];
      }
    }
  }

  /** One sift-down exchange moves the only possible violation to the lesser child. */
  lemma SiftDownStep(a: seq<int>, n: nat, i: nat, j: nat)
    requires i < n <= |a| && 0 < j < n && Parent(j) == i && OrderAround(a, n, i)
    requires forall c :: 0 < c < n && Parent(c) == i ==> a[j] <= a[c]
    requires a[j] < a[i]
    ensures OrderAround(Swapped(a, i, j), n, j)
    ensures 0 < i ==> Swapped(a, i, j)[Parent(i)] <= Swapped(a, i, j)[i]
    ensures Swapped(a, i, j)[i] <= Swapped(a, i, j)[j]
  {
    var b := Swapped(a, i, j);
    forall c | 0 < c < n && c != j && Parent(c) != j
      ensures b[Parent(c)] <= b[c]
    {
    }
    forall c | 0 < c < n && Parent(c) == j
      ensures b[Parent(j)] <= b[c]
    {
      assert c != i && c != j;
      assert a[j] <= a[c];
    }
  }

  /** Where a sift-down from `start` stops at `i`, order holds below `start`, and everywhere if it moved. */
  lemma SiftDownEnd(a: seq<int>, n: nat, start: nat, i: nat)
    requires n <= |a| && start <= i && OrderAround(a, n, i) && OrderBelow(a, n, i)
    requires i > start ==> i < n && a[Parent(i)] <= a[i]
    ensures OrderAround(a, n, start) && OrderBelow(a, n, start)
    ensures i > start || start == 0 ==> HeapOrder(a, n)
  {
    if i > start {
      assert HeapOrder(a, n);
      forall c | 0 < c < n && Parent(c) == start && 0 < start < n
        ensures a[Parent(start)] <= a[c]
      {
        assert a[Parent(start)] <= a[start] <= a[c];
      }
    }
  }

  /** A node's children are the two positions after its double. */
  lemma Children(i: nat, c: nat)
    ensures c > 0 && Parent(c) == i <==> c == 2 * i + 1 || c == 2 * i + 2
  {
  }

  /** With the last time put in place of the first, order can break only at the root. */
  lemma RootRemoved(a: seq<int>)
    requires a != [] && HeapOrder(a, |a|)
    ensures OrderAround(Swapped(a, 0, |a| - 1), |a| - 1, 0)
  {
  }

  /** The root carries the least time. */
  lemma {:induction false} RootIsLeast(a: seq<int>, i: nat)
    requires i < |a| && HeapOrder(a, |a|)
    ensures a[0] <= a[i]
  {
    if i > 0 {
      RootIsLeast(a, Parent(i));
    }
  }

  // ----- Nodes and the queue -----

  /** A delayed item, the time it should be added, and its place in the heap. */
  class WaitFor<T> {
    const data: T
    var readyAt: int
    var index: int

    constructor (data: T, readyAt: int)
      ensures this.data == data && this.readyAt == readyAt
    {
      this.data := data;
      this.readyAt := readyAt;
      this.index := 0;
    }
  }

  ghost function Times<T>(pq: seq<WaitFor<T>>): (a: seq<int>)
    reads pq
    ensures |a| == |pq|
  {
    seq(|pq|, i requires 0 <= i < |pq| reads pq => pq[i].readyAt)
  }

  ghost predicate Indexed<T>(pq: seq<WaitFor<T>>)
    reads pq
  {
    forall i :: 0 <= i < |pq| ==> pq[i].index == i
  }

  ghost function Nodes<T>(pq: seq<WaitFor<T>>): set<WaitFor<T>> {
    set node | node in pq
  }

  lemma SwappedNodes<T>(a: seq<WaitFor<T>>, i: nat, j: nat)
    requires i < |a| && j < |a|
    ensures Nodes(Swapped(a, i, j)) == Nodes(a)
  {
    var b := Swapped(a, i, j);
    forall node | node in a
      ensures node in b
    {
      var k :| 0 <= k < |a| && a[k] == node;
      assert b[if k == i then j else if k == j then i else k] == node;
    }
  }

  lemma NodesOfAppend<T>(pq: seq<WaitFor<T>>, x: WaitFor<T>)
    requires x !in pq
    ensures Nodes(pq + [x]) == Nodes(pq) + {x} && Nodes(pq) == Nodes(pq + [x]) - {x}
  {
  }

  class WaitForPriorityQueue<T> {
    var pq: seq<WaitFor<T>>

    constructor ()
      ensures pq == []
    {
      pq := [];
    }

    predicate Less(i: nat, j: nat)
      requires i < |pq| && j < |pq|
      reads this, pq
    {
      pq[i].readyAt < pq[j].readyAt
    }

    method Swap(i: nat, j: nat)
      requires i < |pq| && j < |pq| && Indexed(pq)
      modifies this`pq, Nodes(pq)`index
      ensures Indexed(pq) && |pq| == |old(pq)| && Nodes(pq) == old(Nodes(pq)) && pq == Swapped(old(pq), i, j)
      ensures Times(pq) == Swapped(old(Times(pq)), i, j)
    {
      SwappedNodes(pq, i, j);
      pq := pq[i := pq[j]][j := pq[i]];
      pq[i].index := i;
      pq[j].index := j;
    }

    method Append(x: WaitFor<T>)
      requires Indexed(pq) && x !in pq
      modifies this`pq, x`index
      ensures Indexed(pq) && pq == old(pq) + [x]
    {
      x.index := |pq|;
      pq := pq + [x];
    }

    method RemoveLast() returns (item: WaitFor<T>)
      requires pq != [] && Indexed(pq)
      modifies this`pq, Nodes(pq)`index
      ensures item == old(pq)[|old(pq)| - 1] && pq == old(pq)[..|old(pq)| - 1]
      ensures Indexed(pq) && item !in pq && item.index == -1
    {
      var n := |pq|;
      item := pq[n - 1];
      assert forall i :: 0 <= i < n - 1 ==> pq[i] != item;
      item.index := -1;
      pq := pq[..n - 1];
    }

    /** Sift the node at `start` towards the root. */
    method Up(start: nat)
      requires start < |pq| && Indexed(pq)
      requires OrderAround(Times(pq), |pq|, start) && OrderBelow(Times(pq), |pq|, start)
      modifies this`pq, Nodes(pq)`index
      ensures Indexed(pq) && |pq| == |old(pq)| && Nodes(pq) == old(Nodes(pq)) && HeapOrder(Times(pq), |pq|)
    {
      var j := start;
      ghost var a := Times(pq);
      while j > 0 && Less(j, Parent(j))
        invariant 0 <= j < |pq| && Indexed(pq) && |pq| == |old(pq)| && Nodes(pq) == old(Nodes(pq)) && a == Times(pq)
        invariant OrderAround(a, |a|, j) && OrderBelow(a, |a|, j)
        decreases j
      {
        SiftUpStep(a, j);
        Swap(Parent(j), j);
        a := Swapped(a, Parent(j), j);
        j := Parent(j);
      }
      assert HeapOrder(a, |a|);
    }

    method LesserChild(i: nat, n: nat) returns (j: nat)
      requires 2 * i + 1 < n <= |pq|
      ensures 0 < j < n && Parent(j) == i
      ensures forall c :: 0 < c < n && Parent(c) == i ==> Times(pq)[j] <= Times(pq)[c]
    {
      j := 2 * i + 1;
      if j + 1 < n && Less(j + 1, j) {
        j := j + 1;
      }
      forall c | 0 < c < n && Parent(c) == i
        ensures Times(pq)[j] <= Times(pq)[c]
      {
        Children(i, c);
      }
    }

    /** Exchange the node at `i` with its lesser child `j`, which is less. */
    method SinkTo(i: nat, j: nat, n: nat)
      requires i < n <= |pq| && 0 < j < n && Parent(j) == i && Indexed(pq) && OrderAround(Times(pq), n, i)
      requires forall c :: 0 < c < n && Parent(c) == i ==> Times(pq)[j] <= Times(pq)[c]
      requires Times(pq)[j] < Times(pq)[i]
      modifies this`pq, Nodes(pq)`index
      ensures Indexed(pq) && |pq| == |old(pq)| && Nodes(pq) == old(Nodes(pq))
      ensures forall k :: n <= k < |pq| ==> pq[k] == old(pq)[k]
      ensures OrderAround(Times(pq), n, j) && Times(pq)[Parent(j)] <= Times(pq)[j]
    {
      SiftDownStep(Times(pq), n, i, j);
      Swap(i, j);
    }

    /** Let the node at `i` change places with its lesser child if that child is less; `next` is where the node went. */
    method SinkOnce(i: nat, n: nat) returns (next: nat)
      requires i < |pq| && n <= |pq| && Indexed(pq) && OrderAround(Times(pq), n, i)
      modifies this`pq, Nodes(pq)`index
      ensures Indexed(pq) && |pq| == |old(pq)| && Nodes(pq) == old(Nodes(pq))
      ensures forall k :: n <= k < |pq| ==> pq[k] == old(pq)[k]
      ensures i <= next < |pq| && OrderAround(Times(pq), n, next)
      ensures next == i ==> pq == old(pq) && Times(pq) == old(Times(pq)) && OrderBelow(Times(pq), n, i)
      ensures next > i ==> next < n && Times(pq)[Parent(next)] <= Times(pq)[next]
    {
      next := i;
      if 2 * i + 1 >= n {
        return;
      }
      var j := LesserChild(i, n);
      if Less(j, i) {
        SinkTo(i, j, n);
        next := j;
      }
    }

    /** Sift the node at `start` away from the root, within the first `n` nodes. */
    method Down(start: nat, n: nat) returns (moved: bool)
      requires start < |pq| && n <= |pq| && Indexed(pq) && OrderAround(Times(pq), n, start)
      modifies this`pq, Nodes(pq)`index
      ensures Indexed(pq) && |pq| == |old(pq)| && Nodes(pq) == old(Nodes(pq))
      ensures forall k :: n <= k < |pq| ==> pq[k] == old(pq)[k]
      ensures OrderAround(Times(pq), n, start) && OrderBelow(Times(pq), n, start)
      ensures moved || start == 0 ==> HeapOrder(Times(pq), n)
    {
      var i := start;
      var next := SinkOnce(i, n);
      ghost var a := Times(pq);
      while next > i
        invariant start <= i <= next < |pq| && Indexed(pq) && |pq| == |old(pq)| && Nodes(pq) == old(Nodes(pq))
        invariant forall k :: n <= k < |pq| ==> pq[k] == old(pq)[k]
        invariant a == Times(pq) && OrderAround(a, n, next)
        invariant next == i ==> OrderBelow(a, n, i)
        invariant next > start ==> next < n && a[Parent(next)] <= a[next]
        decreases |pq| - i
      {
        i := next;
        next := SinkOnce(i, n);
        a := Times(pq);
      }
      SiftDownEnd(a, n, start, i);
      moved := i > start;
    }

    /** Restore order after the time of the node at `i` changed. */
    method Fix(i: nat)
      requires i < |pq| && Indexed(pq) && OrderAround(Times(pq), |pq|, i)
      modifies this`pq, Nodes(pq)`index
      ensures Indexed(pq) && |pq| == |old(pq)| && Nodes(pq) == old(Nodes(pq)) && HeapOrder(Times(pq), |pq|)
    {
      var moved := Down(i, |pq|);
      if !moved {
        Up(i);
      }
    }

    method HeapPush(x: WaitFor<T>)
      requires Indexed(pq) && x !in pq && HeapOrder(Times(pq), |pq|)
      modifies this`pq, Nodes(pq)`index, x`index
      ensures Indexed(pq) && |pq| == |old(pq)| + 1 && Nodes(pq) == old(Nodes(pq)) + {x} && HeapOrder(Times(pq), |pq|)
    {
      ghost var a := Times(pq);
      Append(x);
      NodesOfAppend(old(pq), x);
      assert forall i :: 0 <= i < |a| ==> Times(pq)[i] == a[i];
      Up(|pq| - 1);
    }

    /** Put the root last, and the rest in order. */
    method RootLast()
      requires pq != [] && Indexed(pq) && HeapOrder(Times(pq), |pq|)
      modifies this`pq, Nodes(pq)`index
      ensures Indexed(pq) && |pq| == |old(pq)| && Nodes(pq) == old(Nodes(pq))
      ensures pq[|pq| - 1] == old(pq)[0] && HeapOrder(Times(pq), |pq| - 1)
    {
      var n := |pq| - 1;
      RootRemoved(Times(pq));
      Swap(0, n);
      var _ := Down(0, n);
    }

    method HeapPop() returns (x: WaitFor<T>)
      requires pq != [] && Indexed(pq) && HeapOrder(Times(pq), |pq|)
      modifies this`pq, Nodes(pq)`index
      ensures x == old(pq)[0] && x !in pq
      ensures Indexed(pq) && |pq| == |old(pq)| - 1 && Nodes(pq) == old(Nodes(pq)) - {x} && HeapOrder(Times(pq), |pq|)
    {
      RootLast();
      ghost var a, full := Times(pq), pq;
      x := RemoveLast();
      assert Times(pq) == a[..|pq|];
      NodesOfAppend(pq, x);
      assert full == pq + [x];
    }
  }

  // ----- The by-item table -----

  /** The table and the heap hold the same nodes, one for each item. */
  ghost predicate Tabled<T(!new)>(nodes: set<WaitFor<T>>, known: map<T, WaitFor<T>>) {
    && (forall node | node in nodes :: node.data in known && known[node.data] == node)
    && (forall x | x in known :: known[x] in nodes && known[x].data == x)
  }

  ghost predicate Valid<T(!new)>(q: WaitForPriorityQueue<T>, known: map<T, WaitFor<T>>)
    reads q, q.pq
  {
    Indexed(q.pq) && HeapOrder(Times(q.pq), |q.pq|) && Tabled(Nodes(q.pq), known)
  }

  /** What the heap stands for: the time each waiting item will be added. */
  ghost function Waiting<T(!new)>(known: map<T, WaitFor<T>>): map<T, int>
    reads known.Values
  {
    map x | x in known :: known[x].readyAt
  }

  /** An item waits for the earliest of the times asked for it. */
  function Sooner<T(==)>(waiting: map<T, int>, x: T, readyAt: int): map<T, int> {
    if x in waiting && waiting[x] <= readyAt then waiting else waiting[x := readyAt]
  }

  /** Changing one time breaks order only around that position. */
  lemma RetimedAround(a: seq<int>, i: nat, readyAt: int)
    requires i < |a| && HeapOrder(a, |a|)
    ensures OrderAround(a[i := readyAt], |a|, i)
  {
    forall c | 0 < c < |a| && Parent(c) == i && 0 < i
      ensures a[Parent(i)] <= a[c]
    {
      assert a[Parent(i)] <= a[i] <= a[c];
    }
  }

  method Retime<T>(q: WaitForPriorityQueue<T>, node: WaitFor<T>, readyAt: int)
    requires Indexed(q.pq) && HeapOrder(Times(q.pq), |q.pq|) && node in q.pq
    modifies q, Nodes(q.pq)`index, node`readyAt
    ensures Indexed(q.pq) && HeapOrder(Times(q.pq), |q.pq|) && Nodes(q.pq) == old(Nodes(q.pq))
    ensures node.readyAt == readyAt && |q.pq| == |old(q.pq)|
  {
    RetimedAround(Times(q.pq), node.index, readyAt);
    ghost var a := Times(q.pq);
    node.readyAt := readyAt;
    assert Times(q.pq) == a[node.index := readyAt];
    q.Fix(node.index);
  }

  method Insert<T(==,!new)>(q: WaitForPriorityQueue<T>, known: map<T, WaitFor<T>>, entry: WaitFor<T>)
    returns (known': map<T, WaitFor<T>>)
    requires Valid(q, known) && entry !in q.pq
    modifies q, Nodes(q.pq), entry`index
    ensures Valid(q, known')
    ensures Waiting(known') == Sooner(old(Waiting(known)), entry.data, entry.readyAt)
    ensures Nodes(q.pq) <= old(Nodes(q.pq)) + {entry}
  {
    known' := known;
    if entry.data in known {
      var existing := known[entry.data];
      assert existing in Nodes(q.pq);
      if existing.readyAt > entry.readyAt {
        Retime(q, existing, entry.readyAt);
      }
      return;
    }
    q.HeapPush(entry);
    known' := known[entry.data := entry];
  }

  lemma FirstIsLeast<T(!new)>(q: WaitForPriorityQueue<T>, known: map<T, WaitFor<T>>)
    requires Valid(q, known) && q.pq != []
    ensures q.pq[0].data in known && known[q.pq[0].data] == q.pq[0]
    ensures forall x :: x in known ==> q.pq[0].readyAt <= known[x].readyAt
  {
    forall x | x in known
      ensures q.pq[0].readyAt <= known[x].readyAt
    {
      var i :| 0 <= i < |q.pq| && q.pq[i] == known[x];
      RootIsLeast(Times(q.pq), i);
    }
    assert q.pq[0] in Nodes(q.pq);
  }

  /** Take the item due first out of the heap and the table. */
  method TakeFirst<T(==,!new)>(q: WaitForPriorityQueue<T>, known: map<T, WaitFor<T>>)
    returns (entry: WaitFor<T>, known': map<T, WaitFor<T>>)
    requires Valid(q, known) && q.pq != []
    modifies q, Nodes(q.pq)
    ensures Valid(q, known') && entry == old(q.pq)[0] && entry.readyAt == old(q.pq[0].readyAt)
    ensures entry.data in known && known[entry.data] == entry
    ensures Waiting(known') == old(Waiting(known)) - {entry.data}
    ensures forall x :: x in known ==> entry.readyAt <= old(known[x].readyAt)
    ensures |q.pq| == |old(q.pq)| - 1 && Nodes(q.pq) <= old(Nodes(q.pq))
  {
    FirstIsLeast(q, known);
    entry := q.HeapPop();
    known' := known - {entry.data};
  }
}
