/**
  The keyed delaying queue: one pending entry and one processing entry for each key, newer items
  merged into the pending entry. What each lock-held section does, and the invariant they keep.
 */
module IndexerQueue {
  import WorkQueue

  datatype Option<+A> = None | Some(value: A)

  /** What the queue asks of its items: a key, or a failure; whether they compare; and how. */
  datatype Ops<!I, K> = Ops(key: I -> Option<K>, compared: I -> bool, lessOrEqual: (I, I) -> bool) {
    /** A pending item gives way to `item`. */
    predicate GivesWay(pending: I, item: I) {
      compared(pending) && lessOrEqual(pending, item)
    }

    /** An item being processed is newer than `item`. */
    predicate Refuses(processing: I, item: I) {
      compared(processing) && !lessOrEqual(processing, item)
    }
  }

  datatype Entry<I> = Entry(data: I, readyAt: int)

  datatype Core<I, K> = Core(
    pending: map<K, Entry<I>>, processing: map<K, Entry<I>>,
    dirty: set<K>, queue: seq<K>, shuttingDown: bool, drain: bool)

  function Empty<I, K(==)>(): Core<I, K> {
    Core(map[], map[], {}, [], false, false)
  }

  function Load<I, K(==)>(c: Core<I, K>): nat {
    |c.pending| + |c.processing|
  }

  // ----- The lock-held sections, as functions -----

  function Merged<I, K(==)>(ops: Ops<I, K>, entry: Entry<I>, item: I, readyAt: int): Entry<I> {
    Entry(if ops.GivesWay(entry.data, item) then item else entry.data,
          if readyAt < entry.readyAt then readyAt else entry.readyAt)
  }

  /** The entry is new: the key is not pending, and no newer item of it is being processed. */
  predicate Creates<I, K(==)>(ops: Ops<I, K>, c: Core<I, K>, key: K, item: I) {
    && !c.shuttingDown && key !in c.pending
    && !(key in c.processing && ops.Refuses(c.processing[key].data, item))
  }

  function Offered<I, K(==)>(ops: Ops<I, K>, c: Core<I, K>, key: K, item: I, readyAt: int): Core<I, K> {
    if c.shuttingDown then c
    else if key in c.pending then c.(pending := c.pending[key := Merged(ops, c.pending[key], item, readyAt)])
    else if key in c.processing && ops.Refuses(c.processing[key].data, item) then c
    else c.(pending := c.pending[key := Entry(item, readyAt)])
  }

  /** The caller must see to it that the entry gets pushed: it is new, or due earlier than before. */
  predicate NeedsPush<I, K(==)>(ops: Ops<I, K>, c: Core<I, K>, key: K, item: I, readyAt: int) {
    Creates(ops, c, key, item) || (!c.shuttingDown && key in c.pending && readyAt < c.pending[key].readyAt)
  }

  /** A push marks the key dirty: its entry is due and not marked yet. */
  predicate PushMarks<I, K(==)>(c: Core<I, K>, key: K, clock: int) {
    !c.shuttingDown && key in c.pending && c.pending[key].readyAt <= clock && key !in c.dirty
  }

  predicate PushEnqueues<I, K(==)>(c: Core<I, K>, key: K, clock: int) {
    PushMarks(c, key, clock) && key !in c.processing
  }

  function Pushed<I, K(==)>(c: Core<I, K>, key: K, clock: int): Core<I, K> {
    if !PushMarks(c, key, clock) then c
    else if key in c.processing then c.(dirty := c.dirty + {key})
    else c.(dirty := c.dirty + {key}, queue := c.queue + [key])
  }

  function Taken<I, K(==)>(c: Core<I, K>): Core<I, K>
    requires c.queue != [] && c.queue[0] in c.pending
  {
    var key := c.queue[0];
    c.(queue := c.queue[1..], processing := c.processing[key := c.pending[key]],
       dirty := c.dirty - {key}, pending := c.pending - {key})
  }

  function Finished<I, K(==)>(c: Core<I, K>, key: K): Core<I, K> {
    c.(processing := c.processing - {key}, queue := if key in c.dirty then c.queue + [key] else c.queue)
  }

  predicate DoneSignals<I, K(==)>(c: Core<I, K>, key: K) {
    key in c.dirty || c.processing.Keys - {key} == {}
  }

  // ----- The invariant -----

  ghost predicate Keyed<I, K(!new)>(ops: Ops<I, K>, m: map<K, Entry<I>>) {
    forall k :: k in m ==> ops.key(m[k].data) == Some(k)
  }

  ghost predicate Inv<I, K(!new)>(ops: Ops<I, K>, c: Core<I, K>) {
    && WorkQueue.NoDuplicates(c.queue)
    && (forall k :: k in c.queue <==> k in c.dirty && k !in c.processing)
    && c.dirty <= c.pending.Keys
    && Keyed(ops, c.pending) && Keyed(ops, c.processing)
  }

  lemma OfferKeepsInv<I, K(!new)>(ops: Ops<I, K>, c: Core<I, K>, key: K, item: I, readyAt: int)
    requires Inv(ops, c) && ops.key(item) == Some(key)
    ensures Inv(ops, Offered(ops, c, key, item, readyAt))
  {
  }

  lemma PushKeepsInv<I, K(!new)>(ops: Ops<I, K>, c: Core<I, K>, key: K, clock: int)
    requires Inv(ops, c)
    ensures Inv(ops, Pushed(c, key, clock))
  {
  }

  /** The key at the head is pending and held by nobody. */
  lemma HeadIsPending<I, K(!new)>(ops: Ops<I, K>, c: Core<I, K>)
    requires Inv(ops, c) && c.queue != []
    ensures c.queue[0] in c.pending && c.queue[0] in c.dirty && c.queue[0] !in c.processing
  {
    assert c.queue[0] in c.queue;
  }

  lemma GetKeepsInv<I, K(!new)>(ops: Ops<I, K>, c: Core<I, K>)
    requires Inv(ops, c) && c.queue != [] && c.queue[0] in c.pending
    ensures Inv(ops, Taken(c))
  {
    var key := c.queue[0];
    var rest := c.queue[1..];
    assert forall k :: k in c.queue <==> k == key || k in rest;
    assert key !in rest;
  }

  /** Get moves an entry from one table to the other. */
  lemma GetKeepsLoad<I, K(!new)>(ops: Ops<I, K>, c: Core<I, K>)
    requires Inv(ops, c) && c.queue != [] && c.queue[0] in c.pending
    ensures Load(Taken(c)) == Load(c)
  {
    var head := c.queue[0];
    HeadIsPending(ops, c);
    assert (c.pending - {head}).Keys == c.pending.Keys - {head};
    assert c.processing[head := c.pending[head]].Keys == c.processing.Keys + {head};
  }

  lemma DoneDropsOne<I, K(!new)>(c: Core<I, K>, key: K)
    requires key in c.processing
    ensures Load(Finished(c, key)) == Load(c) - 1
  {
    assert (c.processing - {key}).Keys == c.processing.Keys - {key};
  }

  /** Done keeps the invariant exactly when the key is being processed, or at least not waiting in the queue. */
  lemma DoneKeepsInv<I, K(!new)>(ops: Ops<I, K>, c: Core<I, K>, key: K)
    requires Inv(ops, c)
    ensures Inv(ops, Finished(c, key)) <==> key in c.processing || key !in c.dirty
  {
    if key in c.dirty && key !in c.processing {
      var i :| 0 <= i < |c.queue| && c.queue[i] == key;
      assert Finished(c, key).queue[i] == Finished(c, key).queue[|c.queue|];
    }
  }

  // ----- The queue itself -----

  /** An entry as the queue stores it: shared by reference and updated in place. */
  class WaitEntry<I> {
    var data: I
    var readyAt: int

    constructor (data: I, readyAt: int)
      ensures this.data == data && this.readyAt == readyAt
    {
      this.data, this.readyAt := data, readyAt;
    }
  }

  ghost function Entries<I, K(!new)>(m: map<K, WaitEntry<I>>): map<K, Entry<I>>
    reads m.Values
  {
    map k | k in m :: Entry(m[k].data, m[k].readyAt)
  }

  lemma EntriesWithout<I, K(!new)>(m: map<K, WaitEntry<I>>, key: K)
    ensures Entries(m - {key}) == Entries(m) - {key}
    ensures m - {key} == map[] <==> Entries(m).Keys - {key} == {}
  {
    assert forall k :: k in Entries(m).Keys - {key} <==> k in m - {key};
    if m - {key} != map[] {
      var k :| k in m - {key};
      assert k in Entries(m).Keys - {key};
    }
  }

  /** No entry object is stored twice, in one table or across the two. */
  ghost predicate Separate<I, K(!new)>(pending: map<K, WaitEntry<I>>, processing: map<K, WaitEntry<I>>) {
    && (forall j, k :: j in pending && k in pending && pending[j] == pending[k] ==> j == k)
    && (forall j, k :: j in processing && k in processing && processing[j] == processing[k] ==> j == k)
    && (forall j, k :: j in pending && k in processing ==> pending[j] != processing[k])
  }

  class IndexerDelayingQueue<I, K(==,!new)> {
    const ops: Ops<I, K>
    var knownPrepareEntries: map<K, WaitEntry<I>>
    var processingEntries: map<K, WaitEntry<I>>
    var dirty: set<K>
    var queue: seq<K>
    var shuttingDown: bool
    var drain: bool

    ghost function Value(): Core<I, K>
      reads this, knownPrepareEntries.Values, processingEntries.Values
    {
      Core(Entries(knownPrepareEntries), Entries(processingEntries), dirty, queue, shuttingDown, drain)
    }

    ghost predicate Valid()
      reads this, knownPrepareEntries.Values, processingEntries.Values
    {
      Inv(ops, Value()) && Separate(knownPrepareEntries, processingEntries)
    }

    constructor (ops: Ops<I, K>)
      ensures Valid() && this.ops == ops && Value() == Empty()
    {
      this.ops := ops;
      knownPrepareEntries, processingEntries, dirty, queue := map[], map[], {}, [];
      shuttingDown, drain := false, false;
    }

    /** Merge an item into the pending entry, in place. */
    method MergeInto(key: K, item: I, readyAt: int) returns (sooner: bool)
      requires Separate(knownPrepareEntries, processingEntries) && key in knownPrepareEntries
      modifies knownPrepareEntries[key]
      ensures Entries(knownPrepareEntries) ==
        old(Entries(knownPrepareEntries))[key := Merged(ops, old(Entries(knownPrepareEntries))[key], item, readyAt)]
      ensures Entries(processingEntries) == old(Entries(processingEntries))
      ensures sooner == (readyAt < old(Entries(knownPrepareEntries))[key].readyAt)
    {
      var waitItem := knownPrepareEntries[key];
      if ops.compared(waitItem.data) && ops.lessOrEqual(waitItem.data, item) {
        waitItem.data := item;
      }
      sooner := waitItem.readyAt > readyAt;
      if sooner {
        waitItem.readyAt := readyAt;
      }
    }

    method Create(key: K, item: I, readyAt: int)
      requires Separate(knownPrepareEntries, processingEntries)
      modifies this`knownPrepareEntries
      ensures Separate(knownPrepareEntries, processingEntries)
      ensures Entries(knownPrepareEntries) == old(Entries(knownPrepareEntries))[key := Entry(item, readyAt)]
      ensures Entries(processingEntries) == old(Entries(processingEntries))
    {
      var entry := new WaitEntry(item, readyAt);
      knownPrepareEntries := knownPrepareEntries[key := entry];
    }

    /** The locked part of AddAfter. */
    method Offer(key: K, item: I, readyAt: int) returns (needPush: bool)
      requires Valid() && ops.key(item) == Some(key)
      modifies this`knownPrepareEntries, knownPrepareEntries.Values
      ensures Valid() && Value() == Offered(ops, old(Value()), key, item, readyAt)
      ensures needPush == NeedsPush(ops, old(Value()), key, item, readyAt)
    {
      OfferKeepsInv(ops, Value(), key, item, readyAt);
      if shuttingDown { return false; }
      if key in knownPrepareEntries {
        needPush := MergeInto(key, item, readyAt);
        return;
      }
      if key in processingEntries {
        var o := processingEntries[key].data;
        if ops.compared(o) && !ops.lessOrEqual(o, item) {
          return false;
        }
      }
      Create(key, item, readyAt);
      needPush := true;
    }

    method Push(key: K, now: int) returns (signal: bool)
      requires Valid()
      modifies this`dirty, this`queue
      ensures Valid() && Value() == Pushed(old(Value()), key, now)
      ensures signal == PushEnqueues(old(Value()), key, now)
    {
      if shuttingDown || key !in knownPrepareEntries { return false; }
      if knownPrepareEntries[key].readyAt > now { return false; }
      if key in dirty { return false; }
      dirty := dirty + {key};
      if key !in processingEntries {
        queue := queue + [key];
        signal := true;
      } else {
        signal := false;
      }
      assert Value() == Pushed(old(Value()), key, now);
      PushKeepsInv(ops, old(Value()), key, now);
    }

    /** Move the pending entry of `key`, the object itself, to the processing table. */
    method Move(key: K) returns (item: I)
      requires Separate(knownPrepareEntries, processingEntries) && key in knownPrepareEntries
      modifies this`knownPrepareEntries, this`processingEntries
      ensures Separate(knownPrepareEntries, processingEntries)
      ensures Entries(knownPrepareEntries) == old(Entries(knownPrepareEntries)) - {key}
      ensures Entries(processingEntries) == old(Entries(processingEntries))[key := old(Entries(knownPrepareEntries))[key]]
      ensures item == old(Entries(knownPrepareEntries))[key].data
    {
      var entry := knownPrepareEntries[key];
      processingEntries := processingEntries[key := entry];
      knownPrepareEntries := knownPrepareEntries - {key};
      item := entry.data;
    }

    /** One pass of Get's wait loop. The entry always exists. */
    method Get() returns (r: WorkQueue.GetResult<I>)
      requires Valid()
      modifies this`queue, this`dirty, this`knownPrepareEntries, this`processingEntries
      ensures Valid()
      ensures r.MustWait? <==> old(queue) == [] && !old(shuttingDown)
      ensures r.ShutDownSeen? <==> old(queue) == [] && old(shuttingDown)
      ensures old(queue) == [] ==> Value() == old(Value())
      ensures old(queue) != [] ==>
        && old(queue)[0] in old(Value()).pending && old(queue)[0] !in old(Value()).processing
        && r == WorkQueue.Item(old(Value()).pending[old(queue)[0]].data)
        && Value() == Taken(old(Value()))
    {
      if queue == [] {
        return if shuttingDown then WorkQueue.ShutDownSeen else WorkQueue.MustWait;
      }
      HeadIsPending(ops, Value());
      GetKeepsInv(ops, Value());
      var key := queue[0];
      queue := queue[1..];
      dirty := dirty - {key};
      var item := Move(key);
      r := WorkQueue.Item(item);
      assert Value() == Taken(old(Value()));
    }

    /** The locked part of Done. */
    method Release(key: K) returns (signal: bool)
      requires Separate(knownPrepareEntries, processingEntries)
      modifies this`queue, this`processingEntries
      ensures Separate(knownPrepareEntries, processingEntries)
      ensures Value() == Finished(old(Value()), key) && signal == DoneSignals(old(Value()), key)
    {
      EntriesWithout(processingEntries, key);
      processingEntries := processingEntries - {key};
      if key in dirty {
        queue := queue + [key];
        signal := true;
      } else {
        signal := processingEntries == map[];
      }
    }

    method Done(item: I) returns (signal: bool, signalAdd: bool)
      requires Valid()
      modifies this`queue, this`processingEntries
      ensures ops.key(item).None? ==> Valid() && Value() == old(Value()) && !signal && !signalAdd
      ensures ops.key(item).Some? ==>
        && Value() == Finished(old(Value()), ops.key(item).value)
        && signal == DoneSignals(old(Value()), ops.key(item).value) && signalAdd
        && (Valid() <==> ops.key(item).value in old(Value()).processing || ops.key(item).value !in old(dirty))
    {
      if ops.key(item).None? { return false, false; }
      var key := ops.key(item).value;
      DoneKeepsInv(ops, Value(), key);
      signal := Release(key);
      signalAdd := true;
    }
  }
}
