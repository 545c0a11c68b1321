/** Delivery history of the time source: every item at most once, in time order. */
module TimeSourceHistory {
  import opened TimeSource
  import opened TimeSourceFlags

  /** The item with identifier `i`. */
  function ItemAt(s: State, i: nat): Item
    requires i < |s.inserted|
  {
    Item(i, s.inserted[i].when)
  }

  predicate PoppedId(popped: seq<Pop>, i: nat) {
    exists k :: 0 <= k < |popped| && popped[k].item.id == i
  }

  predicate StartedId(started: seq<Start>, i: nat) {
    exists k :: 0 <= k < |started| && started[k].item.id == i
  }

  /** An item in the heap of queue `q` was inserted there, is there once and has not been popped. */
  ghost predicate HeapItem(s: State, q: nat, x: Item)
    requires q < |s.queues|
  {
    && x.id < |s.inserted| && s.inserted[x.id] == Insertion(q, x.when)
    && s.queues[q].heap[x] == 1 && !PoppedId(s.popped, x.id)
  }

  /** An inserted item is in the heap of its queue or has been popped. */
  ghost predicate Accounted(s: State, i: nat)
    requires i < |s.inserted|
  {
    && s.inserted[i].queue < |s.queues|
    && (ItemAt(s, i) in s.queues[s.inserted[i].queue].heap || PoppedId(s.popped, i))
  }

  /** The heaps hold exactly the inserted items that have not been popped, each once. */
  ghost predicate Stored(s: State) {
    && (forall q, x :: 0 <= q < |s.queues| && x in s.queues[q].heap ==> HeapItem(s, q, x))
    && (forall i :: 0 <= i < |s.inserted| ==> Accounted(s, i))
  }

  /** Item `i` belongs to the queue of pop `k` and is due before the popped item. */
  predicate Sooner(s: State, i: nat, k: nat)
    requires i < |s.inserted| && k < |s.popped|
  {
    s.inserted[i].queue == s.popped[k].queue && s.inserted[i].when < s.popped[k].item.when
  }

  /** Pops: real items, each at most once, and in time order among what had been inserted. */
  ghost predicate Pops(s: State) {
    && (forall k :: 0 <= k < |s.popped| ==>
          && s.popped[k].item.id < s.popped[k].insertedBefore <= |s.inserted|
          && s.inserted[s.popped[k].item.id] == Insertion(s.popped[k].queue, s.popped[k].item.when))
    && (forall j, k :: 0 <= j < k < |s.popped| ==> s.popped[j].item.id != s.popped[k].item.id)
    && (forall k, i :: 0 <= k < |s.popped| && 0 <= i < s.popped[k].insertedBefore && Sooner(s, i, k) ==>
          PoppedId(s.popped[..k], i))
  }

  predicate PoppedAfter(popped: seq<Pop>, j: int, k: int) {
    0 <= j < k < |popped| && popped[j].queue == popped[k].queue
  }

  /** Starts: popped items, not before their time, in the order in which their queue popped them. */
  ghost predicate Starts(s: State) {
    && (forall b :: 0 <= b < |s.started| ==> s.started[b].item.when <= s.started[b].at <= s.now)
    && (forall a, b :: 0 <= a < b < |s.started| ==> s.started[a].item.id != s.started[b].item.id)
    && (forall b :: 0 <= b < |s.started| ==> StartOfPop(s, b))
    && (forall j, k :: PoppedAfter(s.popped, j, k) ==>
          StartedId(s.started, s.popped[j].item.id))
    && (forall b, j, k ::
          0 <= b < |s.started| && PoppedAfter(s.popped, j, k) && s.popped[k].item == s.started[b].item ==>
          StartedId(s.started[..b], s.popped[j].item.id))
  }

  predicate StartOfPop(s: State, b: nat)
    requires b < |s.started|
  {
    exists k :: 0 <= k < |s.popped| && s.popped[k].item == s.started[b].item && s.popped[k].queue == s.started[b].queue
  }

  /** A popped item has started or some receiver of its queue is sleeping until its time. */
  predicate PopHandled(s: State, k: nat)
    requires k < |s.popped|
  {
    StartedId(s.started, s.popped[k].item.id) || Sleeper(s, s.popped[k].queue, s.popped[k].item)
  }

  predicate Sleeper(s: State, q: nat, x: Item) {
    exists t :: 0 <= t < |s.tasks| && s.tasks[t].queue == q && s.tasks[t].pc.Sleeping? && s.tasks[t].pc.item == x
  }

  ghost predicate Handled(s: State) {
    && (forall k :: 0 <= k < |s.popped| ==> PopHandled(s, k))
    && (forall t :: 0 <= t < |s.tasks| && s.tasks[t].pc.Sleeping? ==>
          && !StartedId(s.started, s.tasks[t].pc.item.id)
          && SleepingPop(s, t))
  }

  predicate SleepingPop(s: State, t: nat)
    requires t < |s.tasks| && s.tasks[t].pc.Sleeping?
  {
    exists k :: 0 <= k < |s.popped| && s.popped[k].item == s.tasks[t].pc.item && s.popped[k].queue == s.tasks[t].queue
  }

  ghost predicate History(s: State) {
    Stored(s) && Pops(s) && Starts(s) && Handled(s)
  }

  lemma InitHistory(now: int)
    ensures History(Init(now))
  {
  }

  // --- Steps that change no history ---

  /** Heaps, history, sleeping receivers stay; the clock may advance. */
  lemma HistoryFrame(s: State, s': State)
    requires History(s)
    requires |s'.queues| >= |s.queues|
    requires forall q :: 0 <= q < |s.queues| ==> s'.queues[q].heap == s.queues[q].heap
    requires forall q :: |s.queues| <= q < |s'.queues| ==> s'.queues[q].heap == multiset{}
    requires s'.inserted == s.inserted && s'.popped == s.popped && s'.started == s.started && s'.now >= s.now
    requires |s'.tasks| >= |s.tasks|
    requires forall t :: 0 <= t < |s.tasks| && s.tasks[t].pc.Sleeping? ==> s'.tasks[t] == s.tasks[t]
    requires forall t :: 0 <= t < |s'.tasks| && s'.tasks[t].pc.Sleeping? ==> t < |s.tasks| && s.tasks[t] == s'.tasks[t]
    ensures History(s')
  {
    forall q, x | 0 <= q < |s'.queues| && x in s'.queues[q].heap ensures HeapItem(s', q, x) {
      assert HeapItem(s, q, x);
    }
    forall i | 0 <= i < |s'.inserted| ensures Accounted(s', i) {
      assert Accounted(s, i);
    }
    FrameStartsHandled(s, s');
  }

  lemma FrameStartsHandled(s: State, s': State)
    requires Starts(s) && Handled(s)
    requires s'.inserted == s.inserted && s'.popped == s.popped && s'.started == s.started && s'.now >= s.now
    requires |s'.tasks| >= |s.tasks|
    requires forall t :: 0 <= t < |s.tasks| && s.tasks[t].pc.Sleeping? ==> s'.tasks[t] == s.tasks[t]
    requires forall t :: 0 <= t < |s'.tasks| && s'.tasks[t].pc.Sleeping? ==> t < |s.tasks| && s.tasks[t] == s'.tasks[t]
    ensures Starts(s') && Handled(s')
  {
    forall k | 0 <= k < |s'.popped| ensures PopHandled(s', k) {
      assert PopHandled(s, k);
      if Sleeper(s, s.popped[k].queue, s.popped[k].item) {
        var t :| 0 <= t < |s.tasks| && s.tasks[t].queue == s.popped[k].queue && s.tasks[t].pc.Sleeping?
                 && s.tasks[t].pc.item == s.popped[k].item;
        assert s'.tasks[t].pc.Sleeping?;
      }
    }
    forall b | 0 <= b < |s'.started| ensures StartOfPop(s', b) {
      assert StartOfPop(s, b);
    }
    forall t | 0 <= t < |s'.tasks| && s'.tasks[t].pc.Sleeping? ensures SleepingPop(s', t) {
      assert SleepingPop(s, t);
    }
  }

  // --- Insertions ---

  lemma StoredInsert(s: State, q: nat, when: int)
    requires Stored(s) && Pops(s) && q < |s.queues| && !s.joined
    ensures Stored(InsertStep(s, q, when))
  {
    var s' := InsertStep(s, q, when);
    var item := Item(|s.inserted|, when);
    assert !PoppedId(s.popped, item.id);
    assert item !in s.queues[q].heap;
    forall r, x | 0 <= r < |s'.queues| && x in s'.queues[r].heap ensures HeapItem(s', r, x) {
      if x in s.queues[r].heap { assert HeapItem(s, r, x); }
    }
    forall i | 0 <= i < |s'.inserted| ensures Accounted(s', i) {
      if i < |s.inserted| { assert Accounted(s, i) && ItemAt(s', i) == ItemAt(s, i); }
    }
  }

  lemma PopsInsert(s: State, q: nat, when: int)
    requires Pops(s) && q < |s.queues| && !s.joined
    ensures Pops(InsertStep(s, q, when))
  {
  }

  lemma HistoryInsert(s: State, q: nat, when: int)
    requires History(s) && q < |s.queues| && !s.joined
    ensures History(InsertStep(s, q, when))
  {
    StoredInsert(s, q, when);
    PopsInsert(s, q, when);
    InsertStartsHandled(s, q, when);
  }

  lemma InsertStartsHandled(s: State, q: nat, when: int)
    requires Starts(s) && Handled(s) && q < |s.queues| && !s.joined
    ensures Starts(InsertStep(s, q, when)) && Handled(InsertStep(s, q, when))
  {
    var s' := InsertStep(s, q, when);
    forall b | 0 <= b < |s'.started| ensures StartOfPop(s', b) {
      assert StartOfPop(s, b);
    }
    forall k | 0 <= k < |s'.popped| ensures PopHandled(s', k) {
      assert PopHandled(s, k);
    }
    forall t | 0 <= t < |s'.tasks| && s'.tasks[t].pc.Sleeping? ensures SleepingPop(s', t) {
      assert SleepingPop(s, t);
    }
  }

  // --- Pops ---

  /** The state after task `k` pops `top` from its queue, with `items_` set to `items`. */
  ghost function PopState(s: State, k: nat, start: int, top: Item, items: int): State
    requires k < |s.tasks| && s.tasks[k].queue < |s.queues|
  {
    var q := s.tasks[k].queue;
    s.(items := items,
       queues := s.queues[q := s.queues[q].(heap := s.queues[q].heap - multiset{top})],
       tasks := s.tasks[k := Task(q, Sleeping(start, top))],
       popped := s.popped + [Pop(q, top, |s.inserted|)])
  }

  predicate TopOf(s: State, k: nat, top: Item) {
    k < |s.tasks| && s.tasks[k].queue < |s.queues| && IsTop(s.queues[s.tasks[k].queue].heap, top)
  }

  ghost predicate CanPop(s: State, k: nat, top: Item) {
    Flags(s) && TopOf(s, k, top) && s.tasks[k].Active() && !s.tasks[k].pc.Sleeping?
  }

  lemma PoppedIdGrows(popped: seq<Pop>, p: Pop, i: nat)
    ensures PoppedId(popped + [p], i) <==> PoppedId(popped, i) || p.item.id == i
  {
    var both := popped + [p];
    if PoppedId(popped, i) {
      var k :| 0 <= k < |popped| && popped[k].item.id == i;
      assert both[k].item.id == i;
    }
    if p.item.id == i { assert both[|popped|].item.id == i; }
  }

  lemma TopIsNew(s: State, k: nat, top: Item)
    requires Stored(s) && TopOf(s, k, top)
    ensures top.id < |s.inserted| && s.inserted[top.id] == Insertion(s.tasks[k].queue, top.when)
    ensures !PoppedId(s.popped, top.id)
    ensures s.queues[s.tasks[k].queue].heap[top] == 1
    ensures forall i ::
              0 <= i < |s.inserted| && s.inserted[i].queue == s.tasks[k].queue && s.inserted[i].when < top.when
              ==> PoppedId(s.popped, i)
  {
    assert HeapItem(s, s.tasks[k].queue, top);
    forall i | 0 <= i < |s.inserted| && s.inserted[i].queue == s.tasks[k].queue && s.inserted[i].when < top.when
      ensures PoppedId(s.popped, i)
    {
      assert Accounted(s, i);
      assert ItemAt(s, i) !in s.queues[s.tasks[k].queue].heap;
    }
  }

  lemma StoredPop(s: State, k: nat, start: int, top: Item, items: int)
    requires Stored(s) && TopOf(s, k, top)
    ensures Stored(PopState(s, k, start, top, items))
  {
    var s' := PopState(s, k, start, top, items);
    var p := Pop(s.tasks[k].queue, top, |s.inserted|);
    assert HeapItem(s, s.tasks[k].queue, top);
    forall q, x | 0 <= q < |s'.queues| && x in s'.queues[q].heap ensures HeapItem(s', q, x) {
      assert HeapItem(s, q, x);
      PoppedIdGrows(s.popped, p, x.id);
    }
    forall i | 0 <= i < |s'.inserted| ensures Accounted(s', i) {
      assert Accounted(s, i) && ItemAt(s', i) == ItemAt(s, i);
      PoppedIdGrows(s.popped, p, i);
    }
  }

  lemma PopsPop(s: State, k: nat, start: int, top: Item, items: int)
    requires Pops(s) && k < |s.tasks| && s.tasks[k].queue < |s.queues|
    requires top.id < |s.inserted| && s.inserted[top.id] == Insertion(s.tasks[k].queue, top.when)
    requires !PoppedId(s.popped, top.id)
    requires forall i ::
               0 <= i < |s.inserted| && s.inserted[i].queue == s.tasks[k].queue && s.inserted[i].when < top.when
               ==> PoppedId(s.popped, i)
    ensures Pops(PopState(s, k, start, top, items))
  {
    var s' := PopState(s, k, start, top, items);
    var n := |s.popped|;
    assert s'.popped[..n] == s.popped;
    forall m, i | 0 <= m < |s'.popped| && 0 <= i < s'.popped[m].insertedBefore && Sooner(s', i, m)
      ensures PoppedId(s'.popped[..m], i)
    {
      if m < n {
        assert Sooner(s, i, m);
        assert s'.popped[..m] == s.popped[..m];
      }
    }
  }

  /** Only one receiver works on a queue, so when it pops nobody sleeps on that queue. */
  lemma AllStarted(s: State, k: nat, top: Item, j: nat)
    requires CanPop(s, k, top) && Handled(s)
    requires j < |s.popped| && s.popped[j].queue == s.tasks[k].queue
    ensures StartedId(s.started, s.popped[j].item.id)
  {
    assert PopHandled(s, j);
    if Sleeper(s, s.popped[j].queue, s.popped[j].item) {
      assert false;
    }
  }

  lemma StartedWasPopped(s: State, i: nat)
    requires Starts(s)
    ensures StartedId(s.started, i) ==> PoppedId(s.popped, i)
  {
    if StartedId(s.started, i) {
      var b :| 0 <= b < |s.started| && s.started[b].item.id == i;
      assert StartOfPop(s, b);
      var k :| 0 <= k < |s.popped| && s.popped[k].item == s.started[b].item;
      assert s.popped[k].item.id == i;
    }
  }

  lemma StartsPop(s: State, k: nat, start: int, top: Item, items: int)
    requires Starts(s) && Handled(s) && CanPop(s, k, top) && !PoppedId(s.popped, top.id)
    ensures Starts(PopState(s, k, start, top, items))
  {
    var s' := PopState(s, k, start, top, items);
    var n := |s.popped|;
    forall b | 0 <= b < |s'.started| ensures StartOfPop(s', b) {
      assert StartOfPop(s, b);
      var m :| 0 <= m < n && s.popped[m].item == s.started[b].item && s.popped[m].queue == s.started[b].queue;
      assert s'.popped[m] == s.popped[m];
    }
    forall j, m | PoppedAfter(s'.popped, j, m) ensures StartedId(s'.started, s'.popped[j].item.id) {
      if m < n { assert PoppedAfter(s.popped, j, m); } else { AllStarted(s, k, top, j); }
    }
    StartedWasPopped(s, top.id);
    forall b, j, m | 0 <= b < |s'.started| && PoppedAfter(s'.popped, j, m) && s'.popped[m].item == s'.started[b].item
      ensures StartedId(s'.started[..b], s'.popped[j].item.id)
    {
      if m < n { assert PoppedAfter(s.popped, j, m); }
    }
  }

  lemma HandledPop(s: State, k: nat, start: int, top: Item, items: int)
    requires Starts(s) && Handled(s) && CanPop(s, k, top) && !PoppedId(s.popped, top.id)
    ensures Handled(PopState(s, k, start, top, items))
  {
    var s' := PopState(s, k, start, top, items);
    var n := |s.popped|;
    StartedWasPopped(s, top.id);
    forall m | 0 <= m < |s'.popped| ensures PopHandled(s', m) {
      if m < n {
        assert PopHandled(s, m);
        if Sleeper(s, s.popped[m].queue, s.popped[m].item) {
          var t :| 0 <= t < |s.tasks| && s.tasks[t].queue == s.popped[m].queue && s.tasks[t].pc.Sleeping?
                   && s.tasks[t].pc.item == s.popped[m].item;
          assert s'.tasks[t] == s.tasks[t];
        }
      } else {
        assert s'.tasks[k] == Task(s.tasks[k].queue, Sleeping(start, top));
      }
    }
    forall t | 0 <= t < |s'.tasks| && s'.tasks[t].pc.Sleeping? ensures SleepingPop(s', t) {
      if t == k {
        assert s'.popped[n].item == top;
      } else {
        assert SleepingPop(s, t);
        var m :| 0 <= m < n && s.popped[m].item == s.tasks[t].pc.item && s.popped[m].queue == s.tasks[t].queue;
        assert s'.popped[m] == s.popped[m];
      }
    }
  }

  lemma HistoryPop(s: State, k: nat, start: int, top: Item, items: int)
    requires History(s) && CanPop(s, k, top)
    ensures History(PopState(s, k, start, top, items))
  {
    TopIsNew(s, k, top);
    StoredPop(s, k, start, top, items);
    PopsPop(s, k, start, top, items);
    StartsPop(s, k, start, top, items);
    HandledPop(s, k, start, top, items);
  }

  // --- Starts ---

  lemma StartedIdGrows(started: seq<Start>, x: Start, i: nat)
    ensures StartedId(started + [x], i) <==> StartedId(started, i) || x.item.id == i
  {
    var both := started + [x];
    if StartedId(started, i) {
      var k :| 0 <= k < |started| && started[k].item.id == i;
      assert both[k].item.id == i;
    }
    if x.item.id == i { assert both[|started|].item.id == i; }
  }

  lemma StartsStart(s: State, k: nat)
    requires Starts(s) && Handled(s) && Enabled(s, StartItem(k))
    ensures Starts(StartStep(s, k))
  {
    var s' := StartStep(s, k);
    var n := |s.started|;
    var x := Start(s.tasks[k].queue, s.tasks[k].pc.item, s.now);
    assert s'.started == s.started + [x];
    assert SleepingPop(s, k);
    forall a | 0 <= a < n ensures s.started[a].item.id != x.item.id {
    }
    forall b | 0 <= b < |s'.started| ensures StartOfPop(s', b) {
      if b < n { assert StartOfPop(s, b); }
    }
    forall j, m | PoppedAfter(s'.popped, j, m) ensures StartedId(s'.started, s'.popped[j].item.id) {
      assert PoppedAfter(s.popped, j, m);
      StartedIdGrows(s.started, x, s.popped[j].item.id);
    }
    forall b, j, m | 0 <= b < |s'.started| && PoppedAfter(s'.popped, j, m) && s'.popped[m].item == s'.started[b].item
      ensures StartedId(s'.started[..b], s'.popped[j].item.id)
    {
      assert PoppedAfter(s.popped, j, m);
      if b < n { assert s'.started[..b] == s.started[..b]; } else { assert s'.started[..n] == s.started; }
    }
  }

  /** Two receivers never sleep on the same item. */
  lemma SleepersDiffer(s: State, k: nat, t: nat)
    requires Flags(s) && Pops(s) && Handled(s)
    requires k < |s.tasks| && t < |s.tasks| && k != t && s.tasks[k].pc.Sleeping? && s.tasks[t].pc.Sleeping?
    ensures s.tasks[k].pc.item.id != s.tasks[t].pc.item.id
  {
  }

  lemma HandledStart(s: State, k: nat)
    requires Flags(s) && Pops(s) && Handled(s) && Enabled(s, StartItem(k))
    ensures Handled(StartStep(s, k))
  {
    var s' := StartStep(s, k);
    var x := Start(s.tasks[k].queue, s.tasks[k].pc.item, s.now);
    forall m | 0 <= m < |s'.popped| ensures PopHandled(s', m) {
      assert PopHandled(s, m);
      StartedIdGrows(s.started, x, s.popped[m].item.id);
      if Sleeper(s, s.popped[m].queue, s.popped[m].item) {
        var t :| 0 <= t < |s.tasks| && s.tasks[t].queue == s.popped[m].queue && s.tasks[t].pc.Sleeping?
                 && s.tasks[t].pc.item == s.popped[m].item;
        if t != k { assert s'.tasks[t] == s.tasks[t]; }
      }
    }
    forall t | 0 <= t < |s'.tasks| && s'.tasks[t].pc.Sleeping?
      ensures SleepingPop(s', t) && !StartedId(s'.started, s'.tasks[t].pc.item.id)
    {
      assert t != k && s'.tasks[t] == s.tasks[t];
      assert SleepingPop(s, t);
      SleepersDiffer(s, k, t);
      StartedIdGrows(s.started, x, s.tasks[t].pc.item.id);
    }
  }

  lemma HistoryStart(s: State, k: nat)
    requires History(s) && Flags(s) && Enabled(s, StartItem(k))
    ensures History(StartStep(s, k))
  {
    StartsStart(s, k);
    HandledStart(s, k);
    var s' := StartStep(s, k);
    forall q, x | 0 <= q < |s'.queues| && x in s'.queues[q].heap ensures HeapItem(s', q, x) {
      assert HeapItem(s, q, x);
    }
    forall i | 0 <= i < |s'.inserted| ensures Accounted(s', i) {
      assert Accounted(s, i) && ItemAt(s', i) == ItemAt(s, i);
    }
    forall m, i | 0 <= m < |s'.popped| && 0 <= i < s'.popped[m].insertedBefore && Sooner(s', i, m)
      ensures PoppedId(s'.popped[..m], i)
    {
      assert Sooner(s, i, m);
    }
  }

  // --- All steps ---

  /** A receiver that returns from its loop. */
  lemma HistoryStop(s: State, k: nat, s': State)
    requires History(s) && k < |s.tasks| && !s.tasks[k].pc.Sleeping?
    requires s' == s.(items := s'.items, dirty := s'.dirty, tasks := s.tasks[k := Task(s.tasks[k].queue, Drained)])
    ensures History(s')
  {
    HistoryFrame(s, s');
  }

  lemma HistoryEnter(s: State, k: nat, start: int, top: Item)
    requires History(s) && Flags(s) && Enabled(s, Enter(k, start, top))
    ensures History(EnterStep(s, k, start, top))
  {
    var q := s.tasks[k].queue;
    if s.queues[q].heap != multiset{} && top.when <= start {
      HistoryPop(s, k, start, top, s.items);
    } else {
      HistoryStop(s, k, EnterStep(s, k, start, top));
    }
  }

  lemma HistoryFinish(s: State, k: nat, top: Item)
    requires History(s) && Flags(s) && Enabled(s, FinishItem(k, top))
    ensures History(Next(s, FinishItem(k, top)))
  {
    var q := s.tasks[k].queue;
    if s.queues[q].heap != multiset{} && top.when <= s.tasks[k].pc.start {
      HistoryPop(s, k, s.tasks[k].pc.start, top, s.items - 1);
    } else {
      HistoryStop(s, k, Next(s, FinishItem(k, top)));
    }
  }

  lemma HistoryWorker(s: State, order: seq<nat>)
    requires History(s) && Placed(s) && Enabled(s, WorkerLoop(order))
    ensures History(WorkerStep(s, order))
  {
    if WorkerStep(s, order).worker == Dispatching { WorkerSelects(s, order); }
    HistoryFrame(s, WorkerStep(s, order));
  }

  lemma HistoryLeave(s: State, k: nat, garbage: int)
    requires History(s) && Enabled(s, LeaveQueue(k, garbage))
    ensures History(LeaveStep(s, k, garbage))
  {
    HistoryFrame(s, LeaveStep(s, k, garbage));
  }

  lemma HistoryQuiet(s: State, act: Action)
    requires History(s) && Enabled(s, act) && (act.Tick? || act.AddQueue? || act.Join? || act.Dispatch?)
    ensures History(Next(s, act))
  {
    HistoryFrame(s, Next(s, act));
  }

  lemma HistoryStep(s: State, act: Action)
    requires History(s) && Flags(s) && Enabled(s, act) && (act.Insert? ==> !s.joined)
    ensures History(Next(s, act))
  {
    match act
    case Insert(q, when, _) => HistoryInsert(s, q, when);
    case WorkerLoop(order) => HistoryWorker(s, order);
    case Enter(k, start, top) => HistoryEnter(s, k, start, top);
    case StartItem(k) => HistoryStart(s, k);
    case FinishItem(k, top) => HistoryFinish(s, k, top);
    case LeaveQueue(k, garbage) => HistoryLeave(s, k, garbage);
    case _ => HistoryQuiet(s, act);
  }
}
