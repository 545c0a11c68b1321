/** Flags of the time source: which queue is where, at every release of the lock. */
module TimeSourceFlags {
  import opened TimeSource

  ghost predicate Distinct(s: seq<nat>) {
    forall x :: multiset(s)[x] <= 1
  }

  predicate Draining(s: State, q: nat) {
    exists k :: 0 <= k < |s.tasks| && s.tasks[k].queue == q && s.tasks[k].Active()
  }

  /** Queue indices are in range and each list names a queue at most once. */
  ghost predicate Ranges(s: State) {
    && (forall q :: q in s.pending ==> q < |s.queues|)
    && (forall q :: q in s.ready ==> q < |s.queues|)
    && (forall k :: 0 <= k < |s.tasks| ==> s.tasks[k].queue < |s.queues|)
    && Distinct(s.pending) && Distinct(s.ready)
  }

  /** `pending_` of a queue says that it is in the source's deque, `dispatching_` excludes it, a
      non-empty queue has one of the two flags, and queues picked by the worker are dispatching. */
  ghost predicate Placed(s: State) {
    && Ranges(s)
    && (forall q :: 0 <= q < |s.queues| ==> (s.queues[q].pending <==> q in s.pending))
    && (forall q :: 0 <= q < |s.queues| ==> !(s.queues[q].pending && s.queues[q].dispatching))
    && (forall q :: 0 <= q < |s.queues| && s.queues[q].heap != multiset{} ==>
          s.queues[q].pending || s.queues[q].dispatching)
    && (forall q :: q in s.ready ==> s.queues[q].dispatching && s.queues[q].heap != multiset{})
    && (s.ready != [] ==> s.worker == Dispatching)
  }

  /** A dispatching queue is still to be dispatched or has exactly one receiver at work. */
  ghost predicate Served(s: State)
    requires Ranges(s)
  {
    && (forall k :: 0 <= k < |s.tasks| && s.tasks[k].Active() ==>
          s.queues[s.tasks[k].queue].dispatching && s.tasks[k].queue !in s.ready)
    && (forall k, l :: 0 <= k < l < |s.tasks| && s.tasks[k].Active() && s.tasks[l].Active() ==>
          s.tasks[k].queue != s.tasks[l].queue)
    && (forall q :: 0 <= q < |s.queues| && s.queues[q].dispatching ==> q in s.ready || Draining(s, q))
    && (forall k :: 0 <= k < |s.tasks| && s.tasks[k].pc == Dispatched ==>
          s.queues[s.tasks[k].queue].heap != multiset{})
  }

  ghost predicate Flags(s: State) {
    !s.terminated && Placed(s) && Served(s)
  }

  lemma InitFlags(now: int)
    ensures Flags(Init(now))
  {
  }

  // --- The selection in closed form ---

  lemma DistinctTail(s: seq<nat>)
    requires s != [] && Distinct(s)
    ensures Distinct(s[1..]) && s[0] !in s[1..]
  {
    assert s == [s[0]] + s[1..];
    forall x ensures multiset(s[1..])[x] <= 1 {
      assert multiset(s)[x] <= 1;
    }
    assert multiset(s)[s[0]] <= 1;
  }

  lemma {:induction false} SelectQueues(queues: seq<Queue>, order: seq<nat>, start: int, earliest: int)
    requires forall i :: 0 <= i < |order| ==> order[i] < |queues|
    requires Distinct(order)
    ensures var r := Select(queues, order, start, earliest);
            && |r.queues| == |queues|
            && (forall q :: 0 <= q < |queues| ==>
                  r.queues[q] == if q in order then Process(queues[q], start) else queues[q])
    decreases |order|
  {
    if order != [] {
      var q := order[0];
      var p := Process(queues[q], start);
      DistinctTail(order);
      SelectQueues(queues[q := p], order[1..], start, if p.pending then Min(earliest, TopWhen(p.heap)) else earliest);
      assert order == [q] + order[1..];
    }
  }

  lemma DistinctCons(q: nat, s: seq<nat>)
    requires Distinct(s) && q !in s
    ensures Distinct([q] + s)
  {
  }

  lemma {:induction false} SelectMembers(queues: seq<Queue>, order: seq<nat>, start: int, earliest: int)
    requires forall i :: 0 <= i < |order| ==> order[i] < |queues|
    requires Distinct(order)
    ensures var r := Select(queues, order, start, earliest);
            && (forall q :: q in r.kept <==> q in order && Process(queues[q], start).pending)
            && (forall q :: q in r.ready <==> q in order && Process(queues[q], start).dispatching)
    decreases |order|
  {
    if order != [] {
      var q := order[0];
      var p := Process(queues[q], start);
      var e := if p.pending then Min(earliest, TopWhen(p.heap)) else earliest;
      DistinctTail(order);
      SelectMembers(queues[q := p], order[1..], start, e);
      var rest := Select(queues[q := p], order[1..], start, e);
      var r := Select(queues, order, start, earliest);
      assert forall x :: x in order <==> x == q || x in order[1..];
      assert r.kept == if p.pending then [q] + rest.kept else rest.kept;
      assert r.ready == if p.dispatching then [q] + rest.ready else rest.ready;
    }
  }

  lemma {:induction false} SelectLists(queues: seq<Queue>, order: seq<nat>, start: int, earliest: int)
    requires forall i :: 0 <= i < |order| ==> order[i] < |queues|
    requires Distinct(order)
    ensures var r := Select(queues, order, start, earliest);
            && Distinct(r.kept) && Distinct(r.ready)
            && (forall q :: q in r.kept <==> q in order && Process(queues[q], start).pending)
            && (forall q :: q in r.ready <==> q in order && Process(queues[q], start).dispatching)
    decreases |order|
  {
    SelectMembers(queues, order, start, earliest);
    if order != [] {
      var q := order[0];
      var p := Process(queues[q], start);
      var e := if p.pending then Min(earliest, TopWhen(p.heap)) else earliest;
      DistinctTail(order);
      SelectLists(queues[q := p], order[1..], start, e);
      var rest := Select(queues[q := p], order[1..], start, e);
      assert q !in rest.kept && q !in rest.ready;
      DistinctCons(q, rest.kept);
      DistinctCons(q, rest.ready);
    }
  }

  /** `earliest` becomes the minimum of its initial value and the top times of the kept queues. */
  lemma {:induction false} SelectEarliest(queues: seq<Queue>, order: seq<nat>, start: int, earliest: int)
    requires forall i :: 0 <= i < |order| ==> order[i] < |queues|
    requires Distinct(order)
    ensures var r := Select(queues, order, start, earliest);
            && r.earliest <= earliest
            && (forall q :: q in r.kept ==>
                  q in order && queues[q].heap != multiset{} && r.earliest <= TopWhen(queues[q].heap))
    decreases |order|
  {
    if order != [] {
      var q := order[0];
      var p := Process(queues[q], start);
      DistinctTail(order);
      SelectEarliest(queues[q := p], order[1..], start, if p.pending then Min(earliest, TopWhen(p.heap)) else earliest);
      assert order == [q] + order[1..];
    }
  }

  lemma {:induction false} SelectEarliestAttained(queues: seq<Queue>, order: seq<nat>, start: int, earliest: int)
    requires forall i :: 0 <= i < |order| ==> order[i] < |queues|
    requires Distinct(order)
    ensures var r := Select(queues, order, start, earliest);
            r.earliest == earliest
            || exists q :: q in r.kept && q in order && queues[q].heap != multiset{}
                           && r.earliest == TopWhen(queues[q].heap)
    decreases |order|
  {
    if order != [] {
      var q := order[0];
      var p := Process(queues[q], start);
      var e := if p.pending then Min(earliest, TopWhen(p.heap)) else earliest;
      DistinctTail(order);
      SelectEarliestAttained(queues[q := p], order[1..], start, e);
      var rest := Select(queues[q := p], order[1..], start, e);
      var r := Select(queues, order, start, earliest);
      assert order == [q] + order[1..];
      if rest.earliest != e {
        var x :| x in rest.kept && x in order[1..] && queues[q := p][x].heap != multiset{}
                 && rest.earliest == TopWhen(queues[q := p][x].heap);
        assert x in r.kept && x != q;
      } else if p.pending {
        assert q in r.kept;
      }
    }
  }

  // --- Every step keeps the flags ---

  lemma FlagsAddQueue(s: State)
    requires Flags(s)
    ensures Flags(Next(s, AddQueue))
  {
  }

  lemma DrainingKept(s: State, s': State, q: nat)
    requires Draining(s, q) && |s.tasks| <= |s'.tasks|
    requires forall k :: 0 <= k < |s.tasks| && s.tasks[k].queue == q && s.tasks[k].Active() ==>
               s'.tasks[k].queue == q && s'.tasks[k].Active()
    ensures Draining(s', q)
  {
    var k :| 0 <= k < |s.tasks| && s.tasks[k].queue == q && s.tasks[k].Active();
    assert s'.tasks[k].queue == q;
  }

  lemma DistinctSnoc(s: seq<nat>, q: nat)
    requires Distinct(s) && q !in s
    ensures Distinct(s + [q])
  {
  }

  lemma PlacedInsert(s: State, q: nat, when: int)
    requires Flags(s) && q < |s.queues| && !s.joined
    ensures Placed(InsertStep(s, q, when))
  {
    var s' := InsertStep(s, q, when);
    var x := Item(|s.inserted|, when);
    assert x in s'.queues[q].heap;
    assert forall p :: 0 <= p < |s.queues| && p != q ==> s'.queues[p] == s.queues[p];
    if s.queues[q].dispatching || s.queues[q].pending {
      assert s'.pending == s.pending;
    } else {
      assert s'.pending == s.pending + [q] && s'.queues[q].pending;
      DistinctSnoc(s.pending, q);
    }
  }

  lemma FlagsInsert(s: State, q: nat, when: int)
    requires Flags(s) && q < |s.queues| && !s.joined
    ensures Flags(InsertStep(s, q, when))
  {
    var s' := InsertStep(s, q, when);
    PlacedInsert(s, q, when);
    assert Item(|s.inserted|, when) in s'.queues[q].heap;
    assert s'.tasks == s.tasks;
    forall p | 0 <= p < |s'.queues| && s'.queues[p].dispatching
      ensures p in s'.ready || Draining(s', p)
    {
      if Draining(s, p) { DrainingKept(s, s', p); }
    }
  }

  lemma OrderDistinct(order: seq<nat>, pending: seq<nat>)
    requires multiset(order) == multiset(pending) && Distinct(pending)
    ensures Distinct(order)
    ensures forall q :: q in order <==> q in pending
  {
    forall x ensures multiset(order)[x] <= 1 {
      assert multiset(pending)[x] <= 1;
    }
    forall q ensures q in order <==> q in pending {
      assert q in order <==> q in multiset(order);
      assert q in pending <==> q in multiset(pending);
    }
  }

  /** `queues`, `kept` and `ready` are what a selection at time `now` makes of the queues in the deque:
      the ones with a due item are ready, the ones with only later items are kept, the empty ones
      are dropped; no other queue changes. */
  ghost predicate Selected(s: State, queues: seq<Queue>, kept: seq<nat>, ready: seq<nat>) {
    && |queues| == |s.queues|
    && Distinct(kept) && Distinct(ready)
    && (forall q :: q in ready <==> q in s.pending && q < |s.queues| && Due(s.queues[q], s.now))
    && (forall q :: q in kept <==>
          q in s.pending && q < |s.queues| && s.queues[q].heap != multiset{} && !Due(s.queues[q], s.now))
    && (forall q :: 0 <= q < |s.queues| ==>
          queues[q] == if q in s.pending then Queue(q in ready, q in kept, s.queues[q].heap) else s.queues[q])
  }

  ghost predicate Due(q: Queue, now: int) {
    q.heap != multiset{} && TopWhen(q.heap) <= now
  }

  /** The predicate on a queue of the deque, whose `dispatching` is not set. */
  lemma ProcessPending(s: State, q: nat)
    requires Placed(s) && q in s.pending
    ensures q < |s.queues|
    ensures var queue := s.queues[q];
            Process(queue, s.now)
            == Queue(Due(queue, s.now), queue.heap != multiset{} && !Due(queue, s.now), queue.heap)
  {
    assert s.queues[q].pending;
  }

  lemma SelectionLists(s: State, order: seq<nat>, sel: Selection)
    requires Placed(s) && Distinct(order) && forall q :: q in order <==> q in s.pending
    requires forall i :: 0 <= i < |order| ==> order[i] < |s.queues|
    requires sel == Selecting(s, order)
    ensures Distinct(sel.kept) && Distinct(sel.ready)
    ensures forall q :: q in sel.ready <==> q in s.pending && q < |s.queues| && Due(s.queues[q], s.now)
    ensures forall q :: q in sel.kept <==>
              q in s.pending && q < |s.queues| && s.queues[q].heap != multiset{} && !Due(s.queues[q], s.now)
  {
    SelectLists(s.queues, order, s.now, s.now + LONGEST_WAIT);
    forall q | q in s.pending
      ensures Process(s.queues[q], s.now).dispatching == Due(s.queues[q], s.now)
      ensures Process(s.queues[q], s.now).pending == (s.queues[q].heap != multiset{} && !Due(s.queues[q], s.now))
    {
      ProcessPending(s, q);
    }
  }

  lemma SelectionSelects(s: State, order: seq<nat>)
    requires Placed(s) && Distinct(order) && forall q :: q in order <==> q in s.pending
    requires forall i :: 0 <= i < |order| ==> order[i] < |s.queues|
    ensures var sel := Selecting(s, order);
            Selected(s, sel.queues, sel.kept, sel.ready)
  {
    var sel := Selecting(s, order);
    SelectQueues(s.queues, order, s.now, s.now + LONGEST_WAIT);
    SelectionLists(s, order, sel);
    forall q | 0 <= q < |s.queues|
      ensures sel.queues[q]
              == if q in s.pending then Queue(q in sel.ready, q in sel.kept, s.queues[q].heap) else s.queues[q]
    {
      if q in s.pending { ProcessPending(s, q); }
    }
  }

  /** The elements of `list` that are in `chosen`, in the order of the list. */
  function Pick(list: seq<nat>, chosen: set<nat>): seq<nat> {
    if list == [] then [] else (if list[0] in chosen then [list[0]] else []) + Pick(list[1..], chosen)
  }

  lemma {:induction false} PickAppend(a: seq<nat>, b: seq<nat>, chosen: set<nat>)
    ensures Pick(a + b, chosen) == Pick(a, chosen) + Pick(b, chosen)
  {
    if a == [] {
      assert a + b == b;
    } else {
      var head := if a[0] in chosen then [a[0]] else [];
      assert (a + b)[0] == a[0] && (a + b)[1..] == a[1..] + b;
      PickAppend(a[1..], b, chosen);
      assert Pick(a + b, chosen) == head + (Pick(a[1..], chosen) + Pick(b, chosen));
    }
  }

  lemma {:induction false} PickUniform(list: seq<nat>, chosen: set<nat>)
    ensures (forall q :: q in list ==> q in chosen) ==> Pick(list, chosen) == list
    ensures (forall q :: q in list ==> q !in chosen) ==> Pick(list, chosen) == []
  {
    if list != [] {
      assert list == [list[0]] + list[1..];
      PickUniform(list[1..], chosen);
    }
  }

  /** `kept` and `ready` are the queues the predicate says, all of them among `order`. */
  ghost predicate Classified(queues: seq<Queue>, order: seq<nat>, start: int, kept: set<nat>, ready: set<nat>) {
    forall q :: q in order ==>
      && q < |queues|
      && (q in kept <==> Process(queues[q], start).pending)
      && (q in ready <==> Process(queues[q], start).dispatching)
  }

  lemma ClassifiedTail(queues: seq<Queue>, order: seq<nat>, start: int, kept: set<nat>, ready: set<nat>, p: Queue)
    requires order != [] && Distinct(order) && Classified(queues, order, start, kept, ready)
    ensures order[0] in order && Classified(queues[order[0] := p], order[1..], start, kept, ready)
  {
    DistinctTail(order);
    assert forall q :: q in order[1..] ==> q in order && q != order[0];
  }

  /** Both lists keep the visiting order. */
  lemma {:induction false} SelectPicks(queues: seq<Queue>, order: seq<nat>, start: int, earliest: int,
                                       kept: set<nat>, ready: set<nat>)
    requires Distinct(order) && Classified(queues, order, start, kept, ready)
    requires forall i :: 0 <= i < |order| ==> order[i] < |queues|
    ensures Select(queues, order, start, earliest).kept == Pick(order, kept)
    ensures Select(queues, order, start, earliest).ready == Pick(order, ready)
    decreases |order|
  {
    if order != [] {
      var p := Process(queues[order[0]], start);
      DistinctTail(order);
      ClassifiedTail(queues, order, start, kept, ready, p);
      SelectPicks(queues[order[0] := p], order[1..], start,
                  if p.pending then Min(earliest, TopWhen(p.heap)) else earliest, kept, ready);
    }
  }

  /** `std::partition` may leave its two groups in any order, and so may the selection: a visiting order
      that lists the groups one after the other comes out as it is, however each group is ordered. */
  lemma SelectAnyOrder(queues: seq<Queue>, kept: seq<nat>, ready: seq<nat>, empty: seq<nat>, start: int, earliest: int)
    requires Distinct(kept + ready + empty)
    requires Classified(queues, kept + ready + empty, start, set q | q in kept, set q | q in ready)
    requires forall i :: 0 <= i < |kept + ready + empty| ==> (kept + ready + empty)[i] < |queues|
    ensures Select(queues, kept + ready + empty, start, earliest).kept == kept
    ensures Select(queues, kept + ready + empty, start, earliest).ready == ready
  {
    SelectPicks(queues, kept + ready + empty, start, earliest, set q | q in kept, set q | q in ready);
    PickGroups(kept, ready, empty);
  }

  predicate Apart(a: seq<nat>, b: seq<nat>) {
    forall q :: q in a ==> q !in b
  }

  lemma PickFirst(a: seq<nat>, b: seq<nat>, c: seq<nat>)
    requires Apart(b, a) && Apart(c, a)
    ensures Pick(a + b + c, set q | q in a) == a
  {
    var chosen := set q | q in a;
    PickAppend(a + b, c, chosen);
    PickAppend(a, b, chosen);
    PickUniform(a, chosen);
    PickUniform(b, chosen);
    PickUniform(c, chosen);
  }

  lemma PickSecond(a: seq<nat>, b: seq<nat>, c: seq<nat>)
    requires Apart(a, b) && Apart(c, b)
    ensures Pick(a + b + c, set q | q in b) == b
  {
    var chosen := set q | q in b;
    PickAppend(a + b, c, chosen);
    PickAppend(a, b, chosen);
    PickUniform(a, chosen);
    PickUniform(b, chosen);
    PickUniform(c, chosen);
  }

  lemma PickGroups(a: seq<nat>, b: seq<nat>, c: seq<nat>)
    requires Distinct(a + b + c)
    ensures Pick(a + b + c, set q | q in a) == a && Pick(a + b + c, set q | q in b) == b
  {
    DistinctSplit(a + b, c);
    DistinctSplit(a, b);
    ApartSum(a, b, c);
    PickFirst(a, b, c);
    PickSecond(a, b, c);
  }

  lemma ApartSum(a: seq<nat>, b: seq<nat>, c: seq<nat>)
    requires Apart(a + b, c)
    ensures Apart(c, a) && Apart(c, b)
  {
    forall q | q in c ensures q !in a && q !in b {
      assert q in a || q in b ==> q in a + b;
    }
  }

  lemma DistinctSplit(a: seq<nat>, b: seq<nat>)
    requires Distinct(a + b)
    ensures Distinct(a) && Apart(a, b) && Apart(b, a)
  {
    forall x ensures multiset(a)[x] + multiset(b)[x] <= 1 {
      assert multiset(a + b)[x] <= 1;
    }
    forall q | q in a ensures q !in b {
      assert q in multiset(a);
      assert q in multiset(b) <==> q in b;
    }
  }

  lemma WorkerUnfolds(s: State, order: seq<nat>)
    requires forall i :: 0 <= i < |order| ==> order[i] < |s.queues|
    requires WorkerStep(s, order).worker == Dispatching && (s.worker == Looping || s.worker == Waiting)
    ensures var sel := Selecting(s, order);
            WorkerStep(s, order) == s.(dirty := 0, queues := sel.queues, earliest := sel.earliest,
                                       ready := sel.ready, pending := sel.kept, worker := Dispatching)
  {
  }

  /** The worker's selection, in whatever order `std::partition` visits the deque. */
  lemma WorkerSelects(s: State, order: seq<nat>)
    requires Placed(s) && Enabled(s, WorkerLoop(order))
    requires WorkerStep(s, order).worker == Dispatching
    ensures var s' := WorkerStep(s, order); Selected(s, s'.queues, s'.pending, s'.ready)
  {
    OrderDistinct(order, s.pending);
    SelectionSelects(s, order);
    WorkerUnfolds(s, order);
  }

  lemma PlacedWorker(s: State, order: seq<nat>)
    requires Placed(s) && Enabled(s, WorkerLoop(order))
    ensures Placed(WorkerStep(s, order))
  {
    if WorkerStep(s, order).worker == Dispatching { WorkerSelects(s, order); }
  }

  lemma ServedSelection(s: State, s': State)
    requires Placed(s) && Served(s) && Placed(s')
    requires s.ready == [] && s'.tasks == s.tasks && Selected(s, s'.queues, s'.pending, s'.ready)
    ensures Served(s')
  {
    forall q | 0 <= q < |s'.queues| && s'.queues[q].dispatching
      ensures q in s'.ready || Draining(s', q)
    {
      if Draining(s, q) { DrainingKept(s, s', q); }
    }
  }

  lemma FlagsWorker(s: State, order: seq<nat>)
    requires Flags(s) && Enabled(s, WorkerLoop(order))
    ensures Flags(WorkerStep(s, order))
  {
    var s' := WorkerStep(s, order);
    PlacedWorker(s, order);
    if s'.worker == Dispatching {
      WorkerSelects(s, order);
      ServedSelection(s, s');
    } else {
      forall q | Draining(s, q) ensures Draining(s', q) { DrainingKept(s, s', q); }
    }
  }

  lemma PlacedDispatch(s: State)
    requires Placed(s) && s.worker == Dispatching
    ensures Placed(DispatchStep(s))
  {
    var s' := DispatchStep(s);
    if s.ready != [] {
      DistinctTail(s.ready);
      assert forall q :: q in s'.ready ==> q in s.ready;
      assert s.ready[0] in s.ready;
      assert forall k :: 0 <= k < |s'.tasks| ==>
               s'.tasks[k] == if k < |s.tasks| then s.tasks[k] else Task(s.ready[0], Dispatched);
    }
  }

  lemma DispatchOne(s: State)
    requires Flags(s) && s.ready != [] && Placed(DispatchStep(s))
    ensures Flags(DispatchStep(s))
  {
    var s' := DispatchStep(s);
    DistinctTail(s.ready);
    assert s.ready == [s.ready[0]] + s.ready[1..];
    assert forall q :: q in s'.ready ==> q in s.ready;
    assert s'.tasks[|s.tasks|] == Task(s.ready[0], Dispatched);
    assert forall k :: 0 <= k < |s.tasks| ==> s'.tasks[k] == s.tasks[k];
    forall q | 0 <= q < |s'.queues| && s'.queues[q].dispatching
      ensures q in s'.ready || Draining(s', q)
    {
      if Draining(s, q) { DrainingKept(s, s', q); }
    }
  }

  lemma FlagsDispatch(s: State)
    requires Flags(s) && s.worker == Dispatching
    ensures Flags(DispatchStep(s))
  {
    PlacedDispatch(s);
    if s.ready == [] {
      forall q | Draining(s, q) ensures Draining(DispatchStep(s), q) { DrainingKept(s, DispatchStep(s), q); }
    } else {
      DispatchOne(s);
    }
  }

  /** Replacing an active task by an active task on the same queue while only the heap of that
      queue shrinks. */
  lemma FlagsTask(s: State, k: nat, heap: multiset<Item>, pc: TaskPC, s': State)
    requires Flags(s) && k < |s.tasks| && s.tasks[k].Active() && pc != Ended && pc != Dispatched
    requires heap <= s.queues[s.tasks[k].queue].heap
    requires s'.queues == s.queues[s.tasks[k].queue := s.queues[s.tasks[k].queue].(heap := heap)]
    requires s'.tasks == s.tasks[k := Task(s.tasks[k].queue, pc)]
    requires s'.ready == s.ready && s'.pending == s.pending && s'.worker == s.worker && !s'.terminated
    ensures Flags(s')
  {
    var q := s.tasks[k].queue;
    assert forall p :: 0 <= p < |s.queues| && p != q ==> s'.queues[p] == s.queues[p];
    forall p | 0 <= p < |s'.queues| && s'.queues[p].dispatching
      ensures p in s'.ready || Draining(s', p)
    {
      assert s.queues[p].dispatching;
      if Draining(s, p) { DrainingKept(s, s', p); }
    }
  }

  /** The loop test of a receiver, with `items_` set to `items`. */
  lemma FlagsDrain(s: State, k: nat, start: int, top: Item, items: int)
    requires Flags(s) && k < |s.tasks| && s.tasks[k].Active() && HeapTop(s, k, top)
    ensures Flags(DrainStep(s, k, start, top).(items := items))
  {
    var s' := DrainStep(s, k, start, top).(items := items);
    var q := s.tasks[k].queue;
    var heap := s.queues[q].heap;
    if heap != multiset{} && top.when <= start {
      FlagsTask(s, k, heap - multiset{top}, Sleeping(start, top), s');
    } else {
      assert s.queues[q := s.queues[q].(heap := heap)] == s.queues;
      FlagsTask(s, k, heap, Drained, s');
    }
  }

  lemma FlagsEnter(s: State, k: nat, start: int, top: Item)
    requires Flags(s) && Enabled(s, Enter(k, start, top))
    ensures Flags(EnterStep(s, k, start, top))
  {
    assert s.tasks[k].Active();
    FlagsDrain(s, k, start, top, s.items);
  }

  /** Finishing an item is the loop test with one item less to count. */
  lemma FinishIsDrain(s: State, k: nat, top: Item)
    requires Enabled(s, FinishItem(k, top))
    ensures Next(s, FinishItem(k, top)) == DrainStep(s, k, s.tasks[k].pc.start, top).(items := s.items - 1)
  {
  }

  lemma FlagsFinish(s: State, k: nat, top: Item)
    requires Flags(s) && Enabled(s, FinishItem(k, top))
    ensures Flags(Next(s, FinishItem(k, top)))
  {
    assert s.tasks[k].Active();
    FlagsDrain(s, k, s.tasks[k].pc.start, top, s.items - 1);
    FinishIsDrain(s, k, top);
  }

  lemma FlagsStart(s: State, k: nat)
    requires Flags(s) && Enabled(s, StartItem(k))
    ensures Flags(StartStep(s, k))
  {
    var t := s.tasks[k];
    assert s.queues[t.queue := s.queues[t.queue].(heap := s.queues[t.queue].heap)] == s.queues;
    FlagsTask(s, k, s.queues[t.queue].heap, Running(t.pc.start, t.pc.item), StartStep(s, k));
  }

  lemma PlacedLeave(s: State, k: nat, garbage: int)
    requires Flags(s) && Enabled(s, LeaveQueue(k, garbage))
    ensures Placed(LeaveStep(s, k, garbage)) && !LeaveStep(s, k, garbage).terminated
  {
    DistinctSnoc(s.pending, s.tasks[k].queue);
  }

  lemma FlagsLeave(s: State, k: nat, garbage: int)
    requires Flags(s) && Enabled(s, LeaveQueue(k, garbage))
    ensures Flags(LeaveStep(s, k, garbage))
  {
    var s' := LeaveStep(s, k, garbage);
    PlacedLeave(s, k, garbage);
    forall p | 0 <= p < |s'.queues| && s'.queues[p].dispatching
      ensures p in s'.ready || Draining(s', p)
    {
      assert p != s.tasks[k].queue;
      if Draining(s, p) { DrainingKept(s, s', p); }
    }
  }

  lemma FlagsStep(s: State, act: Action)
    requires Flags(s) && Enabled(s, act)
    requires act.Insert? ==> !s.joined
    ensures Flags(Next(s, act))
  {
    match act
    case Tick(_) =>
      assert forall q :: Draining(s, q) ==> Draining(Next(s, act), q);
    case AddQueue => FlagsAddQueue(s);
    case Insert(q, when, _) => FlagsInsert(s, q, when);
    case Join =>
      assert forall q :: Draining(s, q) ==> Draining(Next(s, act), q);
    case WorkerLoop(order) => FlagsWorker(s, order);
    case Dispatch => FlagsDispatch(s);
    case Enter(k, start, top) => FlagsEnter(s, k, start, top);
    case StartItem(k) => FlagsStart(s, k);
    case FinishItem(k, top) => FlagsFinish(s, k, top);
    case LeaveQueue(k, garbage) => FlagsLeave(s, k, garbage);
  }
}
