/** Item counting and wake-ups of the time source. */
module TimeSourceWake {
  import opened Wrappers
  import opened TimeSource
  import opened TimeSourceFlags

  function SumHeaps(queues: seq<Queue>): nat {
    if queues == [] then 0 else |queues[0].heap| + SumHeaps(queues[1..])
  }

  function InFlight(tasks: seq<Task>): nat {
    if tasks == [] then 0 else (if tasks[0].InFlight() then 1 else 0) + InFlight(tasks[1..])
  }

  lemma {:induction false} SumUpdate(queues: seq<Queue>, q: nat, x: Queue)
    requires q < |queues|
    ensures SumHeaps(queues[q := x]) == SumHeaps(queues) - |queues[q].heap| + |x.heap|
    ensures |queues[q].heap| <= SumHeaps(queues)
  {
    if q > 0 {
      SumUpdate(queues[1..], q - 1, x);
      assert queues[q := x][1..] == queues[1..][q - 1 := x];
    } else {
      assert queues[q := x][1..] == queues[1..];
    }
  }

  lemma {:induction false} SumSame(a: seq<Queue>, b: seq<Queue>)
    requires |a| == |b| && forall q :: 0 <= q < |a| ==> a[q].heap == b[q].heap
    ensures SumHeaps(a) == SumHeaps(b)
  {
    if a != [] { SumSame(a[1..], b[1..]); }
  }

  lemma {:induction false} SumSnoc(queues: seq<Queue>, x: Queue)
    ensures SumHeaps(queues + [x]) == SumHeaps(queues) + |x.heap|
  {
    if queues == [] {
      assert queues + [x] == [x];
    } else {
      SumSnoc(queues[1..], x);
      assert (queues + [x])[1..] == queues[1..] + [x];
    }
  }

  lemma {:induction false} InFlightUpdate(tasks: seq<Task>, k: nat, t: Task)
    requires k < |tasks|
    ensures InFlight(tasks[k := t])
            == InFlight(tasks) - (if tasks[k].InFlight() then 1 else 0) + (if t.InFlight() then 1 else 0)
    ensures tasks[k].InFlight() ==> InFlight(tasks) >= 1
  {
    if k > 0 {
      InFlightUpdate(tasks[1..], k - 1, t);
      assert tasks[k := t][1..] == tasks[1..][k - 1 := t];
    } else {
      assert tasks[k := t][1..] == tasks[1..];
    }
  }

  lemma {:induction false} InFlightSnoc(tasks: seq<Task>, t: Task)
    ensures InFlight(tasks + [t]) == InFlight(tasks) + (if t.InFlight() then 1 else 0)
  {
    if tasks == [] {
      assert tasks + [t] == [t];
    } else {
      InFlightSnoc(tasks[1..], t);
      assert (tasks + [t])[1..] == tasks[1..] + [t];
    }
  }

  /** `items_` is the number of queued items plus the number of items popped but not finished; the
      worker has joined only when nothing is left, and it never waits on an exhausted source
      without a pending notification. */
  predicate Counted(s: State) {
    && s.items == SumHeaps(s.queues) + InFlight(s.tasks)
    && (s.joined ==> s.done && s.items == 0)
    && (s.worker == Exited <==> s.joined)
    && (s.worker == Waiting && s.done && s.items == 0 ==> s.dirty != 0)
  }

  /** The worker has been notified or will wake up in time for every queue in the deque. */
  ghost predicate Awake(s: State)
    requires Ranges(s)
  {
    s.dirty != 0 ||
    forall q :: q in s.pending && s.queues[q].heap != multiset{} ==> s.earliest <= TopWhen(s.queues[q].heap)
  }

  lemma InitCounted(now: int)
    ensures Counted(Init(now)) && Ranges(Init(now)) && Awake(Init(now))
  {
  }

  /** The terminate in `insert` is unreachable: nothing is inserted once the worker has joined. */
  lemma NoInsertAfterJoin(s: State, q: nat, when: int, inside: Option<nat>)
    requires Counted(s) && Enabled(s, Insert(q, when, inside))
    ensures !s.joined
  {
    if inside.Some? {
      InFlightUpdate(s.tasks, inside.value, s.tasks[inside.value]);
    }
  }

  lemma CountedDrain(s: State, k: nat, start: int, top: Item)
    requires k < |s.tasks| && !s.tasks[k].InFlight() && HeapTop(s, k, top)
    requires s.items == SumHeaps(s.queues) + InFlight(s.tasks)
    ensures var s' := DrainStep(s, k, start, top);
            && s'.items == SumHeaps(s'.queues) + InFlight(s'.tasks)
            && (s'.items == 0 ==> s'.dirty != 0)
  {
    var q := s.tasks[k].queue;
    var heap := s.queues[q].heap;
    if heap == multiset{} {
      InFlightUpdate(s.tasks, k, Task(q, Drained));
    } else if top.when <= start {
      SumUpdate(s.queues, q, s.queues[q].(heap := heap - multiset{top}));
      InFlightUpdate(s.tasks, k, Task(q, Sleeping(start, top)));
    } else {
      SumUpdate(s.queues, q, s.queues[q]);
      InFlightUpdate(s.tasks, k, Task(q, Drained));
      assert top in heap;
    }
  }

  /** Finishing an item is leaving the callbacks and then the loop test. */
  lemma FinishSplits(s: State, k: nat, top: Item)
    requires Enabled(s, FinishItem(k, top))
    ensures Next(s, FinishItem(k, top))
            == DrainStep(s.(items := s.items - 1, tasks := s.tasks[k := Task(s.tasks[k].queue, Drained)]),
                         k, s.tasks[k].pc.start, top)
  {
    var t := Task(s.tasks[k].queue, Drained);
    var x := Next(s, FinishItem(k, top)).tasks[k];
    assert s.tasks[k := t][k := x] == s.tasks[k := x];
  }

  lemma CountedFinish(s: State, k: nat, top: Item)
    requires Counted(s) && Enabled(s, FinishItem(k, top))
    ensures Counted(Next(s, FinishItem(k, top)))
  {
    FinishSplits(s, k, top);
    var t := Task(s.tasks[k].queue, Drained);
    InFlightUpdate(s.tasks, k, t);
    CountedDrain(s.(items := s.items - 1, tasks := s.tasks[k := t]), k, s.tasks[k].pc.start, top);
    InFlightUpdate(s.tasks, k, s.tasks[k]);
  }

  lemma CountedInsert(s: State, q: nat, when: int, inside: Option<nat>)
    requires Counted(s) && Enabled(s, Insert(q, when, inside))
    ensures Counted(InsertStep(s, q, when))
  {
    var s' := InsertStep(s, q, when);
    NoInsertAfterJoin(s, q, when, inside);
    SumUpdate(s.queues, q, s'.queues[q]);
    assert s'.queues == s.queues[q := s'.queues[q]];
  }

  lemma CountedWorker(s: State, order: seq<nat>)
    requires Counted(s) && Placed(s) && Enabled(s, WorkerLoop(order))
    ensures Counted(WorkerStep(s, order))
  {
    var s' := WorkerStep(s, order);
    if s'.worker == Dispatching {
      WorkerSelects(s, order);
      SumSame(s.queues, s'.queues);
    }
  }

  /** A queue that keeps its items and a receiver that stays out of flight change no count. */
  lemma CountsKept(s: State, q: nat, queue: Queue, k: nat, t: Task)
    requires q < |s.queues| && queue.heap == s.queues[q].heap
    requires k < |s.tasks| && !s.tasks[k].InFlight() && !t.InFlight()
    ensures SumHeaps(s.queues[q := queue]) == SumHeaps(s.queues) && InFlight(s.tasks[k := t]) == InFlight(s.tasks)
  {
    SumUpdate(s.queues, q, queue);
    InFlightUpdate(s.tasks, k, t);
  }

  lemma CountedLeave(s: State, k: nat, garbage: int)
    requires Counted(s) && Enabled(s, LeaveQueue(k, garbage))
    ensures Counted(LeaveStep(s, k, garbage))
  {
    var q := s.tasks[k].queue;
    CountsKept(s, q, s.queues[q].(dispatching := false, pending := true), k, Task(q, Ended));
  }

  lemma CountedQuiet(s: State, act: Action)
    requires Counted(s) && Enabled(s, act)
    requires act.Tick? || act.AddQueue? || act.Join? || act.Dispatch? || act.StartItem?
    ensures Counted(Next(s, act))
  {
    match act
    case AddQueue => SumSnoc(s.queues, Queue(false, false, multiset{}));
    case Dispatch => if s.ready != [] { InFlightSnoc(s.tasks, Task(s.ready[0], Dispatched)); }
    case StartItem(k) => InFlightUpdate(s.tasks, k, StartStep(s, k).tasks[k]);
    case _ =>
  }

  lemma CountedEnter(s: State, k: nat, start: int, top: Item)
    requires Counted(s) && Enabled(s, Enter(k, start, top))
    ensures Counted(EnterStep(s, k, start, top))
  {
    CountedDrain(s, k, start, top);
    InFlightUpdate(s.tasks, k, Task(s.tasks[k].queue, Drained));
    var q := s.tasks[k].queue;
    if s.queues[q].heap != multiset{} { SumUpdate(s.queues, q, s.queues[q]); }
  }

  lemma CountedStep(s: State, act: Action)
    requires Counted(s) && Placed(s) && Enabled(s, act)
    ensures Counted(Next(s, act))
  {
    match act
    case Insert(q, when, inside) => CountedInsert(s, q, when, inside);
    case WorkerLoop(order) => CountedWorker(s, order);
    case Enter(k, start, top) => CountedEnter(s, k, start, top);
    case FinishItem(k, top) => CountedFinish(s, k, top);
    case LeaveQueue(k, garbage) => CountedLeave(s, k, garbage);
    case _ => CountedQuiet(s, act);
  }

  lemma SelectionAwake(s: State, order: seq<nat>)
    requires forall i :: 0 <= i < |order| ==> order[i] < |s.queues|
    requires Distinct(order)
    ensures var sel := Selecting(s, order);
            |sel.queues| == |s.queues|
            && forall q :: q in sel.kept ==>
                 q < |s.queues| && sel.queues[q].heap != multiset{} && sel.earliest <= TopWhen(sel.queues[q].heap)
  {
    SelectEarliest(s.queues, order, s.now, s.now + LONGEST_WAIT);
    SelectQueues(s.queues, order, s.now, s.now + LONGEST_WAIT);
  }

  lemma AwakeWorker(s: State, order: seq<nat>)
    requires Ranges(s) && Awake(s) && Enabled(s, WorkerLoop(order)) && Ranges(WorkerStep(s, order))
    ensures Awake(WorkerStep(s, order))
  {
    if WorkerStep(s, order).worker == Dispatching {
      OrderDistinct(order, s.pending);
      SelectionAwake(s, order);
      WorkerUnfolds(s, order);
    }
  }

  lemma AwakeInsert(s: State, q: nat, when: int)
    requires Flags(s) && Awake(s) && q < |s.queues| && !s.joined && Ranges(InsertStep(s, q, when))
    ensures Awake(InsertStep(s, q, when))
  {
    var s' := InsertStep(s, q, when);
    assert forall p :: p in s'.pending && p != q ==> p in s.pending && s'.queues[p] == s.queues[p];
  }

  lemma AwakeLeave(s: State, k: nat, garbage: int)
    requires Flags(s) && Awake(s) && Enabled(s, LeaveQueue(k, garbage)) && Ranges(LeaveStep(s, k, garbage))
    ensures Awake(LeaveStep(s, k, garbage))
  {
    var s' := LeaveStep(s, k, garbage);
    var q := s.tasks[k].queue;
    assert forall p :: p in s'.pending && p != q ==> p in s.pending && s'.queues[p] == s.queues[p];
  }

  /** A step that leaves the deque alone and changes at most a queue that is not in it. */
  lemma AwakeAside(s: State, s': State, q: nat)
    requires Ranges(s) && Awake(s) && Ranges(s') && q !in s.pending
    requires s'.pending == s.pending && s'.earliest == s.earliest && s'.dirty >= s.dirty
    requires |s'.queues| >= |s.queues| && forall p :: 0 <= p < |s.queues| && p != q ==> s'.queues[p] == s.queues[p]
    ensures Awake(s')
  {
  }

  lemma AwakeDrain(s: State, k: nat, start: int, top: Item, items: int)
    requires Ranges(s) && Awake(s) && k < |s.tasks| && s.tasks[k].queue !in s.pending
    requires Ranges(DrainStep(s, k, start, top).(items := items))
    ensures Awake(DrainStep(s, k, start, top).(items := items))
  {
    AwakeAside(s, DrainStep(s, k, start, top).(items := items), s.tasks[k].queue);
  }

  lemma AwakeEnter(s: State, k: nat, start: int, top: Item)
    requires Flags(s) && Awake(s) && Enabled(s, Enter(k, start, top)) && Ranges(EnterStep(s, k, start, top))
    ensures Awake(EnterStep(s, k, start, top))
  {
    AwakeAside(s, EnterStep(s, k, start, top), s.tasks[k].queue);
  }

  lemma AwakeFinish(s: State, k: nat, top: Item)
    requires Flags(s) && Awake(s) && Enabled(s, FinishItem(k, top)) && Ranges(Next(s, FinishItem(k, top)))
    ensures Awake(Next(s, FinishItem(k, top)))
  {
    FinishIsDrain(s, k, top);
    AwakeDrain(s, k, s.tasks[k].pc.start, top, s.items - 1);
  }

  lemma AwakeStep(s: State, act: Action)
    requires Flags(s) && Awake(s) && Enabled(s, act) && (act.Insert? ==> !s.joined) && Ranges(Next(s, act))
    ensures Awake(Next(s, act))
  {
    match act
    case Insert(q, when, _) => AwakeInsert(s, q, when);
    case WorkerLoop(order) => AwakeWorker(s, order);
    case Enter(k, start, top) => AwakeEnter(s, k, start, top);
    case FinishItem(k, top) => AwakeFinish(s, k, top);
    case LeaveQueue(k, garbage) => AwakeLeave(s, k, garbage);
    case _ => AwakeAside(s, Next(s, act), |s.queues|);
  }
}
