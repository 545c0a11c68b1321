/** `time_source_shared` and its queues as an object: each method is one section that holds the lock
    and is proved against the step of the same name. */
module TimeSourceObject {
  import opened TimeSource

  /** Finds `heap_.top()`. */
  method Top(heap: multiset<Item>) returns (top: Item)
    requires heap != multiset{}
    ensures IsTop(heap, top) && top.when == TopWhen(heap)
  {
    top :| top in heap;
    var rest := heap - multiset{top};
    while rest != multiset{}
      invariant rest <= heap && top in heap
      invariant forall y :: y in heap && y !in rest ==> top.when <= y.when
      decreases |rest|
    {
      var y :| y in rest;
      if y.when < top.when { top := y; }
      rest := rest - multiset{y};
    }
  }

  /** `std::partition` with the processing predicate, visiting the queues from front to back, and
      `std::copy_if` of the non-empty ones among the processed. */
  method Partition(queues: seq<Queue>, order: seq<nat>, start: int, latest: int) returns (sel: Selection)
    requires forall i :: 0 <= i < |order| ==> order[i] < |queues|
    ensures sel == Select(queues, order, start, latest)
  {
    var qs, kept, picked, earliest := queues, [], [], latest;
    var i := 0;
    assert order[0..] == order;
    while i < |order|
      invariant 0 <= i <= |order| && |qs| == |queues|
      invariant var rest := Select(qs, order[i..], start, earliest);
                Select(queues, order, start, latest)
                == Selection(rest.queues, kept + rest.kept, picked + rest.ready, rest.earliest)
    {
      var q := order[i];
      assert order[i..][0] == q && order[i..][1..] == order[i + 1..];
      var heap := qs[q].heap;
      if heap == multiset{} {
        qs := qs[q := Queue(false, false, heap)];
      } else {
        var top := Top(heap);
        var due := !qs[q].dispatching && top.when <= start;
        qs := qs[q := Queue(due, !due, heap)];
        if due {
          picked := picked + [q];
        } else {
          kept := kept + [q];
          earliest := Min(earliest, top.when);
        }
      }
      i := i + 1;
    }
    sel := Selection(qs, kept, picked, earliest);
  }

  class TimeSourceShared {
    var now: int
    var queues: seq<Queue>
    var pending: seq<nat>
    var ready: seq<nat>
    var worker: WorkerPC
    var earliest: int
    var done: bool
    var joined: bool
    var dirty: nat
    var items: int
    var tasks: seq<Task>
    var inserted: seq<Insertion>
    var popped: seq<Pop>
    var started: seq<Start>
    var terminated: bool

    ghost function Model(): State
      reads this
    {
      State(now, queues, pending, ready, worker, earliest, done, joined, dirty, items, tasks,
            inserted, popped, started, terminated)
    }

    constructor (clock: int)
      ensures Model() == Init(clock)
    {
      now, queues, pending, ready, worker := clock, [], [], [], Looping;
      earliest, done, joined, dirty, items := clock + LONGEST_WAIT, false, false, 0, 0;
      tasks, inserted, popped, started, terminated := [], [], [], [], false;
    }

    method Insert(q: nat, when: int)
      requires q < |queues|
      modifies `queues, `pending, `items, `dirty, `inserted, `terminated
      ensures Model() == InsertStep(old(Model()), q, when)
    {
      if joined {
        terminated := true;
      } else {
        var queue := queues[q].(heap := queues[q].heap + multiset{Item(|inserted|, when)});
        var top := Top(queue.heap);
        Enqueue(q, queue, top.when < earliest, Insertion(q, when));
      }
    }

    /** The writes of `insert`: the queue with its new item, and the notification. */
    method Enqueue(q: nat, queue: Queue, early: bool, insertion: Insertion)
      requires q < |queues|
      modifies `queues, `pending, `items, `dirty, `inserted
      ensures var add := !queue.dispatching && !queue.pending;
              var s := old(Model());
              Model() == s.(queues := s.queues[q := if add then queue.(pending := true) else queue],
                            pending := if add then s.pending + [q] else s.pending,
                            items := s.items + 1,
                            dirty := if early then s.dirty + 1 else s.dirty,
                            inserted := s.inserted + [insertion])
    {
      inserted := inserted + [insertion];
      queues := queues[q := queue];
      items := items + 1;
      if !queue.dispatching && !queue.pending {
        pending := pending + [q];
        queues := queues[q := queue.(pending := true)];
      }
      if early { dirty := dirty + 1; }
    }

    method Join()
      modifies this
      ensures Model() == Next(old(Model()), TimeSource.Join)
    {
      done := true;
      dirty := dirty + 1;
    }

    /** The selection of ready queues. */
    method SelectSection()
      requires forall i :: 0 <= i < |pending| ==> pending[i] < |queues|
      modifies `dirty, `queues, `earliest, `ready, `pending, `worker
      ensures var s := old(Model());
              var sel := Select(s.queues, s.pending, s.now, s.now + LONGEST_WAIT);
              Model() == s.(dirty := 0, queues := sel.queues, earliest := sel.earliest, ready := sel.ready,
                            pending := sel.kept, worker := Dispatching)
    {
      var sel := Partition(queues, pending, now, now + LONGEST_WAIT);
      dirty, queues, earliest := 0, sel.queues, sel.earliest;
      ready, pending, worker := sel.ready, sel.kept, Dispatching;
    }

    /** The worker's loop test, the test of its wait, and the selection. */
    method WorkerSection()
      requires worker == Looping || (worker == Waiting && WakeUp(Model()))
      requires forall i :: 0 <= i < |pending| ==> pending[i] < |queues|
      modifies this
      ensures Model() == WorkerStep(old(Model()), old(pending))
    {
      if worker == Looping && done && items <= 0 {
        joined := true;
        worker := Exited;
      } else if dirty == 0 && now < earliest {
        worker := Waiting;
      } else {
        SelectSection();
      }
    }

    /** The loop test of the queue's `value`, after entering or after finishing an item. */
    method DrainSection(k: nat, start: int) returns (top: Item)
      requires k < |tasks| && tasks[k].queue < |queues|
      modifies this
      ensures HeapTop(old(Model()), k, top)
      ensures Model() == DrainStep(old(Model()), k, start, top)
    {
      var q := tasks[k].queue;
      if queues[q].heap == multiset{} {
        top := Item(0, 0);
        dirty := dirty + 1;
        tasks := tasks[k := Task(q, Drained)];
        return;
      }
      top := Top(queues[q].heap);
      if top.when <= start {
        queues := queues[q := queues[q].(heap := queues[q].heap - multiset{top})];
        tasks := tasks[k := Task(q, Sleeping(start, top))];
        popped := popped + [Pop(q, top, |inserted|)];
      } else {
        tasks := tasks[k := Task(q, Drained)];
      }
    }

    /** The start of the queue's `value`. */
    method EnterSection(k: nat, start: int) returns (top: Item)
      requires k < |tasks| && tasks[k].pc == Dispatched && tasks[k].queue < |queues|
      modifies this
      ensures Enabled(old(Model()), Enter(k, start, top))
      ensures Model() == Next(old(Model()), Enter(k, start, top))
    {
      var q := tasks[k].queue;
      if !queues[q].dispatching || queues[q].pending {
        if queues[q].heap == multiset{} { top := Item(0, 0); } else { top := Top(queues[q].heap); }
        terminated := true;
        return;
      }
      if queues[q].heap == multiset{} {
        top := Item(0, 0);
        tasks := tasks[k := Task(q, Drained)];
        return;
      }
      top := DrainSection(k, start);
    }

    /** After an item's callbacks. */
    method FinishSection(k: nat) returns (top: Item)
      requires k < |tasks| && tasks[k].pc.Running? && tasks[k].queue < |queues|
      modifies this
      ensures Enabled(old(Model()), FinishItem(k, top))
      ensures Model() == Next(old(Model()), FinishItem(k, top))
    {
      var start := tasks[k].pc.start;
      items := items - 1;
      top := DrainSection(k, start);
    }

    /** The queue's `done`; `garbage` is what the top of an empty heap reads as. */
    method LeaveSection(k: nat, garbage: int)
      requires k < |tasks| && tasks[k].pc == Drained && tasks[k].queue < |queues|
      modifies this
      ensures Model() == Next(old(Model()), LeaveQueue(k, garbage))
    {
      var q := tasks[k].queue;
      if !queues[q].dispatching || queues[q].pending {
        terminated := true;
        return;
      }
      var when := garbage;
      if queues[q].heap != multiset{} {
        var top := Top(queues[q].heap);
        when := top.when;
      }
      GiveBack(k, when <= earliest);
    }

    /** The writes of `done`: the queue goes back to the deque, the receiver has ended. */
    method GiveBack(k: nat, early: bool)
      requires k < |tasks| && tasks[k].queue < |queues|
      modifies `queues, `pending, `dirty, `tasks
      ensures var s := old(Model());
              var q := s.tasks[k].queue;
              Model() == s.(queues := s.queues[q := s.queues[q].(dispatching := false, pending := true)],
                            pending := s.pending + [q],
                            dirty := if early then s.dirty + 1 else s.dirty,
                            tasks := s.tasks[k := Task(q, Ended)])
    {
      var q := tasks[k].queue;
      pending := pending + [q];
      queues := queues[q := queues[q].(dispatching := false, pending := true)];
      if early { dirty := dirty + 1; }
      tasks := tasks[k := Task(q, Ended)];
    }
  }
}
