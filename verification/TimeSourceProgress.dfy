/** What the sections of the time source get done: a receiver leaves nothing due behind, an exhausted
    source joins, and from every state after `join` the source can be brought to its end. */
module TimeSourceProgress {
  import opened Wrappers
  import opened TimeSource
  import opened TimeSourceFlags
  import opened TimeSourceWake
  import opened TimeSourceHistory
  import opened TimeSourceTheorems

  // --- A receiver's window ---

  /** The section is a loop test of a receiver. */
  predicate TestsLoop(act: Action) {
    act.Enter? || act.FinishItem?
  }

  /** The end of the receiver's window. */
  function Window(s: State, act: Action): int
    requires TestsLoop(act) && Enabled(s, act)
  {
    if act.Enter? then act.start else s.tasks[act.task].pc.start
  }

  /** What a loop test of receiver `k` with the window `w` has done when it leads to `s'`: it has returned and
      left nothing due, or popped the queue's earliest item, which is due. */
  ghost predicate Tested(s: State, k: nat, w: int, s': State)
    requires k < |s.tasks| && s.tasks[k].queue < |s.queues|
  {
    var q := s.tasks[k].queue;
    && k < |s'.tasks| && s'.tasks[k].queue == q && q < |s'.queues| && s'.inserted == s.inserted
    && if s'.tasks[k].pc == Drained
       then s'.popped == s.popped && forall y :: y in s'.queues[q].heap ==> y.when > w
       else exists x :: && IsTop(s.queues[q].heap, x) && x.when <= w
                        && s'.tasks[k].pc == Sleeping(w, x)
                        && s'.popped == s.popped + [Pop(q, x, |s.inserted|)]
  }

  lemma DrainTests(s: State, k: nat, w: int, top: Item)
    requires k < |s.tasks| && HeapTop(s, k, top)
    ensures Tested(s, k, w, DrainStep(s, k, w, top))
  {
    var heap := s.queues[s.tasks[k].queue].heap;
    if heap != multiset{} { assert IsTop(heap, top); }
  }

  /** A receiver returns only when its queue holds nothing due in its window, and it pops only the queue's
      earliest item, and only if that is due. */
  lemma ReturnsWhenDrained(s: State, act: Action)
    requires TestsLoop(act) && Enabled(s, act) && !Next(s, act).terminated
    ensures Tested(s, act.task, Window(s, act), Next(s, act))
  {
    var k, w := act.task, Window(s, act);
    DrainTests(s, k, w, act.top);
    if act.FinishItem? {
      FinishIsDrain(s, k, act.top);
    } else {
      EnterIsDrain(s, k, w, act.top);
    }
  }

  lemma EnterIsDrain(s: State, k: nat, w: int, top: Item)
    requires Enabled(s, Enter(k, w, top)) && !EnterStep(s, k, w, top).terminated
    ensures var s', q := EnterStep(s, k, w, top), s.tasks[k].queue;
            s' == DrainStep(s, k, w, top)
            || (s.queues[q].heap == multiset{} && s' == s.(tasks := s.tasks[k := Task(q, Drained)]))
  {
  }

  /** When a receiver returns, every item inserted into its queue so far that is due in its window has
      started. */
  lemma WindowServed(now: int, acts: seq<Action>, act: Action, i: nat)
    requires Runnable(Init(now), acts) && TestsLoop(act) && Enabled(After(Init(now), acts), act)
    requires Next(After(Init(now), acts), act).tasks[act.task].pc == Drained
    requires i < |After(Init(now), acts).inserted|
    requires var s := After(Init(now), acts);
             act.task < |s.tasks| && s.inserted[i].queue == s.tasks[act.task].queue
             && s.inserted[i].when <= Window(s, act)
    ensures StartedId(Next(After(Init(now), acts), act).started, i)
  {
    var s := Reached(now, acts);
    StepInv(s, act);
    ReturnsWhenDrained(s, act);
    NothingLeft(Next(s, act), act.task, Window(s, act), i);
  }

  lemma NothingLeft(s: State, k: nat, w: int, i: nat)
    requires Inv(s) && k < |s.tasks| && s.tasks[k].pc == Drained && i < |s.inserted|
    requires s.inserted[i].queue == s.tasks[k].queue && s.inserted[i].when <= w
    requires s.tasks[k].queue < |s.queues| && forall y :: y in s.queues[s.tasks[k].queue].heap ==> y.when > w
    ensures StartedId(s.started, i)
  {
    assert Accounted(s, i);
    assert ItemAt(s, i).when <= w;
    var j :| 0 <= j < |s.popped| && s.popped[j].item.id == i;
    assert PopHandled(s, j);
    assert s.popped[j].queue == s.tasks[k].queue;
    NoSleeper(s, k, s.popped[j].item);
  }

  /** While a receiver that does not sleep works on a queue, none sleeps on it. */
  lemma NoSleeper(s: State, k: nat, x: Item)
    requires Ranges(s) && Served(s) && k < |s.tasks| && s.tasks[k].Active() && !s.tasks[k].pc.Sleeping?
    ensures !Sleeper(s, s.tasks[k].queue, x)
  {
    forall t | 0 <= t < |s.tasks| && s.tasks[t].pc.Sleeping? ensures s.tasks[t].queue != s.tasks[k].queue {
      assert s.tasks[t].Active();
    }
  }

  // --- The history is the run's ---

  function InsertionOf(act: Action): seq<Insertion> {
    if act.Insert? then [Insertion(act.queue, act.when)] else []
  }

  /** The insertions a run makes. */
  function InsertionsOf(acts: seq<Action>): seq<Insertion> {
    if acts == [] then [] else InsertionOf(acts[0]) + InsertionsOf(acts[1..])
  }

  lemma OneInsertion(s: State, act: Action)
    requires Counted(s) && Enabled(s, act)
    ensures Next(s, act).inserted == s.inserted + InsertionOf(act)
  {
    if act.Insert? { NoInsertAfterJoin(s, act.queue, act.when, act.inside); }
  }

  lemma Appended(x: seq<Insertion>, a: seq<Insertion>, y: seq<Insertion>, b: seq<Insertion>, z: seq<Insertion>)
    requires y == x + a && z == y + b
    ensures z == x + (a + b) && (x == [] ==> z == a + b)
  {
  }

  lemma InsertionStep(s: State, act: Action) returns (t: State)
    requires Inv(s) && Enabled(s, act)
    ensures t == Next(s, act) && Inv(t) && t.inserted == s.inserted + InsertionOf(act)
  {
    t := Next(s, act);
    OneInsertion(s, act);
    StepInv(s, act);
  }

  lemma {:induction false} InsertionsGrow(s: State, acts: seq<Action>, r: State)
    requires Inv(s) && Runnable(s, acts) && r == After(s, acts)
    ensures r.inserted == s.inserted + InsertionsOf(acts)
    ensures s.inserted == [] ==> r.inserted == InsertionsOf(acts)
    decreases |acts|
  {
    if acts == [] {
      assert s.inserted + InsertionsOf(acts) == s.inserted;
    } else {
      var t := InsertionStep(s, acts[0]);
      InsertionsGrow(t, acts[1..], r);
      Appended(s.inserted, InsertionOf(acts[0]), t.inserted, InsertionsOf(acts[1..]), r.inserted);
    }
  }

  lemma InitInv(now: int)
    ensures Inv(Init(now)) && Init(now).inserted == []
  {
    InitFlags(now);
    InitCounted(now);
    InitHistory(now);
  }

  /** The items of a run are those it inserts: the queue and the time are those of the call. */
  lemma ItemsAreInsertions(now: int, acts: seq<Action>)
    requires Runnable(Init(now), acts)
    ensures After(Init(now), acts).inserted == InsertionsOf(acts)
  {
    InitInv(now);
    InsertionsGrow(Init(now), acts, After(Init(now), acts));
  }

  /** An item starts in the section in which its receiver wakes up, at the time of that section, which is not
      before the item's own, and in no other. */
  lemma StartsOnTime(now: int, acts: seq<Action>, act: Action)
    requires Runnable(Init(now), acts) && Enabled(After(Init(now), acts), act)
    ensures var s := After(Init(now), acts);
            if act.StartItem?
            then && act.task < |s.tasks| && s.tasks[act.task].pc.Sleeping?
                 && var t := s.tasks[act.task];
                    t.pc.item.when <= s.now && Next(s, act).started == s.started + [Start(t.queue, t.pc.item, s.now)]
            else Next(s, act).started == s.started
  {
  }

  // --- The worker's sleep ---

  /** After a selection the notifications are used up, and the worker is to wake at the earliest item of the
      queues in the deque, or after a day. */
  lemma WorkerSleeps(s: State, order: seq<nat>)
    requires Placed(s) && Enabled(s, WorkerLoop(order)) && WorkerStep(s, order).worker == Dispatching
    ensures var s' := WorkerStep(s, order);
            && s'.dirty == 0 && s'.earliest <= s.now + LONGEST_WAIT
            && (forall q :: q in s'.pending ==>
                  q < |s.queues| && s.queues[q].heap != multiset{} && s'.earliest <= TopWhen(s.queues[q].heap))
            && (s'.earliest == s.now + LONGEST_WAIT
                || exists q :: q in s'.pending && q < |s.queues| && s.queues[q].heap != multiset{}
                               && s'.earliest == TopWhen(s.queues[q].heap))
  {
    OrderDistinct(order, s.pending);
    WorkerUnfolds(s, order);
    SelectEarliest(s.queues, order, s.now, s.now + LONGEST_WAIT);
    SelectEarliestAttained(s.queues, order, s.now, s.now + LONGEST_WAIT);
  }

  /** An insertion notifies the worker exactly if the queue then holds an item due before it would wake. */
  lemma InsertNotifiesExactly(s: State, q: nat, when: int)
    requires q < |s.queues| && !s.joined
    ensures InsertStep(s, q, when).dirty
            == s.dirty + if when < s.earliest || exists x :: x in s.queues[q].heap && x.when < s.earliest then 1 else 0
  {
    var item := Item(|s.inserted|, when);
    var heap := s.queues[q].heap + multiset{item};
    assert item in heap;
    assert forall x :: x in s.queues[q].heap ==> x in heap;
    assert forall x :: x in heap ==> x == item || x in s.queues[q].heap;
  }

  // --- Joining ---

  /** The worker's loop test joins exactly an exhausted source. */
  lemma LoopTestJoins(s: State, order: seq<nat>)
    requires Enabled(s, WorkerLoop(order)) && s.worker == Looping && !s.joined
    ensures var s' := Next(s, WorkerLoop(order));
            && (s'.joined <==> s.done && s.items <= 0)
            && (s'.joined ==> s'.worker == Exited)
  {
  }

  /** Nothing in the run adds work. */
  predicate NoNewWork(acts: seq<Action>) {
    forall i :: 0 <= i < |acts| ==> !acts[i].Insert? && !acts[i].Join? && !acts[i].AddQueue?
  }

  /** The source can be brought to its end without more work. */
  ghost predicate CanJoin(s: State) {
    exists acts :: NoNewWork(acts) && Runnable(s, acts) && After(s, acts).joined
  }

  lemma JoinedAlready(s: State)
    requires s.joined
    ensures CanJoin(s)
  {
    assert NoNewWork([]) && Runnable(s, []) && After(s, []).joined;
  }

  // --- Termination of the clean-up ---

  /** The sections a receiver still needs; one that has not entered yet pops first. */
  function TaskRank(t: Task): nat {
    match t.pc
    case Dispatched => 0
    case Sleeping(_, _) => 3
    case Running(_, _) => 2
    case Drained => 1
    case Ended => 0
  }

  function TaskRanks(tasks: seq<Task>): nat {
    if tasks == [] then 0 else TaskRank(tasks[0]) + TaskRanks(tasks[1..])
  }

  lemma {:induction false} RanksUpdate(tasks: seq<Task>, k: nat, t: Task)
    requires k < |tasks|
    ensures TaskRanks(tasks[k := t]) == TaskRanks(tasks) - TaskRank(tasks[k]) + TaskRank(t)
  {
    if k > 0 {
      RanksUpdate(tasks[1..], k - 1, t);
      assert tasks[k := t][1..] == tasks[1..][k - 1 := t];
    } else {
      assert tasks[k := t][1..] == tasks[1..];
    }
  }

  /** The sections the worker needs to join, or to have a queue ready. */
  function WorkerRank(s: State): nat {
    match s.worker
    case Waiting => 5
    case Dispatching => if s.ready == [] then 4 else 2
    case Looping => 3
    case Exited => 0
  }

  function Rank(s: State): nat {
    TaskRanks(s.tasks) + WorkerRank(s)
  }

  /** `t` is nearer to the end than `s`. */
  predicate Nearer(s: State, t: State) {
    SumHeaps(t.queues) < SumHeaps(s.queues) || (SumHeaps(t.queues) == SumHeaps(s.queues) && Rank(t) < Rank(s))
  }

  /** A receiver at work has a section, after a tick if it sleeps, that brings the end nearer. */
  lemma EnterNearer(s: State, k: nat) returns (act: Action)
    requires Flags(s) && k < |s.tasks| && s.tasks[k].pc == Dispatched
    ensures act.Enter? && Enabled(s, act) && SumHeaps(Next(s, act).queues) < SumHeaps(s.queues)
    ensures Next(s, act).done == s.done
  {
    var q := s.tasks[k].queue;
    var heap := s.queues[q].heap;
    assert s.tasks[k].Active();
    TopExists(heap);
    var top :| IsTop(heap, top);
    act := Enter(k, top.when, top);
    PopShrinks(s, q, top);
  }

  lemma PopShrinks(s: State, q: nat, top: Item)
    requires q < |s.queues| && top in s.queues[q].heap
    ensures SumHeaps(s.queues[q := s.queues[q].(heap := s.queues[q].heap - multiset{top})]) < SumHeaps(s.queues)
  {
    SumUpdate(s.queues, q, s.queues[q].(heap := s.queues[q].heap - multiset{top}));
  }

  /** A loop test after an item pops another one or returns. */
  lemma DrainNearer(s: State, k: nat, w: int, top: Item, items: int)
    requires k < |s.tasks| && HeapTop(s, k, top) && s.tasks[k].pc.Running?
    ensures Nearer(s, DrainStep(s, k, w, top).(items := items))
  {
    var q := s.tasks[k].queue;
    var s' := DrainStep(s, k, w, top);
    if s.queues[q].heap != multiset{} && top.when <= w {
      PopShrinks(s, q, top);
    } else {
      RanksUpdate(s.tasks, k, Task(q, Drained));
      assert s'.queues == s.queues && s'.worker == s.worker && s'.ready == s.ready;
    }
  }

  lemma FinishNearer(s: State, k: nat) returns (act: Action)
    requires Ranges(s) && k < |s.tasks| && s.tasks[k].pc.Running?
    ensures act.FinishItem? && Enabled(s, act) && Nearer(s, Next(s, act)) && Next(s, act).done == s.done
  {
    var heap := s.queues[s.tasks[k].queue].heap;
    var top := Item(0, 0);
    if heap != multiset{} {
      TopExists(heap);
      top :| IsTop(heap, top);
    }
    act := FinishItem(k, top);
    FinishIsDrain(s, k, top);
    DrainNearer(s, k, s.tasks[k].pc.start, top, s.items - 1);
  }

  lemma StartNearer(s: State, k: nat)
    requires k < |s.tasks| && s.tasks[k].pc.Sleeping? && s.tasks[k].pc.item.when <= s.now
    ensures Enabled(s, StartItem(k)) && Nearer(s, Next(s, StartItem(k))) && Next(s, StartItem(k)).done == s.done
  {
    RanksUpdate(s.tasks, k, Next(s, StartItem(k)).tasks[k]);
  }

  lemma LeaveNearer(s: State, k: nat)
    requires Flags(s) && k < |s.tasks| && s.tasks[k].pc == Drained
    ensures var act := LeaveQueue(k, 0);
            Enabled(s, act) && Nearer(s, Next(s, act)) && Next(s, act).done == s.done
  {
    var q := s.tasks[k].queue;
    assert s.tasks[k].Active();
    SumUpdate(s.queues, q, s.queues[q].(dispatching := false, pending := true));
    RanksUpdate(s.tasks, k, Task(q, Ended));
  }

  /** The run `acts` leads from `s` to `t`. */
  ghost predicate Leads(s: State, acts: seq<Action>, t: State) {
    Runnable(s, acts) && After(s, acts) == t
  }

  lemma {:induction false} LeadsThen(s: State, a: seq<Action>, m: State, b: seq<Action>, t: State)
    requires Leads(s, a, m) && Leads(m, b, t)
    ensures Leads(s, a + b, t)
    decreases |a|
  {
    if a == [] {
      assert a + b == b;
    } else {
      assert (a + b)[0] == a[0] && (a + b)[1..] == a[1..] + b;
      LeadsThen(Next(s, a[0]), a[1..], m, b, t);
    }
  }

  lemma {:induction false} InsertionsAppend(a: seq<Action>, b: seq<Action>)
    ensures InsertionsOf(a + b) == InsertionsOf(a) + InsertionsOf(b)
  {
    if a == [] {
      assert a + b == b;
    } else {
      assert (a + b)[0] == a[0] && (a + b)[1..] == a[1..] + b;
      InsertionsAppend(a[1..], b);
    }
  }

  lemma LeadsStep(s: State, act: Action)
    requires Enabled(s, act)
    ensures Leads(s, [act], Next(s, act))
  {
    assert [act][1..] == [];
    assert Runnable(Next(s, act), []);
  }

  /** The run `acts` adds no work and leads from `s` to `t`. */
  ghost predicate CleansUp(s: State, acts: seq<Action>, t: State) {
    NoNewWork(acts) && Leads(s, acts, t)
  }

  predicate AddsNoWork(act: Action) {
    !act.Insert? && !act.Join? && !act.AddQueue?
  }

  lemma StepLeads(s: State, act: Action, t: State)
    requires Inv(s) && Enabled(s, act) && t == Next(s, act)
    ensures Leads(s, [act], t) && Inv(t)
  {
    LeadsStep(s, act);
    StepInv(s, act);
  }

  lemma TwoClean(s: State, a: Action, m: State, b: Action, t: State)
    requires Leads(s, [a], m) && Leads(m, [b], t) && AddsNoWork(a) && AddsNoWork(b)
    ensures CleansUp(s, [a] + [b], t)
  {
    LeadsThen(s, [a], m, [b], t);
  }

  lemma TickNearer(s: State, now: int, t: State)
    requires Nearer(s.(now := now), t)
    ensures Nearer(s, t)
  {
  }

  lemma AdvanceSleeper(s: State, k: nat) returns (acts: seq<Action>, t: State)
    requires Inv(s) && s.done && k < |s.tasks| && s.tasks[k].pc.Sleeping?
    ensures CleansUp(s, acts, t) && Inv(t) && t.done && Nearer(s, t)
  {
    var due := s.tasks[k].pc.item.when;
    var m := s.(now := if s.now < due then due else s.now);
    assert m == Next(s, Tick(m.now));
    t := Next(m, StartItem(k));
    StartNearer(m, k);
    TickNearer(s, m.now, t);
    StepLeads(s, Tick(m.now), m);
    StepLeads(m, StartItem(k), t);
    acts := [Tick(m.now)] + [StartItem(k)];
    TwoClean(s, Tick(m.now), m, StartItem(k), t);
  }

  /** The section of a receiver at work that does not sleep. */
  lemma ReceiverSection(s: State, k: nat) returns (act: Action)
    requires Flags(s) && k < |s.tasks| && s.tasks[k].Active() && !s.tasks[k].pc.Sleeping?
    ensures Enabled(s, act) && AddsNoWork(act) && Nearer(s, Next(s, act)) && Next(s, act).done == s.done
  {
    match s.tasks[k].pc {
      case Dispatched =>
        act := EnterNearer(s, k);
      case Running(_, _) =>
        act := FinishNearer(s, k);
      case Drained =>
        act := LeaveQueue(k, 0);
        LeaveNearer(s, k);
    }
  }

  lemma AdvanceReceiver(s: State, k: nat) returns (acts: seq<Action>, t: State)
    requires Inv(s) && s.done && k < |s.tasks| && s.tasks[k].Active()
    ensures CleansUp(s, acts, t) && Inv(t) && t.done && Nearer(s, t)
  {
    if s.tasks[k].pc.Sleeping? {
      acts, t := AdvanceSleeper(s, k);
    } else {
      var act := ReceiverSection(s, k);
      acts, t := [act], Next(s, act);
      StepLeads(s, act, t);
    }
  }

  /** The worker hands over the next ready queue, whose receiver then pops. */
  lemma AdvanceDispatch(s: State) returns (acts: seq<Action>, t: State)
    requires Inv(s) && s.done && s.worker == Dispatching
    ensures CleansUp(s, acts, t) && Inv(t) && t.done && Nearer(s, t)
  {
    if s.ready == [] {
      acts, t := [Dispatch], Next(s, Dispatch);
      StepLeads(s, Dispatch, t);
    } else {
      var m := Next(s, Dispatch);
      StepInv(s, Dispatch);
      assert m.tasks[|s.tasks|] == Task(s.ready[0], Dispatched) && m.queues == s.queues;
      var act := EnterNearer(m, |s.tasks|);
      acts, t := [Dispatch] + [act], Next(m, act);
      StepLeads(s, Dispatch, m);
      StepLeads(m, act, t);
      TwoClean(s, Dispatch, m, act, t);
    }
  }

  lemma ExhaustedStep(s: State)
    requires Placed(s) && Counted(s) && s.done && s.items == 0 && !s.joined
    requires s.worker == Looping || s.worker == Waiting
    ensures var act := WorkerLoop(s.pending);
            Enabled(s, act) && Next(s, act).done && (Next(s, act).joined || Nearer(s, Next(s, act)))
  {
    assert forall i :: 0 <= i < |s.pending| ==> s.pending[i] in s.pending;
    if s.worker == Waiting { SelectionKeepsHeaps(s); }
  }

  /** With nothing queued and nothing in flight the worker joins, at once or after one more selection. */
  lemma AdvanceExhausted(s: State) returns (acts: seq<Action>, t: State)
    requires Inv(s) && s.done && s.items == 0 && !s.joined && (s.worker == Looping || s.worker == Waiting)
    ensures CleansUp(s, acts, t) && Inv(t) && t.done && (t.joined || Nearer(s, t))
  {
    ExhaustedStep(s);
    acts, t := [WorkerLoop(s.pending)], Next(s, WorkerLoop(s.pending));
    StepLeads(s, WorkerLoop(s.pending), t);
  }

  lemma SelectionKeepsHeaps(s: State)
    requires Placed(s) && Enabled(s, WorkerLoop(s.pending)) && WorkerStep(s, s.pending).worker == Dispatching
    ensures SumHeaps(WorkerStep(s, s.pending).queues) == SumHeaps(s.queues)
    ensures WorkerStep(s, s.pending).tasks == s.tasks
  {
    WorkerSelects(s, s.pending);
    SumSame(s.queues, WorkerStep(s, s.pending).queues);
  }

  /** A selection at a time when an item is due makes a queue ready. */
  lemma DueSelection(s: State, q: nat)
    requires Placed(s) && s.items > 0 && (s.worker == Looping || s.worker == Waiting) && WakeUp(s)
    requires q in s.pending && q < |s.queues| && s.queues[q].heap != multiset{} && TopWhen(s.queues[q].heap) <= s.now
    ensures var act := WorkerLoop(s.pending);
            Enabled(s, act) && Next(s, act).done == s.done && Nearer(s, Next(s, act))
  {
    assert forall i :: 0 <= i < |s.pending| ==> s.pending[i] in s.pending;
    assert WorkerStep(s, s.pending).worker == Dispatching;
    SelectionKeepsHeaps(s);
    WorkerSelects(s, s.pending);
    assert q in WorkerStep(s, s.pending).ready;
  }

  /** While no receiver is at work, a queue that holds an item is in the deque, and its earliest item wakes
      the worker. */
  lemma WakesForItem(s: State) returns (q: nat, due: int)
    requires Inv(s) && AllEnded(s) && SumHeaps(s.queues) > 0 && s.worker != Dispatching
    ensures q in s.pending && q < |s.queues| && s.queues[q].heap != multiset{} && due == TopWhen(s.queues[q].heap)
    ensures s.items > 0 && (s.dirty != 0 || s.earliest <= due)
  {
    q := SomeHeap(s.queues);
    NoneInFlight(s.tasks);
    NotDispatching(s, q);
    due := TopWhen(s.queues[q].heap);
  }

  /** With an item queued and no receiver at work, waiting until that item is due gives the worker a ready
      queue. */
  lemma AdvanceDue(s: State) returns (acts: seq<Action>, t: State)
    requires Inv(s) && s.done && AllEnded(s) && SumHeaps(s.queues) > 0 && (s.worker == Looping || s.worker == Waiting)
    ensures CleansUp(s, acts, t) && Inv(t) && t.done && Nearer(s, t)
  {
    var q, due := WakesForItem(s);
    var m := s.(now := if s.now < due then due else s.now);
    StepLeads(s, Tick(m.now), m);
    DueSelection(m, q);
    t := Next(m, WorkerLoop(s.pending));
    StepLeads(m, WorkerLoop(s.pending), t);
    acts := [Tick(m.now)] + [WorkerLoop(s.pending)];
    TwoClean(s, Tick(m.now), m, WorkerLoop(s.pending), t);
  }

  lemma Advance(s: State) returns (acts: seq<Action>, t: State)
    requires Inv(s) && s.done && !s.joined
    ensures CleansUp(s, acts, t) && Inv(t) && t.done && (t.joined || Nearer(s, t))
  {
    if k :| 0 <= k < |s.tasks| && s.tasks[k].Active() {
      acts, t := AdvanceReceiver(s, k);
    } else if s.worker == Dispatching {
      acts, t := AdvanceDispatch(s);
    } else if SumHeaps(s.queues) > 0 {
      acts, t := AdvanceDue(s);
    } else {
      NoneInFlight(s.tasks);
      acts, t := AdvanceExhausted(s);
    }
  }

  lemma CanJoinFrom(s: State, acts: seq<Action>, t: State)
    requires CleansUp(s, acts, t) && CanJoin(t)
    ensures CanJoin(s)
  {
    var more :| NoNewWork(more) && Runnable(t, more) && After(t, more).joined;
    LeadsThen(s, acts, t, more, After(t, more));
  }

  /** From every state after `join` the source can be brought to its end without more work, whatever is
      queued, in flight, dispatched or selected. */
  lemma {:induction false} CleanUp(s: State)
    requires Inv(s) && s.done
    ensures CanJoin(s)
    decreases SumHeaps(s.queues), Rank(s)
  {
    if s.joined {
      JoinedAlready(s);
    } else {
      var acts, t := Advance(s);
      if t.joined { JoinedAlready(t); } else { CleanUp(t); }
      CanJoinFrom(s, acts, t);
    }
  }

  /** In every run, after `join` there is a continuation without new work that sets `joined_`; every item
      inserted has then started exactly once (`ExactlyOnceWhenJoined`). */
  lemma CanAlwaysJoin(now: int, acts: seq<Action>)
    requires Runnable(Init(now), acts) && After(Init(now), acts).done
    ensures CanJoin(After(Init(now), acts))
  {
    var s := Reached(now, acts);
    CleanUp(s);
  }

  /** An exhausted source that has been told to join does so by the worker's own sections alone. */
  lemma ExhaustedJoins(now: int, acts: seq<Action>) returns (own: seq<Action>)
    requires Runnable(Init(now), acts)
    requires var s := After(Init(now), acts); s.done && s.items == 0 && !s.joined
    ensures var s := After(Init(now), acts);
            && |own| <= 3 && WorkerOnly(own)
            && Runnable(s, own) && After(s, own).joined && After(s, own).worker == Exited
  {
    var s := Reached(now, acts);
    var t;
    own, t := WorkerJoins(s);
  }

  function OwnSections(pc: WorkerPC): nat {
    match pc
    case Looping => 1
    case Dispatching => 2
    case Waiting => 3
    case Exited => 0
  }

  /** The worker's next section on an exhausted source. */
  function OwnSection(s: State): Action {
    if s.worker == Dispatching then Dispatch else WorkerLoop(s.pending)
  }

  lemma OwnSectionNearer(s: State)
    requires Placed(s) && Counted(s) && s.done && s.items == 0 && !s.joined
    ensures Enabled(s, OwnSection(s))
    ensures var t := Next(s, OwnSection(s));
            && t.done && t.items == 0 && OwnSections(t.worker) < OwnSections(s.worker)
            && (t.joined <==> t.worker == Exited)
  {
    assert forall i :: 0 <= i < |s.pending| ==> s.pending[i] in s.pending;
    if s.worker == Dispatching { NothingReady(s); }
  }

  lemma OwnStep(s: State) returns (act: Action, t: State)
    requires Inv(s) && s.done && s.items == 0 && !s.joined
    ensures Leads(s, [act], t) && Inv(t) && (act.WorkerLoop? || act == Dispatch)
    ensures t.done && t.items == 0 && OwnSections(t.worker) < OwnSections(s.worker)
    ensures t.joined <==> t.worker == Exited
  {
    act := OwnSection(s);
    OwnSectionNearer(s);
    t := Next(s, act);
    StepLeads(s, act, t);
  }

  /** Only sections of the worker itself. */
  predicate WorkerOnly(acts: seq<Action>) {
    forall i :: 0 <= i < |acts| ==> acts[i].WorkerLoop? || acts[i] == Dispatch
  }

  lemma WorkerOnlyThen(act: Action, rest: seq<Action>)
    requires (act.WorkerLoop? || act == Dispatch) && WorkerOnly(rest)
    ensures WorkerOnly([act] + rest)
  {
  }

  lemma {:induction false} WorkerJoins(s: State) returns (own: seq<Action>, t: State)
    requires Inv(s) && s.done && s.items == 0 && !s.joined
    ensures |own| <= OwnSections(s.worker) && WorkerOnly(own)
    ensures Leads(s, own, t) && t.joined && t.worker == Exited
    decreases OwnSections(s.worker)
  {
    var act, m := OwnStep(s);
    if m.joined {
      own, t := [act], m;
    } else {
      var rest;
      rest, t := WorkerJoins(m);
      WorkerOnlyThen(act, rest);
      LeadsThen(s, [act], m, rest, t);
      own := [act] + rest;
    }
  }

  lemma NothingReady(s: State)
    requires Placed(s) && s.items == 0 && s.items == SumHeaps(s.queues) + InFlight(s.tasks)
    ensures s.ready == []
  {
    if s.ready != [] {
      var q := s.ready[0];
      assert q in s.ready;
      SumUpdate(s.queues, q, s.queues[q]);
    }
  }

  // --- Any workload can be run ---

  lemma InsertionsOfOne(act: Action)
    ensures InsertionsOf([act]) == InsertionOf(act)
  {
    assert [act][1..] == [];
  }

  lemma LeadsOne(s: State, a: seq<Action>, m: State, act: Action) returns (acts: seq<Action>, t: State)
    requires Leads(s, a, m) && Inv(m) && Enabled(m, act)
    ensures acts == a + [act] && Leads(s, acts, t) && t == Next(m, act) && Inv(t)
    ensures InsertionsOf(acts) == InsertionsOf(a) + InsertionOf(act)
  {
    acts, t := a + [act], Next(m, act);
    StepLeads(m, act, t);
    LeadsThen(s, a, m, [act], t);
    InsertionsAppend(a, [act]);
    InsertionsOfOne(act);
  }

  lemma {:induction false} AddQueues(now: int, n: nat) returns (acts: seq<Action>, t: State)
    ensures Leads(Init(now), acts, t) && Inv(t) && |t.queues| == n && !t.done && InsertionsOf(acts) == []
  {
    if n == 0 {
      InitInv(now);
      acts, t := [], Init(now);
    } else {
      acts, t := AddQueues(now, n - 1);
      acts, t := LeadsOne(Init(now), acts, t, AddQueue);
    }
  }

  lemma InsertKeeps(s: State, q: nat, when: int)
    requires q < |s.queues| && !s.done
    ensures var act := Insert(q, when, None);
            Enabled(s, act) && |Next(s, act).queues| == |s.queues| && !Next(s, act).done
  {
  }

  lemma {:induction false} InsertAll(now: int, n: nat, work: seq<Insertion>) returns (acts: seq<Action>, t: State)
    requires forall i :: 0 <= i < |work| ==> work[i].queue < n
    ensures Leads(Init(now), acts, t) && Inv(t) && |t.queues| == n && !t.done && InsertionsOf(acts) == work
    decreases |work|
  {
    if work == [] {
      acts, t := AddQueues(now, n);
    } else {
      var last := work[|work| - 1];
      acts, t := InsertAll(now, n, work[..|work| - 1]);
      var act := Insert(last.queue, last.when, None);
      InsertKeeps(t, last.queue, last.when);
      acts, t := LeadsOne(Init(now), acts, t, act);
      assert work == work[..|work| - 1] + [last];
    }
  }

  lemma {:induction false} NoNewWorkInserts(acts: seq<Action>)
    requires NoNewWork(acts)
    ensures InsertionsOf(acts) == []
  {
    if acts != [] { NoNewWorkInserts(acts[1..]); }
  }

  /** Every workload can be served: for any items in any queues there is a run that inserts exactly these,
      joins, and has then started each of them exactly once, none before its time. */
  lemma AnyWorkload(now: int, n: nat, work: seq<Insertion>) returns (acts: seq<Action>)
    requires forall i :: 0 <= i < |work| ==> work[i].queue < n
    ensures Runnable(Init(now), acts) && InsertionsOf(acts) == work
    ensures var s := After(Init(now), acts);
            && s.joined && s.inserted == work
            && (forall i :: 0 <= i < |work| ==> StartedId(s.started, i))
            && (forall b :: 0 <= b < |s.started| ==>
                  var st := s.started[b];
                  st.item.id < |work| && work[st.item.id] == Insertion(st.queue, st.item.when) && st.item.when <= st.at)
            && (forall b, c ::
                  0 <= b < |s.started| && 0 <= c < |s.started| && s.started[b].item.id == s.started[c].item.id ==>
                  b == c)
  {
    var t;
    acts, t := InsertAll(now, n, work);
    acts, t := LeadsOne(Init(now), acts, t, Join);
    CleanUp(t);
    var more :| NoNewWork(more) && Runnable(t, more) && After(t, more).joined;
    NoNewWorkInserts(more);
    InsertionsAppend(acts, more);
    LeadsThen(Init(now), acts, t, more, After(t, more));
    acts := acts + more;
    WorkloadDone(now, acts, work);
  }

  lemma WorkloadDone(now: int, acts: seq<Action>, work: seq<Insertion>)
    requires Runnable(Init(now), acts) && InsertionsOf(acts) == work && After(Init(now), acts).joined
    ensures var s := After(Init(now), acts);
            && s.inserted == work
            && (forall i :: 0 <= i < |work| ==> StartedId(s.started, i))
            && (forall b :: 0 <= b < |s.started| ==>
                  var st := s.started[b];
                  st.item.id < |work| && work[st.item.id] == Insertion(st.queue, st.item.when) && st.item.when <= st.at)
            && (forall b, c ::
                  0 <= b < |s.started| && 0 <= c < |s.started| && s.started[b].item.id == s.started[c].item.id ==>
                  b == c)
  {
    ItemsAreInsertions(now, acts);
    var s := After(Init(now), acts);
    forall i | 0 <= i < |work| ensures StartedId(s.started, i) { ExactlyOnceWhenJoined(now, acts, i); }
    forall b | 0 <= b < |s.started|
      ensures var st := s.started[b];
              st.item.id < |work| && work[st.item.id] == Insertion(st.queue, st.item.when) && st.item.when <= st.at
    {
      StartsAreSound(now, acts, b);
    }
    forall b, c | 0 <= b < |s.started| && 0 <= c < |s.started| && s.started[b].item.id == s.started[c].item.id
      ensures b == c
    {
      StartsAreSound(now, acts, b);
    }
  }
}
