/** The timer of include/pushmi/time_source.h: one worker thread, many queues. Every section that
    holds the lock is one step. Error delivery is not part of the model. */
module TimeSource {
  import opened Wrappers

  // Times are in milliseconds.
  const LONGEST_WAIT := 24 * 60 * 60 * 1000

  /** A heap item. `id` is the position of its insertion among all insertions. */
  datatype Item = Item(id: nat, when: int)

  /** `time_source_queue_base`; the priority queue is a multiset with extract-min. */
  datatype Queue = Queue(dispatching: bool, pending: bool, heap: multiset<Item>)

  predicate IsTop(heap: multiset<Item>, x: Item) {
    x in heap && forall y :: y in heap ==> x.when <= y.when
  }

  lemma {:induction false} TopExists(heap: multiset<Item>)
    requires heap != multiset{}
    ensures exists x :: IsTop(heap, x)
    decreases |heap|
  {
    var x :| x in heap;
    var rest := heap - multiset{x};
    if rest == multiset{} {
      assert heap == multiset{x};
      assert IsTop(heap, x);
    } else {
      TopExists(rest);
      var y :| IsTop(rest, y);
      assert heap == rest + multiset{x};
      assert IsTop(heap, if x.when <= y.when then x else y);
    }
  }

  /** `heap_.top().when` */
  ghost function TopWhen(heap: multiset<Item>): (t: int)
    requires heap != multiset{}
    ensures exists x :: x in heap && x.when == t
    ensures forall y :: y in heap ==> t <= y.when
  {
    TopExists(heap);
    var x :| IsTop(heap, x);
    x.when
  }

  /** A queue receiver handed to an executor. It gets `value`, then `done`. */
  datatype TaskPC =
    | Dispatched
    | Sleeping(start: int, item: Item)   // popped the item, waits for its time
    | Running(start: int, item: Item)    // inside the item's callbacks
    | Drained                            // `value` has returned
    | Ended                              // `done` has returned

  datatype Task = Task(queue: nat, pc: TaskPC) {
    predicate Active() {
      pc != Ended
    }

    predicate InFlight() {
      pc.Sleeping? || pc.Running?
    }
  }

  /** The worker thread: about to test its loop condition, in `wait_until`, dispatching the queues
      of `ready`, or gone. */
  datatype WorkerPC = Looping | Waiting | Dispatching | Exited

  // History, read by no step.
  datatype Insertion = Insertion(queue: nat, when: int)
  datatype Pop = Pop(queue: nat, item: Item, insertedBefore: nat)
  datatype Start = Start(queue: nat, item: Item, at: int)

  datatype State = State(
    now: int,
    queues: seq<Queue>, pending: seq<nat>, ready: seq<nat>,
    worker: WorkerPC, earliest: int, done: bool, joined: bool, dirty: nat, items: int,
    tasks: seq<Task>,
    inserted: seq<Insertion>, popped: seq<Pop>, started: seq<Start>,
    terminated: bool)

  function Init(now: int): State {
    State(now, [], [], [], Looping, now + LONGEST_WAIT, false, false, 0, 0, [], [], [], [], false)
  }

  /** `start` of `Enter` is the queue's own clock plus 50 ms; that clock may show any time. `top` is the
      top of the queue's heap, `garbage` what the top of an empty heap reads as. */
  datatype Action =
    | Tick(now: int)
    | AddQueue
    | Insert(queue: nat, when: int, inside: Option<nat>)
    | Join
    | WorkerLoop(order: seq<nat>)
    | Dispatch
    | Enter(task: nat, start: int, top: Item)
    | StartItem(task: nat)
    | FinishItem(task: nat, top: Item)
    | LeaveQueue(task: nat, garbage: int)

  predicate WakeUp(s: State) {
    s.dirty != 0 || s.now >= s.earliest
  }

  /** Items come from the outside only before `join`, afterwards only from inside a running item. */
  ghost predicate Enabled(s: State, act: Action) {
    match act
    case Tick(t) => s.now <= t
    case AddQueue => true
    case Insert(q, _, inside) =>
      && q < |s.queues|
      && (match inside
          case None => !s.done
          case Some(k) => k < |s.tasks| && s.tasks[k].pc.Running?)
    case Join => true
    case WorkerLoop(order) =>
      && (s.worker == Looping || (s.worker == Waiting && WakeUp(s)))
      && multiset(order) == multiset(s.pending)
      && forall i :: 0 <= i < |order| ==> order[i] < |s.queues|
    case Dispatch => s.worker == Dispatching
    case Enter(k, _, top) =>
      k < |s.tasks| && s.tasks[k].pc == Dispatched && HeapTop(s, k, top)
    case StartItem(k) =>
      k < |s.tasks| && s.tasks[k].pc.Sleeping? && s.tasks[k].pc.item.when <= s.now
    case FinishItem(k, top) =>
      k < |s.tasks| && s.tasks[k].pc.Running? && HeapTop(s, k, top)
    case LeaveQueue(k, _) => k < |s.tasks| && s.tasks[k].pc == Drained && s.tasks[k].queue < |s.queues|
  }

  predicate HeapTop(s: State, k: nat, top: Item)
    requires k < |s.tasks|
  {
    && s.tasks[k].queue < |s.queues|
    && (s.queues[s.tasks[k].queue].heap != multiset{} ==> IsTop(s.queues[s.tasks[k].queue].heap, top))
  }

  // --- The worker's selection of ready queues ---

  /** `time_item_process_pred_fn` on one queue, without the update of `earliest`. */
  ghost function Process(q: Queue, start: int): Queue {
    var ready := !q.dispatching && q.heap != multiset{} && TopWhen(q.heap) <= start;
    Queue(ready, !ready && q.heap != multiset{}, q.heap)
  }

  function Min(a: int, b: int): int {
    if b < a then b else a
  }

  datatype Selection = Selection(queues: seq<Queue>, kept: seq<nat>, ready: seq<nat>, earliest: int)

  /** `std::partition` with the predicate above over the queues in `order`, then `std::copy_if` of
      the non-empty queues among the rest. */
  ghost function Select(queues: seq<Queue>, order: seq<nat>, start: int, earliest: int): Selection
    requires forall i :: 0 <= i < |order| ==> order[i] < |queues|
    decreases |order|
  {
    if order == [] then Selection(queues, [], [], earliest) else
    var q := order[0];
    var p := Process(queues[q], start);
    var rest := Select(queues[q := p], order[1..], start,
                       if p.pending then Min(earliest, TopWhen(p.heap)) else earliest);
    if p.pending then rest.(kept := [q] + rest.kept)
    else if p.heap != multiset{} then rest.(ready := [q] + rest.ready)
    else rest
  }

  // --- Steps ---

  ghost function InsertStep(s: State, q: nat, when: int): State
    requires q < |s.queues|
  {
    if s.joined then s.(terminated := true) else
    var item := Item(|s.inserted|, when);
    var queue := s.queues[q].(heap := s.queues[q].heap + multiset{item});
    var add := !queue.dispatching && !queue.pending;
    s.(queues := s.queues[q := if add then queue.(pending := true) else queue],
       pending := if add then s.pending + [q] else s.pending,
       items := s.items + 1,
       dirty := if TopWhen(queue.heap) < s.earliest then s.dirty + 1 else s.dirty,
       inserted := s.inserted + [Insertion(q, when)])
  }

  /** The selection of ready queues now; `earliest` starts a day ahead. */
  ghost function Selecting(s: State, order: seq<nat>): Selection
    requires forall i :: 0 <= i < |order| ==> order[i] < |s.queues|
  {
    Select(s.queues, order, s.now, s.now + LONGEST_WAIT)
  }

  ghost function WorkerStep(s: State, order: seq<nat>): State
    requires forall i :: 0 <= i < |order| ==> order[i] < |s.queues|
  {
    if s.worker == Looping && s.done && s.items <= 0 then
      s.(joined := true, worker := Exited)
    else if !WakeUp(s) then
      s.(worker := Waiting)
    else
      var sel := Selecting(s, order);
      s.(dirty := 0, queues := sel.queues, earliest := sel.earliest, ready := sel.ready,
         pending := sel.kept, worker := Dispatching)
  }

  ghost function DispatchStep(s: State): State {
    if s.ready == [] then s.(worker := Looping)
    else s.(ready := s.ready[1..], tasks := s.tasks + [Task(s.ready[0], Dispatched)])
  }

  /** The loop test of `time_source_queue::value`: pop the next item that is due in the window, or
      return, telling the worker when the heap is empty. */
  ghost function DrainStep(s: State, k: nat, start: int, top: Item): State
    requires k < |s.tasks| && s.tasks[k].queue < |s.queues|
  {
    var q := s.tasks[k].queue;
    if s.queues[q].heap == multiset{} then
      s.(dirty := s.dirty + 1, tasks := s.tasks[k := Task(q, Drained)])
    else if top.when <= start then
      s.(queues := s.queues[q := s.queues[q].(heap := s.queues[q].heap - multiset{top})],
         tasks := s.tasks[k := Task(q, Sleeping(start, top))],
         popped := s.popped + [Pop(q, top, |s.inserted|)])
    else
      s.(tasks := s.tasks[k := Task(q, Drained)])
  }

  ghost function EnterStep(s: State, k: nat, start: int, top: Item): State
    requires k < |s.tasks| && s.tasks[k].queue < |s.queues|
  {
    var q := s.tasks[k].queue;
    if !s.queues[q].dispatching || s.queues[q].pending then s.(terminated := true)
    else if s.queues[q].heap == multiset{} then s.(tasks := s.tasks[k := Task(q, Drained)])
    else DrainStep(s, k, start, top)
  }

  ghost function StartStep(s: State, k: nat): State
    requires k < |s.tasks| && s.tasks[k].pc.Sleeping?
  {
    var t := s.tasks[k];
    s.(tasks := s.tasks[k := t.(pc := Running(t.pc.start, t.pc.item))],
       started := s.started + [Start(t.queue, t.pc.item, s.now)])
  }

  /** `time_source_queue::done`. Reading the top of an empty heap gives `garbage`. */
  ghost function LeaveStep(s: State, k: nat, garbage: int): State
    requires k < |s.tasks| && s.tasks[k].queue < |s.queues|
  {
    var q := s.tasks[k].queue;
    if !s.queues[q].dispatching || s.queues[q].pending then s.(terminated := true) else
    var top := if s.queues[q].heap == multiset{} then garbage else TopWhen(s.queues[q].heap);
    s.(queues := s.queues[q := s.queues[q].(dispatching := false, pending := true)],
       pending := s.pending + [q],
       dirty := if top <= s.earliest then s.dirty + 1 else s.dirty,
       tasks := s.tasks[k := Task(q, Ended)])
  }

  ghost function Next(s: State, act: Action): State
    requires Enabled(s, act)
  {
    match act
    case Tick(t) => s.(now := t)
    case AddQueue => s.(queues := s.queues + [Queue(false, false, multiset{})])
    case Insert(q, when, _) => InsertStep(s, q, when)
    case Join => s.(done := true, dirty := s.dirty + 1)
    case WorkerLoop(order) => WorkerStep(s, order)
    case Dispatch => DispatchStep(s)
    case Enter(k, start, top) => EnterStep(s, k, start, top)
    case StartItem(k) => StartStep(s, k)
    case FinishItem(k, top) => DrainStep(s.(items := s.items - 1), k, s.tasks[k].pc.start, top)
    case LeaveQueue(k, garbage) => LeaveStep(s, k, garbage)
  }

  // --- Runs ---

  ghost predicate Runnable(s: State, acts: seq<Action>)
    decreases |acts|
  {
    acts == [] || (Enabled(s, acts[0]) && Runnable(Next(s, acts[0]), acts[1..]))
  }

  ghost function After(s: State, acts: seq<Action>): State
    requires Runnable(s, acts)
    decreases |acts|
  {
    if acts == [] then s else After(Next(s, acts[0]), acts[1..])
  }
}
