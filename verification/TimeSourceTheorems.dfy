/** What every error-free run of the time source guarantees. */
module TimeSourceTheorems {
  import opened TimeSource
  import opened TimeSourceFlags
  import opened TimeSourceWake
  import opened TimeSourceHistory

  ghost predicate Inv(s: State) {
    Flags(s) && Counted(s) && Awake(s) && History(s)
  }

  lemma StepInv(s: State, act: Action)
    requires Inv(s) && Enabled(s, act)
    ensures Inv(Next(s, act))
  {
    if act.Insert? { NoInsertAfterJoin(s, act.queue, act.when, act.inside); }
    FlagsStep(s, act);
    CountedStep(s, act);
    AwakeStep(s, act);
    HistoryStep(s, act);
  }

  lemma {:induction false} RunInv(s: State, acts: seq<Action>)
    requires Inv(s) && Runnable(s, acts)
    ensures Inv(After(s, acts))
    decreases |acts|
  {
    if acts != [] {
      StepInv(s, acts[0]);
      RunInv(Next(s, acts[0]), acts[1..]);
    }
  }

  lemma Reached(now: int, acts: seq<Action>) returns (s: State)
    requires Runnable(Init(now), acts)
    ensures s == After(Init(now), acts) && Inv(s)
  {
    InitFlags(now);
    InitCounted(now);
    InitHistory(now);
    RunInv(Init(now), acts);
    s := After(Init(now), acts);
  }

  /** None of the terminate guards fires: not in `insert`, not in the queue's `value` or `done`. The next
      section finds `joined_` clear and its queue dispatching and not pending. */
  lemma NeverTerminates(now: int, acts: seq<Action>, act: Action)
    requires Runnable(Init(now), acts) && Enabled(After(Init(now), acts), act)
    ensures var s := After(Init(now), acts);
            && !s.terminated && !Next(s, act).terminated
            && (act.Insert? ==> !s.joined)
            && (act.Enter? || act.LeaveQueue? ==>
                  act.task < |s.tasks| && s.tasks[act.task].queue < |s.queues|
                  && s.queues[s.tasks[act.task].queue].dispatching && !s.queues[s.tasks[act.task].queue].pending)
  {
    var s := Reached(now, acts);
    StepInv(s, act);
    if act.Insert? { NoInsertAfterJoin(s, act.queue, act.when, act.inside); }
    assert act.Enter? || act.LeaveQueue? ==> s.tasks[act.task].Active();
  }

  /** How often queue `q` is in a list. */
  function Occurrences(list: seq<nat>, q: nat): nat {
    multiset(list)[q]
  }

  /** A queue is in the source's deque once or not at all, as its `pending_` flag says; a dispatching
      queue is not in the deque. */
  lemma PendingFlagExact(now: int, acts: seq<Action>, q: nat)
    requires Runnable(Init(now), acts) && q < |After(Init(now), acts).queues|
    ensures var s := After(Init(now), acts);
            && Occurrences(s.pending, q) == (if s.queues[q].pending then 1 else 0)
            && !(s.queues[q].pending && s.queues[q].dispatching)
  {
    var s := Reached(now, acts);
    assert multiset(s.pending)[q] <= 1;
    assert q in s.pending <==> q in multiset(s.pending);
  }

  /** At most one receiver is at work on a queue. */
  lemma OneDrainPerQueue(now: int, acts: seq<Action>, k: nat, l: nat)
    requires Runnable(Init(now), acts)
    requires k < |After(Init(now), acts).tasks| && l < |After(Init(now), acts).tasks|
    requires After(Init(now), acts).tasks[k].Active() && After(Init(now), acts).tasks[l].Active()
    requires After(Init(now), acts).tasks[k].queue == After(Init(now), acts).tasks[l].queue
    ensures k == l
  {
    var s := Reached(now, acts);
  }

  /** No item is stranded: a queue that holds an item is in the deque of a worker that has not
      left, or picked for dispatch, or has a receiver at work. */
  lemma NothingStranded(now: int, acts: seq<Action>, q: nat)
    requires Runnable(Init(now), acts)
    requires q < |After(Init(now), acts).queues| && After(Init(now), acts).queues[q].heap != multiset{}
    ensures var s := After(Init(now), acts);
            (q in s.pending && s.worker != Exited) || (q in s.ready && s.worker == Dispatching) || Draining(s, q)
  {
    var s := Reached(now, acts);
    SumUpdate(s.queues, q, s.queues[q]);
    var x :| x in s.queues[q].heap;
    assert |s.queues[q].heap| > 0;
  }

  /** `items_` counts what is queued plus what is popped and not finished, so the worker joins only
      when nothing is left. */
  lemma JoinIsSafe(now: int, acts: seq<Action>)
    requires Runnable(Init(now), acts)
    ensures var s := After(Init(now), acts);
            && s.items == SumHeaps(s.queues) + InFlight(s.tasks)
            && (s.joined ==> forall q :: 0 <= q < |s.queues| ==> s.queues[q].heap == multiset{})
            && (s.joined ==> forall k :: 0 <= k < |s.tasks| ==> !s.tasks[k].InFlight())
  {
    var s := Reached(now, acts);
    if s.joined {
      forall q | 0 <= q < |s.queues| ensures s.queues[q].heap == multiset{} {
        SumUpdate(s.queues, q, s.queues[q]);
      }
      forall k | 0 <= k < |s.tasks| ensures !s.tasks[k].InFlight() {
        InFlightUpdate(s.tasks, k, s.tasks[k]);
      }
    }
  }

  lemma DueQueuePicked(s: State, q: nat, x: Item)
    requires Placed(s) && Awake(s) && s.worker == Waiting
    requires q in s.pending && x in s.queues[q].heap && x.when <= s.now
    ensures Enabled(s, WorkerLoop(s.pending))
    ensures var s' := WorkerStep(s, s.pending);
            q in s'.ready && |s'.queues| == |s.queues| && s'.queues[q].dispatching
  {
    assert TopWhen(s.queues[q].heap) <= x.when;
    assert forall i :: 0 <= i < |s.pending| ==> s.pending[i] in s.pending;
    WorkerSelects(s, s.pending);
  }

  /** No missed wake-up: when an item of a queue in the deque is due, the waiting worker can run,
      and its next step picks that queue for dispatch. */
  lemma NoMissedWakeup(now: int, acts: seq<Action>, q: nat, x: Item)
    requires Runnable(Init(now), acts) && After(Init(now), acts).worker == Waiting
    requires q in After(Init(now), acts).pending && q < |After(Init(now), acts).queues|
    requires x in After(Init(now), acts).queues[q].heap && x.when <= After(Init(now), acts).now
    ensures var s := After(Init(now), acts);
            && Enabled(s, WorkerLoop(s.pending))
            && |WorkerStep(s, s.pending).queues| == |s.queues|
            && q in WorkerStep(s, s.pending).ready && WorkerStep(s, s.pending).queues[q].dispatching
  {
    var s := Reached(now, acts);
    DueQueuePicked(s, q, x);
  }

  /** The worker never waits on a joined, exhausted source without a notification. */
  lemma NoLostJoin(now: int, acts: seq<Action>)
    requires Runnable(Init(now), acts)
    requires var s := After(Init(now), acts); s.worker == Waiting && s.done && s.items == 0
    ensures var s := After(Init(now), acts); s.dirty != 0 && Enabled(s, WorkerLoop(s.pending))
  {
    var s := Reached(now, acts);
    assert forall i :: 0 <= i < |s.pending| ==> s.pending[i] in s.pending;
  }

  /** No receiver is at work on any queue. */
  predicate AllEnded(s: State) {
    forall k :: 0 <= k < |s.tasks| ==> !s.tasks[k].Active()
  }

  /** The worker can take its next section at time `t`. */
  predicate WorkerRunsAt(s: State, t: int) {
    s.worker == Dispatching || s.worker == Looping || (s.worker == Waiting && WakeUp(s.(now := t)))
  }

  /** Some queue of the deque holds an item, and the worker runs as soon as any item of any queue is due. */
  ghost predicate SleepsUntilDue(s: State)
    requires Ranges(s)
  {
    && (exists q :: q in s.pending && s.queues[q].heap != multiset{})
    && (forall q, x, t :: 0 <= q < |s.queues| && x in s.queues[q].heap && x.when <= t ==> WorkerRunsAt(s, t))
  }

  /** Shutdown does not get stuck: after `join`, while no receiver is at work, the source has joined, or
      the worker can run now, or it sleeps no longer than until the earliest queued item is due. */
  lemma ShutdownProgress(now: int, acts: seq<Action>)
    requires Runnable(Init(now), acts) && After(Init(now), acts).done && AllEnded(After(Init(now), acts))
    ensures var s := After(Init(now), acts);
            && Ranges(s)
            && (s.joined || WorkerRunsAt(s, s.now) || SleepsUntilDue(s))
  {
    var s := Reached(now, acts);
    if !s.joined && !WorkerRunsAt(s, s.now) {
      NoneInFlight(s.tasks);
      assert s.items == SumHeaps(s.queues);
      var p := SomeHeap(s.queues);
      forall q | 0 <= q < |s.queues| && s.queues[q].heap != multiset{}
        ensures q in s.pending && s.earliest <= TopWhen(s.queues[q].heap)
      {
        NotDispatching(s, q);
      }
      forall q, x, t | 0 <= q < |s.queues| && x in s.queues[q].heap && x.when <= t ensures WorkerRunsAt(s, t) {
        assert TopWhen(s.queues[q].heap) <= x.when;
      }
      assert p in s.pending;
    }
  }

  /** A queue that is dispatching is being dispatched by the worker or has a receiver at work. */
  lemma NotDispatching(s: State, q: nat)
    requires Flags(s) && AllEnded(s) && s.worker != Dispatching && q < |s.queues|
    ensures !s.queues[q].dispatching
  {
    assert s.ready == [];
    assert !Draining(s, q);
  }

  lemma {:induction false} NoneInFlight(tasks: seq<Task>)
    requires forall k :: 0 <= k < |tasks| ==> !tasks[k].Active()
    ensures InFlight(tasks) == 0
  {
    if tasks != [] { NoneInFlight(tasks[1..]); }
  }

  lemma {:induction false} SomeHeap(queues: seq<Queue>) returns (q: nat)
    requires SumHeaps(queues) > 0
    ensures q < |queues| && queues[q].heap != multiset{}
  {
    if |queues[0].heap| > 0 {
      q := 0;
    } else {
      q := SomeHeap(queues[1..]);
      q := q + 1;
    }
  }

  /** Time order: if `x` was inserted into a queue before `y` was popped from it and `x` is due
      earlier, then `x` starts before `y`. */
  lemma TimeOrder(now: int, acts: seq<Action>, i: nat, k: nat, b: nat)
    requires Runnable(Init(now), acts)
    requires k < |After(Init(now), acts).popped| && b < |After(Init(now), acts).started|
    requires After(Init(now), acts).started[b].item == After(Init(now), acts).popped[k].item
    requires i < After(Init(now), acts).popped[k].insertedBefore && i < |After(Init(now), acts).inserted|
    requires Sooner(After(Init(now), acts), i, k)
    ensures exists a :: 0 <= a < b && After(Init(now), acts).started[a].item.id == i
  {
    var s := Reached(now, acts);
    assert PoppedId(s.popped[..k], i);
    var j :| 0 <= j < k && s.popped[..k][j].item.id == i;
    assert PoppedAfter(s.popped, j, k);
    assert StartedId(s.started[..b], i);
    var a :| 0 <= a < b && s.started[..b][a].item.id == i;
    assert s.started[a].item.id == i;
  }

  /** Every started item was inserted into the queue that runs it, starts at most once and not
      before its time. */
  lemma StartsAreSound(now: int, acts: seq<Action>, b: nat)
    requires Runnable(Init(now), acts) && b < |After(Init(now), acts).started|
    ensures var s := After(Init(now), acts);
            var st := s.started[b];
            && st.item.id < |s.inserted| && s.inserted[st.item.id] == Insertion(st.queue, st.item.when)
            && st.item.when <= st.at <= s.now
            && (forall c :: 0 <= c < |s.started| && s.started[c].item.id == st.item.id ==> c == b)
  {
    var s := Reached(now, acts);
    assert StartOfPop(s, b);
  }

  /** Once the source has joined, every inserted item has started exactly once. */
  lemma ExactlyOnceWhenJoined(now: int, acts: seq<Action>, i: nat)
    requires Runnable(Init(now), acts) && After(Init(now), acts).joined && i < |After(Init(now), acts).inserted|
    ensures var s := After(Init(now), acts);
            && (exists b :: 0 <= b < |s.started| && s.started[b].item == ItemAt(s, i))
            && (forall b, c | 0 <= b < |s.started| && 0 <= c < |s.started| ::
                  s.started[b].item.id == i && s.started[c].item.id == i ==> b == c)
  {
    var s := Reached(now, acts);
    JoinIsSafe(now, acts);
    assert Accounted(s, i);
    var k :| 0 <= k < |s.popped| && s.popped[k].item.id == i;
    assert PopHandled(s, k);
    assert !Sleeper(s, s.popped[k].queue, s.popped[k].item);
    var b :| 0 <= b < |s.started| && s.started[b].item.id == i;
    StartsAreSound(now, acts, b);
  }
}
