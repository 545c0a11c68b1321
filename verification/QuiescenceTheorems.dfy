/** What the waiter's condition means, when it lasts, and when lock_state is outlived by an access. */
module QuiescenceTheorems {
  import opened Quiescence

  // --- The condition ---

  /** What quiescence means: the sender has finished, no user code of the submission runs or can run
      any more, and all that is left to do is notify. */
  lemma QuiescentMeans(s: State)
    requires Inv(s)
    ensures Quiescent(s) <==> s.upstream == Closed && (forall k :: 0 <= k < |s.frames| ==> s.frames[k] == Left)
                              && (forall k :: 0 <= k < |s.tasks| ==> Ended(s.tasks[k]))
  {
    if Quiescent(s) {
      forall k | 0 <= k < |s.tasks| ensures Ended(s.tasks[k]) { LiveUpdate(s.tasks, k, s.tasks[k]); }
    } else if s.upstream == Closed && forall k :: 0 <= k < |s.tasks| ==> Ended(s.tasks[k]) {
      NoneLive(s.tasks);
      NoneActive(s.frames);
    }
  }

  /** Quiescence is lost by one kind of step only: a submission with an executor that escaped. */
  lemma QuiescenceStable(s: State, act: Action)
    requires Inv(s) && Quiescent(s) && Enabled(s, act)
    ensures Quiescent(Next(s, act)) <==> act != Escape
  {
    QuiescentMeans(s);
  }

  /** Escaped executors are used, if at all, only while the waiter's condition does not hold. */
  predicate Confined(s: State, acts: seq<Action>)
    requires Runnable(s, acts)
    decreases |acts|
  {
    acts == [] || ((acts[0] == Escape ==> !Quiescent(s)) && Confined(Next(s, acts[0]), acts[1..]))
  }

  /** The condition holds now and after every step of the run. */
  predicate StaysQuiescent(s: State, acts: seq<Action>)
    requires Runnable(s, acts)
    decreases |acts|
  {
    Quiescent(s) && (acts == [] || StaysQuiescent(Next(s, acts[0]), acts[1..]))
  }

  /** Once reached, quiescence lasts for exactly those runs that stay confined. */
  lemma {:induction false} StableWhileConfined(s: State, acts: seq<Action>)
    requires Inv(s) && Quiescent(s) && Runnable(s, acts)
    ensures Confined(s, acts) <==> StaysQuiescent(s, acts)
    decreases |acts|
  {
    if acts != [] {
      QuiescenceStable(s, acts[0]);
      InvStep(s, acts[0]);
      if acts[0] != Escape { StableWhileConfined(Next(s, acts[0]), acts[1..]); }
    }
  }

  /** The step leaves somebody about to notify. */
  predicate BeginsToNotify(s: State, act: Action)
    requires Enabled(s, act)
  {
    var t := Next(s, act);
    || (act.FrameStep? && s.frames[act.k] == Active && t.frames[act.k] == Signalling)
    || (act.TaskStep? && s.tasks[act.k] == Completing && t.tasks[act.k] == Notifying)
  }

  /** Exactly the steps that bring the counter to zero are followed by a notification. */
  lemma NotifiedAtZero(s: State, act: Action)
    requires Inv(s) && Enabled(s, act)
    ensures BeginsToNotify(s, act) <==> s.nested > 0 && Next(s, act).nested == 0
  {
    match act
    case FrameStep(k) => ActiveUpdate(s.frames, k, s.frames[k]);
    case TaskStep(k) => LiveUpdate(s.tasks, k, s.tasks[k]);
    case _ =>
  }

  // --- The waiter ---

  predicate ReturnsSafely(s: State) {
    s.waiter == Returned ==> Quiescent(s)
  }

  lemma {:induction false} ReturnedMeansQuiescent(s: State, acts: seq<Action>)
    requires Inv(s) && ReturnsSafely(s) && Runnable(s, acts) && Confined(s, acts)
    ensures ReturnsSafely(After(s, acts))
    decreases |acts|
  {
    if acts != [] {
      if Quiescent(s) { QuiescenceStable(s, acts[0]); }
      InvStep(s, acts[0]);
      ReturnedMeansQuiescent(Next(s, acts[0]), acts[1..]);
    }
  }

  /** In a confined run the waiter returns only when the sender has finished and every nested task has
      given its count back. From then on no user code of the submission runs: a notification is all
      that can still happen. */
  lemma ReturnedMeansFinished(acts: seq<Action>)
    requires Runnable(INIT, acts) && Confined(INIT, acts) && After(INIT, acts).waiter == Returned
    ensures var s := After(INIT, acts);
            && s.upstream == Closed && (forall k :: 0 <= k < |s.frames| ==> s.frames[k] == Left)
            && (forall k :: 0 <= k < |s.tasks| ==> Ended(s.tasks[k]))
            && forall act :: Enabled(s, act) && act != Escape ==>
                 act.TaskStep? && s.tasks[act.k] == Notifying
  {
    NestedExact(INIT, acts);
    ReturnedMeansQuiescent(INIT, acts);
    QuiescentMeans(After(INIT, acts));
  }

  /** When nothing but the waiter can move, its next two loads make it return. */
  lemma IdleReturns(acts: seq<Action>)
    requires Runnable(INIT, acts) && After(INIT, acts).waiter == Testing
    requires forall act :: Enabled(After(INIT, acts), act) ==> act == Escape || act == Wait
    ensures var s := After(INIT, acts);
            Enabled(s, Wait) && Enabled(Next(s, Wait), Wait) && Next(Next(s, Wait), Wait).waiter == Returned
  {
    var s := After(INIT, acts);
    NestedExact(INIT, acts);
    assert !Enabled(s, Terminate) && !Enabled(s, Value);
    forall k | 0 <= k < |s.frames| ensures s.frames[k] == Left { assert !Enabled(s, FrameStep(k)); }
    forall k | 0 <= k < |s.tasks| ensures s.tasks[k] == Completed { assert !Enabled(s, TaskStep(k)); }
    QuiescentMeans(s);
  }

  // --- The lifetime of lock_state ---

  /** A task has got `nested` to zero and has not notified yet. */
  predicate NotifyPending(s: State) {
    exists k :: 0 <= k < |s.tasks| && s.tasks[k] == Notifying
  }

  /** In confined runs the only access that can find lock_state dead is the notification a nested
      task makes, without the mutex, after it has decremented the counter. */
  lemma OnlyNotifyFaults(acts: seq<Action>, act: Action)
    requires Runnable(INIT, acts) && Confined(INIT, acts)
    requires Enabled(After(INIT, acts), act) && (act == Escape ==> !Quiescent(After(INIT, acts)))
    requires !After(INIT, acts).fault && Next(After(INIT, acts), act).fault
    ensures act.TaskStep? && After(INIT, acts).tasks[act.k] == Notifying
  {
    ReturnedMeansFinished(acts);
    NestedExact(INIT, acts);
    ReturnedMeansQuiescent(INIT, acts);
  }

  /** Some confined continuation accesses the dead lock_state. */
  ghost predicate CanFault(s: State) {
    exists acts :: Runnable(s, acts) && Confined(s, acts) && After(s, acts).fault
  }

  /** A confined step towards a fault. */
  lemma FaultLater(s: State, act: Action)
    requires Enabled(s, act) && act != Escape && CanFault(Next(s, act))
    ensures CanFault(s)
  {
    var t := Next(s, act);
    var acts :| Runnable(t, acts) && Confined(t, acts) && After(t, acts).fault;
    var all := [act] + acts;
    assert all[0] == act && all[1..] == acts;
    assert Runnable(s, all) && Confined(s, all) && After(s, all).fault;
  }

  lemma FaultNow(s: State)
    requires s.fault
    ensures CanFault(s)
  {
    assert Runnable(s, []) && Confined(s, []) && After(s, []).fault;
  }

  /** The waiter overtakes a task between its decrement and its notification. */
  lemma OvertakenNotify(s: State, k: nat)
    requires s.done && s.nested == 0 && k < |s.tasks| && s.tasks[k] == Notifying
    ensures CanFault(s)
    decreases if s.waiter == Testing then 2 else if s.waiter == SeenDone then 1 else 0
  {
    if s.waiter == Returned {
      FaultNow(Next(s, TaskStep(k)));
      FaultLater(s, TaskStep(k));
    } else {
      OvertakenNotify(Next(s, Wait), k);
      FaultLater(s, Wait);
    }
  }

  /** The steps a task has before it gives its count back. */
  function Ahead(t: Task): nat {
    match t
    case Counted => 4
    case Submitted => 3
    case Running => 2
    case Completing => 1
    case Notifying => 0
    case Completed => 0
  }

  function AheadAll(tasks: seq<Task>): nat {
    if tasks == [] then 0 else Ahead(tasks[0]) + AheadAll(tasks[1..])
  }

  lemma {:induction false} AheadUpdate(tasks: seq<Task>, k: nat, t: Task)
    requires k < |tasks|
    ensures AheadAll(tasks[k := t]) == AheadAll(tasks) - Ahead(tasks[k]) + Ahead(t)
  {
    if k > 0 {
      AheadUpdate(tasks[1..], k - 1, t);
      assert tasks[k := t][1..] == tasks[1..][k - 1 := t];
    } else {
      assert tasks[k := t][1..] == tasks[1..];
    }
  }

  /** With the terminal signal over and a task still live, the last task to finish can be overtaken. */
  lemma {:induction false} LiveTaskFaults(s: State)
    requires Inv(s) && s.done && s.nested > 0
    ensures CanFault(s)
    decreases AheadAll(s.tasks)
  {
    NoneActive(s.frames);
    var k := SomeLive(s.tasks);
    var t := Next(s, TaskStep(k));
    InvStep(s, TaskStep(k));
    AheadUpdate(s.tasks, k, t.tasks[k]);
    if t.nested > 0 { LiveTaskFaults(t); } else { OvertakenNotify(t, k); }
    FaultLater(s, TaskStep(k));
  }

  /** Nothing is left that could access lock_state. */
  lemma {:induction false} SettledNeverFaults(s: State, acts: seq<Action>)
    requires Inv(s) && Quiescent(s) && !NotifyPending(s) && !s.fault
    requires Runnable(s, acts) && Confined(s, acts)
    ensures !After(s, acts).fault
    decreases |acts|
  {
    if acts != [] {
      QuiescentMeans(s);
      assert forall k :: 0 <= k < |s.tasks| ==> s.tasks[k] == Completed;
      assert acts[0] == Wait;
      InvStep(s, acts[0]);
      SettledNeverFaults(Next(s, acts[0]), acts[1..]);
    }
  }

  /** When lock_state can be outlived, exactly: once `done` is set, some confined continuation accesses
      the dead lock_state if and only if `nested` is not zero or a task is about to notify. */
  lemma LifetimeExact(acts: seq<Action>)
    requires Runnable(INIT, acts) && Confined(INIT, acts)
    requires After(INIT, acts).done && !After(INIT, acts).fault
    ensures var s := After(INIT, acts); CanFault(s) <==> s.nested > 0 || NotifyPending(s)
  {
    var s := After(INIT, acts);
    NestedExact(INIT, acts);
    if s.nested > 0 {
      LiveTaskFaults(s);
    } else if NotifyPending(s) {
      var k :| 0 <= k < |s.tasks| && s.tasks[k] == Notifying;
      OvertakenNotify(s, k);
    } else if CanFault(s) {
      var more :| Runnable(s, more) && Confined(s, more) && After(s, more).fault;
      SettledNeverFaults(s, more);
    }
  }

  // --- Concrete runs ---

  lemma {:induction false} RunSnoc(s: State, acts: seq<Action>, act: Action)
    requires Runnable(s, acts) && Enabled(After(s, acts), act)
    ensures Runnable(s, acts + [act]) && After(s, acts + [act]) == Next(After(s, acts), act)
    ensures Confined(s, acts + [act])
            <==> Confined(s, acts) && (act == Escape ==> !Quiescent(After(s, acts)))
    decreases |acts|
  {
    if acts == [] {
      assert acts + [act] == [act] && [act][1..] == [];
      assert Runnable(Next(s, act), []) && Confined(Next(s, act), []);
    } else {
      assert (acts + [act])[1..] == acts[1..] + [act];
      RunSnoc(Next(s, acts[0]), acts[1..], act);
    }
  }

  /** The run `acts` goes from the start to `s`. */
  predicate RunsTo(acts: seq<Action>, s: State) {
    Runnable(INIT, acts) && After(INIT, acts) == s
  }

  lemma Then(acts: seq<Action>, s: State, act: Action) returns (more: seq<Action>, t: State)
    requires RunsTo(acts, s) && Enabled(s, act)
    ensures more == acts + [act] && t == Next(s, act) && RunsTo(more, t)
    ensures Confined(INIT, more) <==> Confined(INIT, acts) && (act == Escape ==> !Quiescent(s))
  {
    RunSnoc(INIT, acts, act);
    more, t := acts + [act], Next(s, act);
  }

  /** A value call that returns. */
  lemma OneValue(submits: bool) returns (acts: seq<Action>, s: State)
    ensures RunsTo(acts, s) && Confined(INIT, acts)
    ensures s == State(false, if submits then 1 else 0, [Left], if submits then [Counted] else [], Live, Testing, false)
  {
    acts, s := [], INIT;
    assert RunsTo(acts, s) && Confined(INIT, acts);
    acts, s := Then(acts, s, Value);
    acts, s := Then(acts, s, FrameStep(0));
    if submits { acts, s := Then(acts, s, FrameSubmit(0)); }
    acts, s := Then(acts, s, FrameStep(0));
    if !submits { acts, s := Then(acts, s, FrameStep(0)); }
  }

  /** A confined run in which a task notifies through a lock_state that the waiter has left behind. */
  lemma NotifyAfterReturn() returns (acts: seq<Action>, s: State)
    ensures RunsTo(acts, s) && Confined(INIT, acts)
    ensures s.waiter == Returned && s.tasks == [Completed] && s.fault
  {
    acts, s := OneValue(true);
    acts, s := Then(acts, s, Terminate);
    acts, s := Then(acts, s, Terminate);
    acts, s := Then(acts, s, TaskStep(0));
    acts, s := Then(acts, s, TaskStep(0));
    acts, s := Then(acts, s, TaskStep(0));
    acts, s := Then(acts, s, Wait);
    acts, s := Then(acts, s, TaskStep(0));
    acts, s := Then(acts, s, Wait);
    acts, s := Then(acts, s, TaskStep(0));
  }

  /** Confinement is needed: an executor kept from a value call submits after the waiter has returned,
      so the waiter has left with a task to come and the submission finds lock_state dead. */
  lemma EscapeBreaks() returns (acts: seq<Action>, s: State)
    ensures RunsTo(acts, s) && !Confined(INIT, acts)
    ensures s.waiter == Returned && s.tasks == [Counted] && s.fault
  {
    acts, s := OneValue(false);
    acts, s := Then(acts, s, Terminate);
    acts, s := Then(acts, s, Terminate);
    acts, s := Then(acts, s, Wait);
    acts, s := Then(acts, s, Wait);
    assert s.frames[0] != Entering;
    acts, s := Then(acts, s, Escape);
  }
}
