/** blocking_submit: the counter of nested work, the done flag, the notifications and the waiter's
    test. Every access to the shared lock_state is one step, a section that holds its mutex too; value
    frames, nested tasks, the upstream sender and the waiter interleave freely. The lock_state is a
    local variable of the waiter and is gone when the waiter has returned. */
module Quiescence {
  /** A call of `on_value_impl` with an executor. */
  datatype Frame =
    | Entering     // past the receiver's guard, about to increment `nested`
    | Active       // in set_value(out, nested executor), then decrements `nested`
    | Signalling   // got `nested` to zero, about to notify under the mutex
    | Left

  /** A task submitted to a nested executor. */
  datatype Task =
    | Counted      // `nested` incremented, about to be handed to the real executor
    | Submitted    // waiting in the real executor
    | Running      // in set_value(out_, nested executor)
    | Completing   // in set_done(out_) or set_error(out_), then decrements `nested`
    | Notifying    // got `nested` to zero, about to notify without the mutex
    | Completed

  /** The upstream sender: its terminal signal runs the user's function and then sets `done`. */
  datatype Upstream = Live | Closing | Closed

  /** The waiter tests `done` and then loads `nested`. Once it has returned, lock_state is dead. */
  datatype Waiter = Testing | SeenDone | Returned

  /** `fault` records an access to the dead lock_state. */
  datatype State = State(done: bool, nested: int, frames: seq<Frame>, tasks: seq<Task>,
                         upstream: Upstream, waiter: Waiter, fault: bool)

  const INIT: State := State(false, 0, [], [], Live, Testing, false)

  datatype Action =
    | Value                 // the sender signals an executor
    | Terminate             // the sender's terminal signal, and its steps
    | FrameStep(k: nat)
    | FrameSubmit(k: nat)   // user code in a frame submits to the nested executor
    | TaskStep(k: nat)
    | TaskFails(k: nat)     // the real executor signals an error instead of running the task
    | TaskSubmit(k: nat)    // user code in a task submits to the nested executor
    | Escape                // anybody else does, with a nested executor that a value call gave away
    | Wait

  /** The sender signals a terminal only when its value calls have returned, and nothing after it. */
  predicate Enabled(s: State, act: Action) {
    match act
    case Value => s.upstream == Live
    case Terminate =>
      if s.upstream == Live then forall k :: 0 <= k < |s.frames| ==> s.frames[k] == Left else s.upstream == Closing
    case FrameStep(k) => k < |s.frames| && s.frames[k] != Left
    case FrameSubmit(k) => k < |s.frames| && s.frames[k] == Active
    case TaskStep(k) => k < |s.tasks| && s.tasks[k] != Completed
    case TaskFails(k) => k < |s.tasks| && s.tasks[k] == Submitted
    case TaskSubmit(k) => k < |s.tasks| && (s.tasks[k] == Running || s.tasks[k] == Completing)
    case Escape => exists k :: 0 <= k < |s.frames| && s.frames[k] != Entering
    case Wait => s.waiter != Returned
  }

  /** The step reads or writes lock_state, apart from the waiter's own loads. */
  predicate Accesses(s: State, act: Action)
    requires Enabled(s, act)
  {
    match act
    case Value => false
    case Terminate => s.upstream == Closing
    case FrameStep(_) => true
    case FrameSubmit(_) => true
    case TaskStep(k) => s.tasks[k] == Completing || s.tasks[k] == Notifying
    case TaskFails(_) => false
    case TaskSubmit(_) => true
    case Escape => true
    case Wait => false
  }

  function Submit(s: State): State {
    s.(nested := s.nested + 1, tasks := s.tasks + [Counted])
  }

  function StepFrame(s: State, k: nat): State
    requires k < |s.frames|
  {
    match s.frames[k]
    case Entering => s.(nested := s.nested + 1, frames := s.frames[k := Active])
    case Active => s.(nested := s.nested - 1, frames := s.frames[k := if s.nested - 1 == 0 then Signalling else Left])
    case Signalling => s.(frames := s.frames[k := Left])
    case Left => s
  }

  function StepTask(s: State, k: nat): State
    requires k < |s.tasks|
  {
    match s.tasks[k]
    case Counted => s.(tasks := s.tasks[k := Submitted])
    case Submitted => s.(tasks := s.tasks[k := Running])
    case Running => s.(tasks := s.tasks[k := Completing])
    case Completing =>
      s.(nested := s.nested - 1, tasks := s.tasks[k := if s.nested - 1 == 0 then Notifying else Completed])
    case Notifying => s.(tasks := s.tasks[k := Completed])
    case Completed => s
  }

  function StepWait(s: State): State {
    match s.waiter
    case Testing => if s.done then s.(waiter := SeenDone) else s
    case SeenDone => s.(waiter := if s.nested == 0 then Returned else Testing)
    case Returned => s
  }

  /** What the step does, whether or not lock_state is still there. */
  function Effect(s: State, act: Action): State
    requires Enabled(s, act)
  {
    match act
    case Value => s.(frames := s.frames + [Entering])
    case Terminate => if s.upstream == Live then s.(upstream := Closing) else s.(upstream := Closed, done := true)
    case FrameStep(k) => StepFrame(s, k)
    case FrameSubmit(_) => Submit(s)
    case TaskStep(k) => StepTask(s, k)
    case TaskFails(k) => s.(tasks := s.tasks[k := Completing])
    case TaskSubmit(_) => Submit(s)
    case Escape => Submit(s)
    case Wait => StepWait(s)
  }

  function Next(s: State, act: Action): State
    requires Enabled(s, act)
  {
    Effect(s, act).(fault := s.fault || (s.waiter == Returned && Accesses(s, act)))
  }

  predicate Runnable(s: State, acts: seq<Action>)
    decreases |acts|
  {
    acts == [] || (Enabled(s, acts[0]) && Runnable(Next(s, acts[0]), acts[1..]))
  }

  function After(s: State, acts: seq<Action>): State
    requires Runnable(s, acts)
    decreases |acts|
  {
    if acts == [] then s else After(Next(s, acts[0]), acts[1..])
  }

  // --- Counting ---

  function ActiveFrames(frames: seq<Frame>): nat {
    if frames == [] then 0 else (if frames[0] == Active then 1 else 0) + ActiveFrames(frames[1..])
  }

  /** The task has given its count back. */
  predicate Ended(t: Task) {
    t == Notifying || t == Completed
  }

  function LiveTasks(tasks: seq<Task>): nat {
    if tasks == [] then 0 else (if Ended(tasks[0]) then 0 else 1) + LiveTasks(tasks[1..])
  }

  lemma {:induction false} ActiveUpdate(frames: seq<Frame>, k: nat, f: Frame)
    requires k < |frames|
    ensures ActiveFrames(frames[k := f])
            == ActiveFrames(frames) - (if frames[k] == Active then 1 else 0) + (if f == Active then 1 else 0)
    ensures frames[k] == Active ==> ActiveFrames(frames) > 0
  {
    if k > 0 {
      ActiveUpdate(frames[1..], k - 1, f);
      assert frames[k := f][1..] == frames[1..][k - 1 := f];
    } else {
      assert frames[k := f][1..] == frames[1..];
    }
  }

  lemma {:induction false} ActiveEntering(frames: seq<Frame>)
    ensures ActiveFrames(frames + [Entering]) == ActiveFrames(frames)
  {
    if frames == [] {
      assert frames + [Entering] == [Entering];
    } else {
      ActiveEntering(frames[1..]);
      assert (frames + [Entering])[1..] == frames[1..] + [Entering];
    }
  }

  lemma {:induction false} LiveUpdate(tasks: seq<Task>, k: nat, t: Task)
    requires k < |tasks|
    ensures LiveTasks(tasks[k := t])
            == LiveTasks(tasks) - (if Ended(tasks[k]) then 0 else 1) + (if Ended(t) then 0 else 1)
    ensures !Ended(tasks[k]) ==> LiveTasks(tasks) > 0
  {
    if k > 0 {
      LiveUpdate(tasks[1..], k - 1, t);
      assert tasks[k := t][1..] == tasks[1..][k - 1 := t];
    } else {
      assert tasks[k := t][1..] == tasks[1..];
    }
  }

  lemma {:induction false} LiveCounted(tasks: seq<Task>)
    ensures LiveTasks(tasks + [Counted]) == LiveTasks(tasks) + 1
  {
    if tasks == [] {
      assert tasks + [Counted] == [Counted];
    } else {
      LiveCounted(tasks[1..]);
      assert (tasks + [Counted])[1..] == tasks[1..] + [Counted];
    }
  }

  lemma {:induction false} NoneActive(frames: seq<Frame>)
    requires forall k :: 0 <= k < |frames| ==> frames[k] == Left
    ensures ActiveFrames(frames) == 0
  {
    if frames != [] { NoneActive(frames[1..]); }
  }

  lemma {:induction false} NoneLive(tasks: seq<Task>)
    requires forall k :: 0 <= k < |tasks| ==> Ended(tasks[k])
    ensures LiveTasks(tasks) == 0
  {
    if tasks != [] { NoneLive(tasks[1..]); }
  }

  lemma {:induction false} SomeLive(tasks: seq<Task>) returns (k: nat)
    requires LiveTasks(tasks) > 0
    ensures k < |tasks| && !Ended(tasks[k])
  {
    if !Ended(tasks[0]) {
      k := 0;
    } else {
      k := SomeLive(tasks[1..]);
      k := k + 1;
    }
  }

  // --- The invariant ---

  /** The waiter's condition. */
  predicate Quiescent(s: State) {
    s.done && s.nested == 0
  }

  /** `nested` counts the active value frames and the nested tasks that have not given their count
      back, whoever submitted them; no frame is open once the terminal signal has begun. */
  predicate Inv(s: State) {
    && s.nested == ActiveFrames(s.frames) + LiveTasks(s.tasks)
    && s.done == (s.upstream == Closed)
    && (s.upstream != Live ==> forall k :: 0 <= k < |s.frames| ==> s.frames[k] == Left)
    && (s.waiter != Testing ==> s.done)
  }

  lemma InvFrame(s: State, k: nat)
    requires Inv(s) && Enabled(s, FrameStep(k))
    ensures Inv(StepFrame(s, k))
  {
    ActiveUpdate(s.frames, k, StepFrame(s, k).frames[k]);
  }

  lemma InvTask(s: State, k: nat)
    requires Inv(s) && Enabled(s, TaskStep(k))
    ensures Inv(StepTask(s, k))
  {
    LiveUpdate(s.tasks, k, StepTask(s, k).tasks[k]);
  }

  lemma InvStep(s: State, act: Action)
    requires Inv(s) && Enabled(s, act)
    ensures Inv(Next(s, act))
  {
    match act
    case Value => ActiveEntering(s.frames);
    case FrameStep(k) => InvFrame(s, k);
    case TaskStep(k) => InvTask(s, k);
    case TaskFails(k) => LiveUpdate(s.tasks, k, Completing);
    case FrameSubmit(_) => LiveCounted(s.tasks);
    case TaskSubmit(_) => LiveCounted(s.tasks);
    case Escape => LiveCounted(s.tasks);
    case _ =>
  }

  /** After any run, `nested` is exactly the number of active frames and live tasks. */
  lemma {:induction false} NestedExact(s: State, acts: seq<Action>)
    requires Inv(s) && Runnable(s, acts)
    ensures Inv(After(s, acts))
    decreases |acts|
  {
    if acts != [] {
      InvStep(s, acts[0]);
      NestedExact(Next(s, acts[0]), acts[1..]);
    }
  }
}
