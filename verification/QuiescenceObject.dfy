/** The `lock_state` of blocking_submit as the code updates it: the callbacks change `done` and
    `nested` in place. Each method is one access, proved against the step of module Quiescence it
    performs; an access after the waiter has returned is recorded as a fault. */
module QuiescenceObject {
  import opened Quiescence

  class LockState {
    var done: bool
    var nested: int
    var frames: seq<Frame>
    var tasks: seq<Task>
    var upstream: Upstream
    var waiter: Waiter
    var fault: bool

    ghost function Model(): State
      reads this
    {
      State(done, nested, frames, tasks, upstream, waiter, fault)
    }

    constructor ()
      ensures Model() == INIT
    {
      done, nested, frames, tasks, upstream, waiter, fault := false, 0, [], [], Live, Testing, false;
    }

    /** Any access by somebody other than the waiter. */
    method Touch()
      modifies `fault
      ensures fault == (old(fault) || waiter == Returned)
    {
      if waiter == Returned { fault := true; }
    }

    /** The receiver's `value`: its guard, up to `on_value_impl`. */
    method SignalValue() returns (accepted: bool)
      modifies `frames
      ensures accepted == Enabled(old(Model()), Value)
      ensures Model() == if accepted then Next(old(Model()), Value) else old(Model())
    {
      accepted := upstream == Live;
      if accepted { frames := frames + [Entering]; }
    }

    /** `on_value_impl`: the increment before set_value(out, ..), the decrement after it, and the
        notification if that gave zero. */
    method AdvanceFrame(k: nat)
      requires Enabled(Model(), FrameStep(k))
      modifies `frames, `nested, `fault
      ensures Model() == Next(old(Model()), FrameStep(k))
    {
      Touch();
      match frames[k] {
        case Entering =>
          nested := nested + 1;
          frames := frames[k := Active];
        case Active =>
          nested := nested - 1;
          frames := frames[k := if nested == 0 then Signalling else Left];
        case Signalling =>
          frames := frames[k := Left];
      }
    }

    /** `nested_task_impl::submit`, called with an executor given to the frame or task of `submitter`. */
    method SubmitNested(ghost submitter: Action)
      requires Enabled(Model(), submitter)
      requires submitter.FrameSubmit? || submitter.TaskSubmit? || submitter == Escape
      modifies `nested, `tasks, `fault
      ensures Model() == Next(old(Model()), submitter)
    {
      Touch();
      nested := nested + 1;
      tasks := tasks + [Counted];
    }

    /** The real executor takes the task, or `nested_receiver_impl` gets value, or done: the user's
        function, then the decrement, then the notification if that gave zero. */
    method AdvanceTask(k: nat)
      requires Enabled(Model(), TaskStep(k))
      modifies `tasks, `nested, `fault
      ensures Model() == Next(old(Model()), TaskStep(k))
    {
      match tasks[k] {
        case Counted => tasks := tasks[k := Submitted];
        case Submitted => tasks := tasks[k := Running];
        case Running => tasks := tasks[k := Completing];
        case Completing =>
          Touch();
          nested := nested - 1;
          tasks := tasks[k := if nested == 0 then Notifying else Completed];
        case Notifying =>
          Touch();
          tasks := tasks[k := Completed];
      }
    }

    /** `nested_receiver_impl::error` instead of value and done. */
    method FailTask(k: nat)
      requires Enabled(Model(), TaskFails(k))
      modifies `tasks
      ensures Model() == Next(old(Model()), TaskFails(k))
    {
      tasks := tasks[k := Completing];
    }

    /** `on_done_impl` and `on_error_impl`: the user's function first, then the section that sets the
        flag and notifies. */
    method AdvanceTerminal()
      requires Enabled(Model(), Terminate)
      modifies `upstream, `done, `fault
      ensures Model() == Next(old(Model()), Terminate)
    {
      if upstream == Live {
        upstream := Closing;
      } else {
        Touch();
        upstream, done := Closed, true;
      }
    }

    /** One load of the wait's predicate. */
    method Test() returns (returned: bool)
      requires Enabled(Model(), Wait)
      modifies `waiter
      ensures Model() == Next(old(Model()), Wait) && returned == (waiter == Returned)
    {
      if waiter == Testing {
        if done { waiter := SeenDone; }
      } else {
        waiter := if nested == 0 then Returned else Testing;
      }
      returned := waiter == Returned;
    }
  }
}
