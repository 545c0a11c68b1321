/** What has happened, in every run, to a value frame, a nested task and the terminal signal by the
    time they are over: no step of their lives is skipped. */
module QuiescenceLives {
  import opened Quiescence

  // --- Nested tasks ---

  /** Task `k` takes a step in state `t` somewhere in the run. */
  predicate TaskPasses(s: State, acts: seq<Action>, k: nat, t: Task)
    requires Runnable(s, acts)
    decreases |acts|
  {
    acts != [] && ((acts[0] == TaskStep(k) && k < |s.tasks| && s.tasks[k] == t)
                   || TaskPasses(Next(s, acts[0]), acts[1..], k, t))
  }

  /** The real executor signals an error to task `k` somewhere in the run. */
  predicate Fails(s: State, acts: seq<Action>, k: nat)
    requires Runnable(s, acts)
    decreases |acts|
  {
    acts != [] && (acts[0] == TaskFails(k) || Fails(Next(s, acts[0]), acts[1..], k))
  }

  /** How far a task has come. */
  function Stage(t: Task): nat {
    match t
    case Counted => 0
    case Submitted => 1
    case Running => 2
    case Completing => 3
    case Notifying => 4
    case Completed => 4
  }

  /** Task `k` exists and has come at least as far as `stage`. */
  predicate Reached(s: State, k: nat, stage: nat) {
    k < |s.tasks| && Stage(s.tasks[k]) >= stage
  }

  /** What leads from the stages before `stage` to `stage`. */
  predicate Led(s: State, acts: seq<Action>, k: nat, stage: nat)
    requires Runnable(s, acts)
  {
    match stage
    case 1 => TaskPasses(s, acts, k, Counted)
    case 2 => TaskPasses(s, acts, k, Submitted) || Fails(s, acts, k)
    case 3 => TaskPasses(s, acts, k, Running) || Fails(s, acts, k)
    case 4 => TaskPasses(s, acts, k, Completing)
    case _ => true
  }

  lemma {:induction false} StagesInOrder(s: State, acts: seq<Action>, k: nat, stage: nat)
    requires Runnable(s, acts) && 1 <= stage <= 4 && Reached(After(s, acts), k, stage)
    ensures Reached(s, k, stage) || Led(s, acts, k, stage)
    decreases |acts|
  {
    if acts != [] { StagesInOrder(Next(s, acts[0]), acts[1..], k, stage); }
  }

  /** A nested task that has given its count back was handed to the real executor, then either had its
      value function called or was told of an error, and then had its done or error function called. */
  lemma TaskLife(acts: seq<Action>, k: nat)
    requires Runnable(INIT, acts) && k < |After(INIT, acts).tasks| && Ended(After(INIT, acts).tasks[k])
    ensures TaskPasses(INIT, acts, k, Counted) && TaskPasses(INIT, acts, k, Completing)
    ensures Fails(INIT, acts, k) || (TaskPasses(INIT, acts, k, Submitted) && TaskPasses(INIT, acts, k, Running))
  {
    StagesInOrder(INIT, acts, k, 1);
    StagesInOrder(INIT, acts, k, 2);
    StagesInOrder(INIT, acts, k, 3);
    StagesInOrder(INIT, acts, k, 4);
  }

  /** A nested task whose completion has begun since a state in which it did not exist has run, or the
      executor has failed it. */
  lemma TaskWasRun(s: State, acts: seq<Action>, k: nat)
    requires Runnable(s, acts) && |s.tasks| <= k < |After(s, acts).tasks|
    requires After(s, acts).tasks[k] == Completing || Ended(After(s, acts).tasks[k])
    ensures TaskPasses(s, acts, k, Running) || Fails(s, acts, k)
  {
    StagesInOrder(s, acts, k, 3);
  }

  // --- Value frames ---

  predicate FramePasses(s: State, acts: seq<Action>, k: nat, f: Frame)
    requires Runnable(s, acts)
    decreases |acts|
  {
    acts != [] && ((acts[0] == FrameStep(k) && k < |s.frames| && s.frames[k] == f)
                   || FramePasses(Next(s, acts[0]), acts[1..], k, f))
  }

  lemma {:induction false} FrameWasActive(s: State, acts: seq<Action>, k: nat)
    requires Runnable(s, acts) && |s.frames| <= k < |After(s, acts).frames|
    ensures After(s, acts).frames[k] != Entering ==> FramePasses(s, acts, k, Entering)
    ensures After(s, acts).frames[k] == Signalling || After(s, acts).frames[k] == Left ==>
              FramePasses(s, acts, k, Active)
    decreases |acts|
  {
    if acts != [] {
      var t := Next(s, acts[0]);
      if k < |t.frames| { FrameLater(t, acts[1..], k); } else { FrameWasActive(t, acts[1..], k); }
    }
  }

  lemma {:induction false} FrameLater(s: State, acts: seq<Action>, k: nat)
    requires Runnable(s, acts) && k < |s.frames|
    ensures k < |After(s, acts).frames|
    ensures After(s, acts).frames[k] != Entering ==> s.frames[k] != Entering || FramePasses(s, acts, k, Entering)
    ensures After(s, acts).frames[k] == Signalling || After(s, acts).frames[k] == Left ==>
              s.frames[k] == Signalling || s.frames[k] == Left || FramePasses(s, acts, k, Active)
    decreases |acts|
  {
    if acts != [] { FrameLater(Next(s, acts[0]), acts[1..], k); }
  }

  // --- The terminal signal ---

  predicate TerminalPasses(s: State, acts: seq<Action>, u: Upstream)
    requires Runnable(s, acts)
    decreases |acts|
  {
    acts != [] && ((acts[0] == Terminate && s.upstream == u) || TerminalPasses(Next(s, acts[0]), acts[1..], u))
  }

  lemma {:induction false} TerminalLater(s: State, acts: seq<Action>)
    requires Runnable(s, acts)
    ensures After(s, acts).upstream == Closed ==> s.upstream == Closed || TerminalPasses(s, acts, Closing)
    ensures After(s, acts).upstream != Live ==> s.upstream != Live || TerminalPasses(s, acts, Live)
    decreases |acts|
  {
    if acts != [] { TerminalLater(Next(s, acts[0]), acts[1..]); }
  }

  /** `done` is set only after the user's done or error function has been entered and has returned. */
  lemma DoneAfterUser(acts: seq<Action>)
    requires Runnable(INIT, acts) && After(INIT, acts).done
    ensures TerminalPasses(INIT, acts, Live) && TerminalPasses(INIT, acts, Closing)
  {
    NestedExact(INIT, acts);
    TerminalLater(INIT, acts);
  }
}
