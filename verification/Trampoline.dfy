/** The trampoline of include/pushmi/trampoline.h on arbitrary finite task trees: depth-limited
    recursion, a FIFO of deferred work, nested draining. */
module Trampoline {

  const MAX_DEPTH := 100

  /** A task submits its children one after the other. `nest` says which executor the task itself
      is submitted by: the nester or the delegator. */
  datatype Task = Task(id: nat, nest: bool, subs: seq<Task>)

  function Size(t: Task): nat {
    1 + SizeAll(t.subs)
  }

  function SizeAll(ts: seq<Task>): nat {
    if ts == [] then 0 else Size(ts[0]) + SizeAll(ts[1..])
  }

  lemma {:induction false} SizeAllSnoc(ts: seq<Task>, t: Task)
    ensures SizeAll(ts + [t]) == SizeAll(ts) + Size(t)
  {
    if ts == [] {
      assert ts + [t] == [t];
    } else {
      SizeAllSnoc(ts[1..], t);
      assert (ts + [t])[1..] == ts[1..] + [t];
    }
  }

  /** The thread-local `pending_type`. The rest is for observation only: the tasks in the order in
      which they started, how many task bodies are active, the most that ever were, and how often
      work was deferred. */
  datatype State = State(owned: bool, depth: int, pending: seq<Task>,
                         log: seq<Task>, active: nat, peak: nat, deferrals: nat, terminated: bool)

  const IDLE := State(false, 0, [], [], 0, 0, 0, false)

  function Defer(t: Task, s: State): (r: State)
    ensures SizeAll(r.pending) == SizeAll(s.pending) + Size(t)
  {
    SizeAllSnoc(s.pending, t);
    s.(pending := s.pending + [t], deferrals := s.deferrals + 1)
  }

  function Enter(t: Task, s: State): State {
    s.(log := s.log + [t], active := s.active + 1,
       peak := if s.active + 1 > s.peak then s.active + 1 else s.peak)
  }

  /** `set_value` on a receiver whose body submits the children of `t`. */
  function Body(t: Task, s: State): (r: State)
    ensures SizeAll(r.pending) + 1 <= SizeAll(s.pending) + Size(t)
    ensures r.depth == s.depth && r.active == s.active && r.owned == s.owned && r.terminated == s.terminated
    decreases SizeAll(s.pending) + Size(t), 0
  {
    var r := Subs(t.subs, Enter(t, s));
    r.(active := s.active)
  }

  function Subs(subs: seq<Task>, s: State): (r: State)
    ensures SizeAll(r.pending) <= SizeAll(s.pending) + SizeAll(subs)
    ensures r.depth == s.depth && r.active == s.active && r.owned == s.owned && r.terminated == s.terminated
    decreases SizeAll(s.pending) + SizeAll(subs), 3, |subs|
  {
    if subs == [] then s
    else Subs(subs[1..], if subs[0].nest then Nest(subs[0], s) else Delegate(subs[0], s))
  }

  /** `submit(ownordelegate, ...)` on an owned thread. */
  function Delegate(t: Task, s: State): (r: State)
    ensures SizeAll(r.pending) <= SizeAll(s.pending) + Size(t)
    ensures r.depth == s.depth && r.active == s.active && r.owned == s.owned && r.terminated == s.terminated
    decreases SizeAll(s.pending) + Size(t), 2
  {
    if s.depth + 1 > MAX_DEPTH then Defer(t, s)
    else
      var r := Body(t, s.(depth := s.depth + 1));
      r.(depth := r.depth - 1)
  }

  /** `submit(ownornest, ...)` on an owned thread. */
  function Nest(t: Task, s: State): (r: State)
    ensures r.pending == []
    ensures r.depth == s.depth && r.active == s.active && r.owned == s.owned && r.terminated == s.terminated
    decreases SizeAll(s.pending) + Size(t), 2
  {
    if s.pending == [] then Drain(Body(t, s)) else Drain(Defer(t, s))
  }

  /** Runs pending work until there is none. */
  function Drain(s: State): (r: State)
    ensures r.pending == []
    ensures r.depth == s.depth && r.active == s.active && r.owned == s.owned && r.terminated == s.terminated
    decreases SizeAll(s.pending), 1
  {
    if s.pending == [] then s
    else Drain(Body(s.pending[0], s.(pending := s.pending[1..])))
  }

  /** The state of a thread that a trampoline has just taken over. */
  const OWNED := IDLE.(owned := true)

  /** A submission, by either executor, on a thread that no trampoline owns: take over the thread,
      nest, check the terminate guards, give the thread back. */
  function Takeover(t: Task, s: State): State {
    var r := Nest(t, s.(owned := true, depth := 0, pending := []));
    r.(owned := false, terminated := r.terminated || !r.owned || r.pending != [])
  }

  /** Submitting `t` from outside any trampoline. */
  function Outermost(t: Task): State {
    Takeover(t, IDLE)
  }
}
