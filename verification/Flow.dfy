/** `flow_from` (include/pushmi/o/from.h) on the trampoline: a producer with a shared cursor and a
    consumer that requests elements, possibly from inside its own callbacks. */
module Flow {
  import opened Wrappers
  import T = Trampoline

  /** What a consumer tells the producer: request elements, or cancel with `done` or `error`. */
  datatype Demand = Request(n: int) | Cancel

  /** The demands a consumer makes in `starting` and in the value callback of each element. */
  datatype Consumer = Consumer(onStart: seq<Demand>, onValue: nat -> seq<Demand>)

  /** A task on the executor: deliver up to `n` elements, or `set_done` after a cancellation. */
  datatype Work = Pull(n: int) | Finish

  /** The producer (cursor `c`, `stop`), the `done_` guards of the receivers handed up and down,
      the trampoline, and for observation: the elements delivered, the number of `done` signals,
      the sum of the accepted positive requests, how many elements had been delivered when the consumer
      cancelled, and the active task bodies. */
  datatype State = State(c: nat, stop: bool, upDone: bool, downDone: bool,
                         depth: int, pending: seq<Work>,
                         values: seq<nat>, dones: nat, requested: int, cancelledAt: Option<nat>,
                         active: nat, peak: nat)

  /** 0, 1, ..., c - 1 */
  function Upto(c: nat): seq<nat> {
    seq(c, i => i)
  }

  /** How many elements a task may deliver, and all deferred tasks together. */
  function Worth(w: Work): int {
    if w.Pull? then w.n else 0
  }

  function Outstanding(ws: seq<Work>): int {
    if ws == [] then 0 else Worth(ws[0]) + Outstanding(ws[1..])
  }

  /** What holds between any two statements of the flow over `n` elements: the values delivered are
      the elements before the cursor, in order; the consumer gets at most one `done`, and only after
      it cancelled or after a request when the cursor is at the end; after it cancelled nothing more is
      delivered. */
  predicate Valid(n: nat, s: State) {
    && s.c <= n
    && s.values == Upto(s.c)
    && s.dones == (if s.downDone then 1 else 0)
    && (s.downDone ==> s.upDone || (s.c == n && s.requested >= 1))
    && s.stop == s.upDone
    && s.cancelledAt == (if s.upDone then Some(|s.values|) else None)
    && s.requested >= 0
    && 0 <= s.depth <= T.MAX_DEPTH
    && s.peak <= T.MAX_DEPTH + 1
    && (forall w :: w in s.pending && w.Pull? ==> w.n >= 1 && s.requested >= 1)
    && (Finish in s.pending ==> s.upDone)
  }

  /** Later states: the cursor, the requests and the peak only grow, signals stay, a deferred `Finish` is
      still deferred or has been delivered. */
  predicate Later(s: State, r: State) {
    && r.c >= s.c && r.requested >= s.requested && r.peak >= s.peak
    && (s.upDone ==> r.upDone && r.cancelledAt == s.cancelledAt) && (s.downDone ==> r.downDone)
    && (Finish in s.pending ==> Finish in r.pending || r.downDone)
  }

  function SignalDone(s: State): State {
    if s.downDone then s else s.(downDone := true, dones := s.dones + 1)
  }

  /** The consumer makes its demands one after the other. */
  function React(k: Consumer, n: nat, ds: seq<Demand>, s: State): (r: State)
    requires Valid(n, s) && s.active == s.depth + 1
    ensures Valid(n, r) && Later(s, r) && r.depth == s.depth && r.active == s.active
    decreases n - s.c, 4, |ds|
  {
    if ds == [] then s else React(k, n, ds[1..], Ask(k, n, ds[0], s))
  }

  /** `flow_from_up::value`, `done` and `error` behind the guard of `make_receiver`. */
  function Ask(k: Consumer, n: nat, d: Demand, s: State): (r: State)
    requires Valid(n, s) && s.active == s.depth + 1
    ensures Valid(n, r) && Later(s, r) && r.depth == s.depth && r.active == s.active
    decreases n - s.c, 3
  {
    if s.upDone then s
    else match d
      case Request(m) => if m < 1 then s else Submit(k, n, Pull(m), s.(requested := s.requested + m))
      case Cancel => Submit(k, n, Finish, s.(upDone := true, stop := true, cancelledAt := Some(|s.values|)))
  }

  /** The trampoline's `submit(ownordelegate, ...)` on an owned thread. */
  function Submit(k: Consumer, n: nat, w: Work, s: State): (r: State)
    requires Valid(n, s) && s.active == s.depth + 1
    requires w.Pull? ==> w.n >= 1 && s.requested >= 1
    requires w.Finish? ==> s.upDone
    ensures Valid(n, r) && Later(s, r) && r.depth == s.depth && r.active == s.active
    ensures w.Finish? ==> Finish in r.pending || r.downDone
    decreases n - s.c, 2
  {
    if s.depth + 1 > T.MAX_DEPTH then s.(pending := s.pending + [w])
    else
      var r := DoWork(k, n, w, s.(depth := s.depth + 1));
      r.(depth := r.depth - 1)
  }

  function Enter(s: State): State {
    s.(active := s.active + 1, peak := if s.active + 1 > s.peak then s.active + 1 else s.peak)
  }

  /** The body of a task. */
  function DoWork(k: Consumer, n: nat, w: Work, s: State): (r: State)
    requires Valid(n, s) && s.active == s.depth
    requires w.Pull? ==> w.n >= 1 && s.requested >= 1
    requires w.Finish? ==> s.upDone
    ensures Valid(n, r) && Later(s, r) && r.depth == s.depth && r.active == s.active
    ensures r.c == s.c ==> r.pending == s.pending
    ensures w.Finish? || r.c == n ==> r.downDone
    decreases n - s.c, 1
  {
    var e := Enter(s);
    match w
    case Finish => SignalDone(e).(active := s.active)
    case Pull(m) =>
      var r := Loop(k, n, m, e);
      (if r.c == n then SignalDone(r) else r).(active := s.active)
  }

  /** `flow_receiver::value` drops a value that arrives after `done`. */
  function Deliver(i: nat, s: State): State {
    if s.downDone then s else s.(values := s.values + [i])
  }

  /** The while loop of a task: `remaining` elements unless stopped or at the end. The cursor moves
      before the value callback runs. */
  function Loop(k: Consumer, n: nat, remaining: int, s: State): (r: State)
    requires Valid(n, s) && s.active == s.depth + 1 && s.requested >= 1
    ensures Valid(n, r) && Later(s, r) && r.depth == s.depth && r.active == s.active
    ensures r.c == s.c ==> r.pending == s.pending
    decreases n - s.c, 0
  {
    if remaining <= 0 || s.stop || s.c == n then s
    else
      var i := s.c;
      var s' := Deliver(i, s.(c := i + 1));
      Loop(k, n, remaining - 1, React(k, n, if s.downDone then [] else k.onValue(i), s'))
  }

  /** Runs deferred tasks until there are none. */
  function Drain(k: Consumer, n: nat, s: State): (r: State)
    requires Valid(n, s) && s.active == s.depth
    ensures Valid(n, r) && Later(s, r) && r.depth == s.depth && r.active == s.active && r.pending == []
    decreases n - s.c, 5, |s.pending|
  {
    if s.pending == [] then s
    else Drain(k, n, DoWork(k, n, s.pending[0], s.(pending := s.pending[1..])))
  }

  /** The thread inside the first task, before the consumer's `starting`. */
  const STARTED := State(0, false, false, false, 0, [], [], 0, 0, None, 1, 1)

  /** Submitting the flow over `n` elements from outside the trampoline: take over the thread, hand
      the consumer its `up` receiver, run everything that is deferred. */
  function RunFlow(k: Consumer, n: nat): (r: State)
    ensures Valid(n, r) && r.pending == [] && r.depth == 0 && r.active == 0
  {
    Drain(k, n, React(k, n, k.onStart, STARTED).(active := 0))
  }
}
