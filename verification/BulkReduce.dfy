/** The concurrent bulk target of examples/reduce/reduce_2.cpp: one spawner, one task per index, a
    compare-exchange loop on the accumulator, a pending counter, a first-exception slot. Every
    atomic operation is one step; the indices sb..se are 0..n. */
module BulkReduce {
  import opened Wrappers

  /** The user's functions: `init(input)`, `func(acc, idx)` and `selector(acc)`; each may throw. */
  datatype Job<!V(==), X, R> = Job(n: nat, init: Outcome<V, X>,
                                   func: (V, nat) -> Outcome<V, X>, selector: V -> Outcome<R, X>)

  datatype Signal<X, R> = Value(value: R) | Done | Error(error: X)

  /** What the output receives for the outcome of the selector. */
  function Outputs<X, R>(o: Outcome<R, X>): seq<Signal<X, R>> {
    match o
    case Returned(r) => [Value(r), Done]
    case Thrown(x) => [Error(x)]
  }

  /** The task of one index. `seen` is bookkeeping: the number of commits when `was` was read. */
  datatype StepPC<V, X> =
    | Ready                                    // about to load the accumulator
    | Compute(was: V, seen: nat)               // about to call func
    | Cas(was: V, seen: nat, step: V)          // compare_exchange_strong
    | Claim(thrown: X)                         // ++exception count
    | Store(thrown: X)                         // writes the first-exception slot
    | StepDone                                 // --pending
    | Delivering                               // got pending to zero
    | Gone

  datatype SpawnPC = Spawning | Counted | SpawnDone | SpawnDelivering | SpawnGone

  /** The shared tuple, the spawner and the tasks spawned so far; history: the indices in commit
      order, the exception each failed index threw, and the failed indices in claiming order. */
  datatype State<V, X, R> = State(
    acc: V, pending: int, exceptions: nat, first: Option<X>, out: seq<Signal<X, R>>,
    spawner: SpawnPC, steps: seq<StepPC<V, X>>,
    committed: seq<nat>, thrown: map<nat, X>, claims: seq<nat>)

  function Init<V(==), X, R>(v: V): State<V, X, R> {
    State(v, 1, 0, None, [], Spawning, [], [], map[], [])
  }

  datatype Action = Spawn | Step(i: nat)

  predicate Enabled<V, X, R>(s: State<V, X, R>, act: Action) {
    match act
    case Spawn => s.spawner != SpawnGone
    case Step(i) => i < |s.steps| && s.steps[i] != Gone
  }

  /** Signals the result to the output: the first exception, or the selected accumulator. */
  function Deliver<V(==), X, R>(job: Job<V, X, R>, s: State<V, X, R>): State<V, X, R> {
    match s.first
    case Some(x) => s.(out := s.out + [Error(x)])
    case None => s.(out := s.out + Outputs(job.selector(s.acc)))
  }

  function SpawnStep<V(==), X, R>(job: Job<V, X, R>, s: State<V, X, R>): State<V, X, R> {
    match s.spawner
    case Spawning =>
      if |s.steps| == job.n then s.(spawner := SpawnDone) else s.(pending := s.pending + 1, spawner := Counted)
    case Counted => s.(steps := s.steps + [Ready], spawner := Spawning)
    case SpawnDone =>
      s.(pending := s.pending - 1, spawner := if s.pending - 1 == 0 then SpawnDelivering else SpawnGone)
    case SpawnDelivering => Deliver(job, s).(spawner := SpawnGone)
    case SpawnGone => s
  }

  function TaskStep<V(==), X, R>(job: Job<V, X, R>, s: State<V, X, R>, i: nat): State<V, X, R>
    requires i < |s.steps|
  {
    match s.steps[i]
    case Ready => s.(steps := s.steps[i := Compute(s.acc, |s.committed|)])
    case Compute(was, seen) =>
      (match job.func(was, i)
       case Returned(step) => s.(steps := s.steps[i := Cas(was, seen, step)])
       case Thrown(x) => s.(steps := s.steps[i := Claim(x)], thrown := s.thrown[i := x]))
    case Cas(was, seen, step) =>
      if s.acc == was
      then s.(acc := step, steps := s.steps[i := StepDone], committed := s.committed + [i])
      else s.(steps := s.steps[i := Compute(s.acc, |s.committed|)])
    case Claim(x) =>
      s.(exceptions := s.exceptions + 1, claims := s.claims + [i],
         steps := s.steps[i := if s.exceptions == 0 then Store(x) else StepDone])
    case Store(x) => s.(first := Some(x), steps := s.steps[i := StepDone])
    case StepDone =>
      s.(pending := s.pending - 1, steps := s.steps[i := if s.pending - 1 == 0 then Delivering else Gone])
    case Delivering => Deliver(job, s).(steps := s.steps[i := Gone])
    case Gone => s
  }

  function Next<V(==), X, R>(job: Job<V, X, R>, s: State<V, X, R>, act: Action): State<V, X, R>
    requires Enabled(s, act)
  {
    match act
    case Spawn => SpawnStep(job, s)
    case Step(i) => TaskStep(job, s, i)
  }

  predicate Runnable<V(==), X, R>(job: Job<V, X, R>, s: State<V, X, R>, acts: seq<Action>)
    decreases |acts|
  {
    acts == [] || (Enabled(s, acts[0]) && Runnable(job, Next(job, s, acts[0]), acts[1..]))
  }

  function After<V(==), X, R>(job: Job<V, X, R>, s: State<V, X, R>, acts: seq<Action>): State<V, X, R>
    requires Runnable(job, s, acts)
    decreases |acts|
  {
    if acts == [] then s else After(job, Next(job, s, acts[0]), acts[1..])
  }

  // --- The sequential driver, examples/reduce/reduce_3.cpp ---

  /** Folds `func` over the indices in `order`, stopping at the first throw. */
  function Fold<V(==), X, R>(job: Job<V, X, R>, v: V, order: seq<nat>): Outcome<V, X>
    decreases |order|
  {
    if order == [] then Returned(v)
    else match job.func(v, order[0])
      case Returned(w) => Fold(job, w, order[1..])
      case Thrown(x) => Thrown(x)
  }

  function Upto(n: nat): seq<nat> {
    seq(n, i => i)
  }

  /** What a driver that takes the indices in `order` signals. */
  function InOrder<V(==), X, R>(job: Job<V, X, R>, order: seq<nat>): seq<Signal<X, R>> {
    match job.init
    case Thrown(x) => [Error(x)]
    case Returned(v) =>
      match Fold(job, v, order)
      case Thrown(x) => [Error(x)]
      case Returned(w) => Outputs(job.selector(w))
  }

  /** What the sequential driver signals. */
  function Sequential<V(==), X, R>(job: Job<V, X, R>): seq<Signal<X, R>> {
    InOrder(job, Upto(job.n))
  }
}
