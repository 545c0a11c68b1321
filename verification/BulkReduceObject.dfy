/** The two drivers as the code runs them: the sequential one with its loop over an accumulator, and
    the shared state of the concurrent one, whose methods are the atomic operations of the spawner
    and of the tasks, each proved against the step of the same name in module BulkReduce. */
module BulkReduceObject {
  import opened Wrappers
  import opened BulkReduce

  /** `inline_bulk_target` of examples/reduce/reduce_3.cpp; the try block becomes early returns. */
  method InlineBulkTarget<V(==), X, R>(job: Job<V, X, R>) returns (out: seq<Signal<X, R>>)
    ensures out == Sequential(job)
    ensures job.init.Thrown? ==> out == [Error(job.init.error)]
    ensures job.init.Returned? && Fold(job, job.init.value, Upto(job.n)).Thrown? ==>
              out == [Error(Fold(job, job.init.value, Upto(job.n)).error)]
    ensures forall acc :: job.init.Returned? && Fold(job, job.init.value, Upto(job.n)) == Returned(acc) ==>
              && (job.selector(acc).Returned? ==> out == [Value(job.selector(acc).value), Done])
              && (job.selector(acc).Thrown? ==> out == [Error(job.selector(acc).error)])
  {
    var acc;
    match job.init {
      case Thrown(x) => return [Error(x)];
      case Returned(v) => acc := v;
    }
    ghost var v, order := acc, Upto(job.n);
    assert order[0..] == order;
    for idx := 0 to job.n
      invariant Fold(job, v, order) == Fold(job, acc, order[idx..])
    {
      assert order[idx..][0] == idx && order[idx..][1..] == order[idx + 1..];
      match job.func(acc, idx) {
        case Thrown(x) => return [Error(x)];
        case Returned(step) => acc := step;
      }
    }
    match job.selector(acc) {
      case Thrown(x) => out := [Error(x)];
      case Returned(result) => out := [Value(result), Done];
    }
  }

  class SharedState<V(==), X, R> {
    const job: Job<V, X, R>
    var acc: V
    var pending: int
    var exceptions: nat
    var first: Option<X>
    var out: seq<Signal<X, R>>
    var spawner: SpawnPC
    var steps: seq<StepPC<V, X>>
    var committed: seq<nat>
    var thrown: map<nat, X>
    var claims: seq<nat>

    ghost function Model(): State<V, X, R>
      reads this
    {
      State(acc, pending, exceptions, first, out, spawner, steps, committed, thrown, claims)
    }

    constructor (job: Job<V, X, R>, v: V)
      ensures this.job == job && Model() == Init(v)
    {
      this.job, acc, pending, exceptions, first, out := job, v, 1, 0, None, [];
      spawner, steps, committed, thrown, claims := Spawning, [], [], map[], [];
    }

    /** `stepDone` up to the test of the counter. */
    method CountDown() returns (last: bool)
      modifies `pending
      ensures pending == old(pending) - 1 && last == (pending == 0)
    {
      pending := pending - 1;
      last := pending == 0;
    }

    /** The rest of `stepDone`, for the party that brought the counter to zero. */
    method SignalResult()
      modifies `out
      ensures Model() == Deliver(job, old(Model()))
      ensures first.Some? ==> out == old(out) + [Error(first.value)]
      ensures first.None? ==>
                match job.selector(acc)
                case Returned(result) => out == old(out) + [Value(result), Done]
                case Thrown(x) => out == old(out) + [Error(x)]
    {
      match first {
        case Some(x) => out := out + [Error(x)];
        case None =>
          match job.selector(acc) {
            case Thrown(x) => out := out + [Error(x)];
            case Returned(result) => out := out + [Value(result), Done];
          }
      }
    }

    method SpawnerStep()
      modifies this
      ensures Model() == SpawnStep(job, old(Model()))
    {
      match spawner {
        case Spawning =>
          if |steps| == job.n { spawner := SpawnDone; return; }
          pending := pending + 1;
          spawner := Counted;
        case Counted =>
          steps := steps + [Ready];
          spawner := Spawning;
        case SpawnDone =>
          var last := CountDown();
          spawner := if last then SpawnDelivering else SpawnGone;
        case SpawnDelivering =>
          SignalResult();
          spawner := SpawnGone;
        case SpawnGone =>
      }
    }

    /** `compare_exchange_strong` on the accumulator by index `i`. */
    method CompareExchange(i: nat, was: V, step: V)
      requires i < |steps|
      modifies `acc, `steps, `committed
      ensures Model() == if old(acc) == was
                         then old(Model()).(acc := step, steps := old(steps)[i := StepDone],
                                                  committed := old(committed) + [i])
                         else old(Model()).(steps := old(steps)[i := Compute(old(acc), |old(committed)|)])
    {
      if acc == was {
        acc := step;
        steps := steps[i := StepDone];
        committed := committed + [i];
      } else {
        steps := steps[i := Compute(acc, |committed|)];
      }
    }

    method TaskStepOf(i: nat)
      requires i < |steps|
      modifies this
      ensures Model() == TaskStep(job, old(Model()), i)
    {
      match steps[i] {
        case Ready =>
          steps := steps[i := Compute(acc, |committed|)];
        case Compute(was, seen) =>
          match job.func(was, i) {
            case Returned(step) => steps := steps[i := Cas(was, seen, step)];
            case Thrown(x) => steps, thrown := steps[i := Claim(x)], thrown[i := x];
          }
        case Cas(was, seen, step) =>
          CompareExchange(i, was, step);
        case Claim(x) =>
          steps := steps[i := if exceptions == 0 then Store(x) else StepDone];
          exceptions := exceptions + 1;
          claims := claims + [i];
        case Store(x) =>
          first := Some(x);
          steps := steps[i := StepDone];
        case StepDone =>
          var last := CountDown();
          steps := steps[i := if last then Delivering else Gone];
        case Delivering =>
          SignalResult();
          steps := steps[i := Gone];
        case Gone =>
      }
    }
  }
}
