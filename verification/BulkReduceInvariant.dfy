/** The invariant of the concurrent bulk target and its preservation by every atomic step. */
module BulkReduceInvariant {
  import opened Wrappers
  import opened BulkReduce

  // --- Folds ---

  lemma {:induction false} FoldAppend<V, X, R>(job: Job<V, X, R>, v: V, a: seq<nat>, b: seq<nat>)
    ensures Fold(job, v, a + b)
            == match Fold(job, v, a) { case Returned(w) => Fold(job, w, b) case Thrown(x) => Thrown(x) }
    decreases |a|
  {
    if a == [] {
      assert a + b == b;
    } else {
      assert (a + b)[1..] == a[1..] + b;
      match job.func(v, a[0])
      case Returned(w) => FoldAppend(job, w, a[1..], b);
      case Thrown(x) =>
    }
  }

  lemma FoldOne<V, X, R>(job: Job<V, X, R>, v: V, i: nat)
    ensures Fold(job, v, [i]) == job.func(v, i)
  {
    match job.func(v, i)
    case Returned(w) => assert Fold(job, w, [i][1..]) == Returned(w);
    case Thrown(x) =>
  }

  // --- The invariant ---

  ghost predicate Ended<V, X>(pc: StepPC<V, X>) { pc.Delivering? || pc.Gone? }

  ghost function Unfinished<V, X>(steps: seq<StepPC<V, X>>): nat {
    if steps == [] then 0 else (if Ended(steps[0]) then 0 else 1) + Unfinished(steps[1..])
  }

  lemma {:induction false} UnfinishedUpdate<V, X>(steps: seq<StepPC<V, X>>, i: nat, pc: StepPC<V, X>)
    requires i < |steps|
    ensures Unfinished(steps[i := pc])
            == Unfinished(steps) - (if Ended(steps[i]) then 0 else 1) + (if Ended(pc) then 0 else 1)
    ensures !Ended(steps[i]) ==> Unfinished(steps) >= 1
  {
    if i > 0 {
      UnfinishedUpdate(steps[1..], i - 1, pc);
      assert steps[i := pc][1..] == steps[1..][i - 1 := pc];
    } else {
      assert steps[i := pc][1..] == steps[1..];
    }
  }

  lemma {:induction false} UnfinishedSnoc<V, X>(steps: seq<StepPC<V, X>>, pc: StepPC<V, X>)
    ensures Unfinished(steps + [pc]) == Unfinished(steps) + (if Ended(pc) then 0 else 1)
  {
    if steps == [] {
      assert steps + [pc] == [pc];
    } else {
      UnfinishedSnoc(steps[1..], pc);
      assert (steps + [pc])[1..] == steps[1..] + [pc];
    }
  }

  ghost function Held(pc: SpawnPC): nat {
    match pc
    case Spawning => 1
    case Counted => 2
    case SpawnDone => 1
    case SpawnDelivering => 0
    case SpawnGone => 0
  }

  /** `pending` is the spawner, if it has not finished, plus the steps counted but not finished. */
  ghost predicate Accounting<V, X, R>(n: nat, s: State<V, X, R>) {
    && |s.steps| <= n
    && (s.spawner.Counted? ==> |s.steps| < n)
    && (!s.spawner.Spawning? && !s.spawner.Counted? ==> |s.steps| == n)
    && s.pending == Held(s.spawner) + Unfinished(s.steps)
  }

  /** The history agrees with where the task of index `i` is. */
  ghost predicate Recorded<V, X>(committed: seq<nat>, thrown: map<nat, X>, i: nat, pc: StepPC<V, X>) {
    match pc
    case Ready => i !in committed && i !in thrown
    case Compute(_, _) => i !in committed && i !in thrown
    case Cas(_, _, _) => i !in committed && i !in thrown
    case Claim(x) => i in thrown && thrown[i] == x
    case Store(x) => i in thrown && thrown[i] == x
    case _ => i in committed || i in thrown
  }

  /** Every index commits or throws, once. */
  ghost predicate Tally<V, X, R>(s: State<V, X, R>) {
    && (forall k, l :: 0 <= k < l < |s.committed| ==> s.committed[k] != s.committed[l])
    && (forall i :: i in s.committed ==> i < |s.steps| && i !in s.thrown)
    && (forall i :: i in s.thrown ==> i < |s.steps|)
    && (forall i :: 0 <= i < |s.steps| ==> Recorded(s.committed, s.thrown, i, s.steps[i]))
  }

  /** `was` is the accumulator after the first `seen` commits. */
  ghost predicate Past<V, X, R>(job: Job<V, X, R>, v: V, order: seq<nat>, was: V, seen: nat) {
    seen <= |order| && Fold(job, v, order[..seen]) == Returned(was)
  }

  /** Index `i` throws `x` when taken after some prefix of `order`. */
  ghost predicate Raises<V, X, R>(job: Job<V, X, R>, v: V, order: seq<nat>, i: nat, x: X) {
    exists k: nat :: k <= |order| && Fold(job, v, order[..k] + [i]) == Thrown(x)
  }

  /** What the task of index `i` has read is a past accumulator, and what it computed follows from it. */
  ghost predicate InFlight<V, X, R>(job: Job<V, X, R>, v: V, order: seq<nat>, i: nat, pc: StepPC<V, X>) {
    match pc
    case Compute(was, seen) => Past(job, v, order, was, seen)
    case Cas(was, seen, step) => Past(job, v, order, was, seen) && job.func(was, i) == Returned(step)
    case _ => true
  }

  /** The accumulator is the fold over the committed indices in commit order. */
  ghost predicate Folded<V, X, R>(job: Job<V, X, R>, v: V, s: State<V, X, R>) {
    && Fold(job, v, s.committed) == Returned(s.acc)
    && (forall i :: 0 <= i < |s.steps| ==> InFlight(job, v, s.committed, i, s.steps[i]))
    && (forall i :: i in s.thrown ==> Raises(job, v, s.committed, i, s.thrown[i]))
  }

  /** The first index to claim, and no other, writes the slot. */
  ghost predicate Slot<V, X, R>(s: State<V, X, R>) {
    && s.exceptions == |s.claims|
    && (forall i :: i in s.claims ==> i in s.thrown)
    && (forall i :: i in s.thrown && i < |s.steps| && !s.steps[i].Claim? ==> s.exceptions > 0)
    && (s.exceptions == 0 ==> s.first.None?)
    && (s.exceptions > 0 ==> s.claims[0] < |s.steps| && (s.first.None? <==> s.steps[s.claims[0]].Store?))
    && (s.first.Some? ==> s.exceptions > 0 && s.claims[0] in s.thrown && s.first.value == s.thrown[s.claims[0]])
    && (forall i :: 0 <= i < |s.steps| && s.steps[i].Store? ==> s.exceptions > 0 && i == s.claims[0])
  }

  ghost function Verdict<V, X, R>(job: Job<V, X, R>, s: State<V, X, R>): seq<Signal<X, R>> {
    match s.first
    case Some(x) => [Error(x)]
    case None => Outputs(job.selector(s.acc))
  }

  /** Nothing is signalled while something is pending; then one party signals, once. */
  ghost predicate Ending<V, X, R>(job: Job<V, X, R>, s: State<V, X, R>) {
    && (s.pending > 0 ==> s.out == [] && Quiet(s))
    && (forall i, j :: 0 <= i < |s.steps| && 0 <= j < |s.steps| && s.steps[i].Delivering? && s.steps[j].Delivering?
                       ==> i == j)
    && (forall i :: 0 <= i < |s.steps| && s.steps[i].Delivering? ==> !s.spawner.SpawnDelivering?)
    && s.out == if s.pending == 0 && Quiet(s) then Verdict(job, s) else []
  }

  /** Nobody is about to signal. */
  ghost predicate Quiet<V, X, R>(s: State<V, X, R>) {
    !s.spawner.SpawnDelivering? && forall i :: 0 <= i < |s.steps| ==> !s.steps[i].Delivering?
  }

  ghost predicate Inv<V, X, R>(job: Job<V, X, R>, v: V, s: State<V, X, R>) {
    Accounting(job.n, s) && Tally(s) && Folded(job, v, s) && Slot(s) && Ending(job, s)
  }

  lemma AccountingTask<V, X, R>(job: Job<V, X, R>, s: State<V, X, R>, i: nat)
    requires Accounting(job.n, s) && i < |s.steps| && s.steps[i] != Gone
    ensures Accounting(job.n, TaskStep(job, s, i))
  {
    var t := TaskStep(job, s, i);
    UnfinishedUpdate(s.steps, i, t.steps[i]);
    assert t.steps == s.steps[i := t.steps[i]];
  }

  lemma AccountingStep<V, X, R>(job: Job<V, X, R>, s: State<V, X, R>, act: Action)
    requires Accounting(job.n, s) && Enabled(s, act)
    ensures Accounting(job.n, Next(job, s, act))
  {
    match act
    case Spawn => UnfinishedSnoc(s.steps, Ready);
    case Step(i) => AccountingTask(job, s, i);
  }

  lemma TallyTask<V, X, R>(job: Job<V, X, R>, s: State<V, X, R>, i: nat)
    requires Tally(s) && i < |s.steps| && s.steps[i] != Gone
    ensures Tally(TaskStep(job, s, i))
  {
    var t := TaskStep(job, s, i);
    assert Recorded(s.committed, s.thrown, i, s.steps[i]);
    assert forall j :: j in t.committed <==> j in s.committed || (t.committed != s.committed && j == i);
  }

  lemma TallyStep<V, X, R>(job: Job<V, X, R>, s: State<V, X, R>, act: Action)
    requires Tally(s) && Enabled(s, act)
    ensures Tally(Next(job, s, act))
  {
    match act
    case Spawn =>
    case Step(i) => TallyTask(job, s, i);
  }

  lemma FoldedTask<V, X, R>(job: Job<V, X, R>, v: V, s: State<V, X, R>, i: nat)
    requires Folded(job, v, s) && i < |s.steps| && s.steps[i] != Gone
    ensures Folded(job, v, TaskStep(job, s, i))
  {
    var t := TaskStep(job, s, i);
    assert s.committed[..|s.committed|] == s.committed;
    assert InFlight(job, v, s.committed, i, s.steps[i]);
    match s.steps[i] {
      case Compute(was, seen) =>
        FoldAppend(job, v, s.committed[..seen], [i]);
        FoldOne(job, was, i);
      case Cas(was, seen, step) =>
        if s.acc == was {
          FoldAppend(job, v, s.committed, [i]);
          FoldOne(job, was, i);
          forall k: nat | k <= |s.committed| ensures t.committed[..k] == s.committed[..k] { }
        }
      case _ =>
    }
  }

  lemma FoldedStep<V, X, R>(job: Job<V, X, R>, v: V, s: State<V, X, R>, act: Action)
    requires Folded(job, v, s) && Enabled(s, act)
    ensures Folded(job, v, Next(job, s, act))
  {
    match act
    case Spawn =>
    case Step(i) => FoldedTask(job, v, s, i);
  }

  lemma SlotTask<V, X, R>(job: Job<V, X, R>, s: State<V, X, R>, i: nat)
    requires Slot(s) && Tally(s) && i < |s.steps| && s.steps[i] != Gone
    ensures Slot(TaskStep(job, s, i))
  {
    assert Recorded(s.committed, s.thrown, i, s.steps[i]);
  }

  lemma SlotStep<V, X, R>(job: Job<V, X, R>, s: State<V, X, R>, act: Action)
    requires Slot(s) && Tally(s) && Enabled(s, act)
    ensures Slot(Next(job, s, act))
  {
    match act
    case Spawn =>
    case Step(i) => SlotTask(job, s, i);
  }

  lemma EndingTask<V, X, R>(job: Job<V, X, R>, s: State<V, X, R>, i: nat)
    requires Accounting(job.n, s) && Ending(job, s) && i < |s.steps| && s.steps[i] != Gone
    ensures Ending(job, TaskStep(job, s, i))
  {
    var t := TaskStep(job, s, i);
    UnfinishedUpdate(s.steps, i, s.steps[i]);
    assert t.steps == s.steps[i := t.steps[i]];
    assert t.steps[i].Delivering? ==> !Quiet(t);
    assert s.steps[i].Delivering? ==> !Quiet(s) && Quiet(t);
  }

  lemma EndingStep<V, X, R>(job: Job<V, X, R>, s: State<V, X, R>, act: Action)
    requires Accounting(job.n, s) && Ending(job, s) && Enabled(s, act)
    ensures Ending(job, Next(job, s, act))
  {
    match act
    case Spawn =>
    case Step(i) => EndingTask(job, s, i);
  }

  lemma InvInit<V, X, R>(job: Job<V, X, R>, v: V)
    ensures Inv(job, v, Init<V, X, R>(v))
  {
  }

  lemma InvStep<V, X, R>(job: Job<V, X, R>, v: V, s: State<V, X, R>, act: Action)
    requires Inv(job, v, s) && Enabled(s, act)
    ensures Inv(job, v, Next(job, s, act))
  {
    AccountingStep(job, s, act);
    TallyStep(job, s, act);
    FoldedStep(job, v, s, act);
    SlotStep(job, s, act);
    EndingStep(job, s, act);
  }

  lemma {:induction false} RunInv<V, X, R>(job: Job<V, X, R>, v: V, s: State<V, X, R>, acts: seq<Action>)
    requires Inv(job, v, s) && Runnable(job, s, acts)
    ensures Inv(job, v, After(job, s, acts))
    decreases |acts|
  {
    if acts != [] {
      InvStep(job, v, s, acts[0]);
      RunInv(job, v, Next(job, s, acts[0]), acts[1..]);
    }
  }

  // --- Termination ---

  /** The steps the task may still take. A commit by another task makes what it has read stale and
      costs it at most two more, which the `2n + 1` of the committing task pays for. */
  ghost function Rank<V, X>(n: nat, pc: StepPC<V, X>, commits: nat): nat {
    match pc
    case Ready => 2 * n + 10
    case Compute(_, seen) => 2 * n + if seen == commits then 7 else 9
    case Cas(_, seen, _) => 2 * n + if seen == commits then 6 else 8
    case Claim(_) => 4
    case Store(_) => 3
    case StepDone => 2
    case Delivering => 1
    case Gone => 0
  }

  ghost function Ranks<V, X>(n: nat, steps: seq<StepPC<V, X>>, commits: nat): nat {
    if steps == [] then 0 else Rank(n, steps[0], commits) + Ranks(n, steps[1..], commits)
  }

  ghost function Unspawned(n: nat, k: int): nat
    decreases k
  {
    if k <= 0 then 0 else Unspawned(n, k - 1) + 2 * n + 12
  }

  lemma {:induction false} UnspawnedProduct(n: nat, k: nat)
    ensures Unspawned(n, k) == k * (2 * n + 12)
  {
    if k > 0 {
      UnspawnedProduct(n, k - 1);
      assert k * (2 * n + 12) == (k - 1) * (2 * n + 12) + (2 * n + 12);
    }
  }

  ghost function SpawnRank<V, X, R>(n: nat, s: State<V, X, R>): nat {
    match s.spawner
    case Spawning => Unspawned(n, n - |s.steps|) + 4
    case Counted => Unspawned(n, n - |s.steps|) + 3
    case SpawnDone => 3
    case SpawnDelivering => 2
    case SpawnGone => 1
  }

  ghost function Measure<V, X, R>(n: nat, s: State<V, X, R>): nat {
    Ranks(n, s.steps, |s.committed|) + SpawnRank(n, s)
  }

  lemma {:induction false} RanksUpdate<V, X>(n: nat, steps: seq<StepPC<V, X>>, i: nat, pc: StepPC<V, X>, c: nat)
    requires i < |steps|
    ensures Ranks(n, steps[i := pc], c) == Ranks(n, steps, c) - Rank(n, steps[i], c) + Rank(n, pc, c)
  {
    if i > 0 {
      RanksUpdate(n, steps[1..], i - 1, pc, c);
      assert steps[i := pc][1..] == steps[1..][i - 1 := pc];
    } else {
      assert steps[i := pc][1..] == steps[1..];
    }
  }

  lemma {:induction false} RanksSnoc<V, X>(n: nat, steps: seq<StepPC<V, X>>, pc: StepPC<V, X>, c: nat)
    ensures Ranks(n, steps + [pc], c) == Ranks(n, steps, c) + Rank(n, pc, c)
  {
    if steps == [] {
      assert steps + [pc] == [pc];
    } else {
      RanksSnoc(n, steps[1..], pc, c);
      assert (steps + [pc])[1..] == steps[1..] + [pc];
    }
  }

  lemma {:induction false} RanksCommit<V, X>(n: nat, steps: seq<StepPC<V, X>>, c: nat)
    ensures Ranks(n, steps, c + 1) <= Ranks(n, steps, c) + 2 * |steps|
  {
    if steps != [] { RanksCommit(n, steps[1..], c); }
  }

  lemma MeasureSpawn<V, X, R>(job: Job<V, X, R>, s: State<V, X, R>)
    requires Accounting(job.n, s) && s.spawner != SpawnGone
    ensures Measure(job.n, SpawnStep(job, s)) < Measure(job.n, s)
  {
    RanksSnoc(job.n, s.steps, Ready, |s.committed|);
  }

  lemma RanksTask<V, X, R>(job: Job<V, X, R>, v: V, s: State<V, X, R>, i: nat)
    requires Folded(job, v, s) && |s.steps| <= job.n && i < |s.steps| && s.steps[i] != Gone
    ensures var t := TaskStep(job, s, i);
            Ranks(job.n, t.steps, |t.committed|) < Ranks(job.n, s.steps, |s.committed|)
  {
    var t := TaskStep(job, s, i);
    RanksUpdate(job.n, s.steps, i, t.steps[i], |s.committed|);
    match s.steps[i]
    case Cas(was, seen, step) =>
      assert s.committed[..|s.committed|] == s.committed;
      assert InFlight(job, v, s.committed, i, s.steps[i]);
      if s.acc == was { RanksCommit(job.n, t.steps, |s.committed|); }
    case _ =>
  }

  lemma MeasureTask<V, X, R>(job: Job<V, X, R>, v: V, s: State<V, X, R>, i: nat)
    requires Folded(job, v, s) && |s.steps| <= job.n && i < |s.steps| && s.steps[i] != Gone
    ensures Measure(job.n, TaskStep(job, s, i)) < Measure(job.n, s)
  {
    RanksTask(job, v, s, i);
    assert SpawnRank(job.n, TaskStep(job, s, i)) == SpawnRank(job.n, s);
  }

  lemma MeasureStep<V, X, R>(job: Job<V, X, R>, v: V, s: State<V, X, R>, act: Action)
    requires Inv(job, v, s) && Enabled(s, act)
    ensures Measure(job.n, Next(job, s, act)) < Measure(job.n, s)
  {
    match act
    case Spawn => MeasureSpawn(job, s);
    case Step(i) => MeasureTask(job, v, s, i);
  }

  lemma {:induction false} MeasureBounds<V, X, R>(job: Job<V, X, R>, v: V, s: State<V, X, R>, acts: seq<Action>)
    requires Inv(job, v, s) && Runnable(job, s, acts)
    ensures |acts| <= Measure(job.n, s)
    decreases |acts|
  {
    if acts != [] {
      MeasureStep(job, v, s, acts[0]);
      InvStep(job, v, s, acts[0]);
      MeasureBounds(job, v, Next(job, s, acts[0]), acts[1..]);
    }
  }
}
