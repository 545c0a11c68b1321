/** The concurrent bulk target against the sequential one: exactly-once completion, and the
    equivalence of its complete runs with sequential runs over some order of the indices. */
module BulkReduceTheorems {
  import opened Wrappers
  import opened BulkReduce
  import opened BulkReduceInvariant

  ghost predicate Complete<V, X, R>(s: State<V, X, R>) {
    s.spawner == SpawnGone && forall i :: 0 <= i < |s.steps| ==> s.steps[i] == Gone
  }

  // --- Every reachable state ---

  /** After any run the accumulator is the fold over the committed indices, each once, in commit order. */
  lemma AccumulatorIsFold<V, X, R>(job: Job<V, X, R>, v: V, acts: seq<Action>)
    requires Runnable(job, Init(v), acts)
    ensures var s := After(job, Init(v), acts);
            && Fold(job, v, s.committed) == Returned(s.acc)
            && forall k, l :: 0 <= k < l < |s.committed| ==> s.committed[k] != s.committed[l]
  {
    InvInit(job, v);
    RunInv(job, v, Init(v), acts);
  }

  /** After any run `pending` counts the parties that have not finished; it is zero only once all
      indices have been spawned and have ended; nothing is signalled before that and one result
      after: one error, thrown by a step, if any step threw, otherwise the value the selector makes of
      the accumulator and then done, or the selector's exception. By the time a party reads the slot its
      only writer has finished. */
  lemma CompletesOnce<V, X, R>(job: Job<V, X, R>, v: V, acts: seq<Action>)
    requires Runnable(job, Init(v), acts)
    ensures var s := After(job, Init(v), acts);
            && s.pending == Held(s.spawner) + Unfinished(s.steps)
            && (s.pending == 0 ==> |s.steps| == job.n && forall i :: 0 <= i < job.n ==> Ended(s.steps[i]))
            && (s.out != [] ==> s.pending == 0 && Quiet(s) && s.out == Verdict(job, s))
            && (Complete(s) ==> s.out != [])
            && (Complete(s) && s.thrown != map[] ==> exists i :: i in s.thrown && s.out == [Error(s.thrown[i])])
            && (Complete(s) && s.thrown == map[] ==>
                  match job.selector(s.acc)
                  case Returned(r) => s.out == [Value(r), Done]
                  case Thrown(x) => s.out == [Error(x)])
            && (forall i, j :: 0 <= i < |s.steps| && 0 <= j < |s.steps| && s.steps[i].Store?
                               ==> (s.steps[j].Store? ==> i == j) && !s.steps[j].Delivering? && s.first.None?)
  {
    InvInit(job, v);
    RunInv(job, v, Init(v), acts);
    var s := After(job, Init(v), acts);
    forall i | 0 <= i < |s.steps| ensures !Ended(s.steps[i]) ==> s.pending > 0 {
      UnfinishedUpdate(s.steps, i, s.steps[i]);
    }
    if Complete(s) {
      AllEnded(s.steps);
      CompleteVerdict(job, s);
    }
  }

  /** A complete run has the slot filled by a step that threw if any step threw, and empty otherwise. */
  lemma CompleteVerdict<V, X, R>(job: Job<V, X, R>, s: State<V, X, R>)
    requires Tally(s) && Slot(s) && Complete(s)
    ensures s.thrown != map[] ==> exists i :: i in s.thrown && s.first == Some(s.thrown[i])
    ensures s.thrown == map[] ==> s.first == None
  {
    if s.thrown != map[] {
      var i :| i in s.thrown;
      assert s.steps[i] == Gone;
      assert s.steps[s.claims[0]] == Gone;
    } else {
      HasElement(s.claims);
    }
  }

  lemma {:induction false} AllEnded<V, X>(steps: seq<StepPC<V, X>>)
    requires forall i :: 0 <= i < |steps| ==> Ended(steps[i])
    ensures Unfinished(steps) == 0
  {
    if steps != [] { AllEnded(steps[1..]); }
  }

  /** Nothing blocks, and every run ends: the compare-exchange loops included, a run of `n` indices
      takes at most `n * (2n + 12) + 4` atomic steps. */
  lemma Terminates<V, X, R>(job: Job<V, X, R>, v: V, acts: seq<Action>)
    requires Runnable(job, Init(v), acts)
    ensures |acts| <= job.n * (2 * job.n + 12) + 4
    ensures Complete(After(job, Init(v), acts)) || exists act :: Enabled(After(job, Init(v), acts), act)
  {
    InvInit(job, v);
    MeasureBounds(job, v, Init(v), acts);
    UnspawnedProduct(job.n, job.n);
    var s := After(job, Init(v), acts);
    if s.spawner != SpawnGone {
      assert Enabled(s, Spawn);
    } else if i :| 0 <= i < |s.steps| && s.steps[i] != Gone {
      assert Enabled(s, Step(i));
    }
  }

  // --- Orders ---

  /** `order` lists 0..n, each index once. */
  predicate IsOrder(order: seq<nat>, n: nat) {
    && (forall k, l :: 0 <= k < l < |order| ==> order[k] != order[l])
    && (forall i :: i in order ==> i < n)
    && (forall i: nat :: i < n ==> i in order)
  }

  /** The indices below `n` that `order` misses. */
  function Missing(order: seq<nat>, n: nat): (r: seq<nat>)
    ensures forall i: nat :: i in r <==> i < n && i !in order
    ensures forall k, l :: 0 <= k < l < |r| ==> r[k] != r[l]
  {
    if n == 0 then [] else Missing(order, n - 1) + if n - 1 in order then [] else [n - 1]
  }

  /** `out` is what some complete run of the concurrent target signals. */
  ghost predicate MayDeliver<V, X, R>(job: Job<V, X, R>, out: seq<Signal<X, R>>) {
    match job.init
    case Thrown(x) => out == [Error(x)]
    case Returned(v) =>
      exists acts :: Runnable(job, Init(v), acts) && Complete(After(job, Init(v), acts))
                     && out == After(job, Init<V, X, R>(v), acts).out
  }

  /** An index that throws `x` after some prefix decides the outcome of an order. */
  lemma RaisingOrder<V, X, R>(job: Job<V, X, R>, v: V, order: seq<nat>, i: nat, x: X) returns (p: seq<nat>)
    requires Raises(job, v, order, i, x) && i !in order && i < job.n
    requires forall k, l :: 0 <= k < l < |order| ==> order[k] != order[l]
    requires forall j :: j in order ==> j < job.n
    ensures IsOrder(p, job.n) && Fold(job, v, p) == Thrown(x)
  {
    var k: nat :| k <= |order| && Fold(job, v, order[..k] + [i]) == Thrown(x);
    var a := order[..k] + [i];
    p := a + Missing(a, job.n);
    FoldAppend(job, v, a, Missing(a, job.n));
    assert forall j :: j in order[..k] ==> j in order;
    forall j: nat | j < job.n ensures j in p { assert j in a || j in Missing(a, job.n); }
    forall j | j in p ensures j < job.n { assert j in a || j in Missing(a, job.n); }
    forall l, m | 0 <= l < m < |p| ensures p[l] != p[m] {
      assert l < |a| ==> p[l] in a;
      assert l >= |a| ==> p[l] == Missing(a, job.n)[l - |a|];
      assert m >= |a| ==> p[m] == Missing(a, job.n)[m - |a|];
    }
  }

  /** What a complete run signals is what a sequential driver signals on some order of the indices. */
  lemma RunIsSequential<V, X, R>(job: Job<V, X, R>, v: V, s: State<V, X, R>) returns (order: seq<nat>)
    requires job.init == Returned(v) && Inv(job, v, s) && Complete(s)
    ensures IsOrder(order, job.n) && s.out == InOrder(job, order)
  {
    AllEnded(s.steps);
    forall i | 0 <= i < job.n ensures i in s.committed || i in s.thrown {
      assert Recorded(s.committed, s.thrown, i, s.steps[i]);
    }
    if s.claims == [] {
      forall i | 0 <= i < job.n ensures i in s.committed { assert s.steps[i] == Gone; }
      order := s.committed;
    } else {
      var i := s.claims[0];
      order := RaisingOrder(job, v, s.committed, i, s.thrown[i]);
    }
  }

  // --- Every order is a run ---

  ghost predicate Reaches<V, X, R>(job: Job<V, X, R>, s: State<V, X, R>, t: State<V, X, R>) {
    exists acts :: Runnable(job, s, acts) && After(job, s, acts) == t
  }

  lemma {:induction false} RunAppend<V, X, R>(job: Job<V, X, R>, s: State<V, X, R>, a: seq<Action>, b: seq<Action>)
    requires Runnable(job, s, a) && Runnable(job, After(job, s, a), b)
    ensures Runnable(job, s, a + b) && After(job, s, a + b) == After(job, After(job, s, a), b)
    decreases |a|
  {
    if a == [] {
      assert a + b == b;
    } else {
      assert (a + b)[1..] == a[1..] + b;
      RunAppend(job, Next(job, s, a[0]), a[1..], b);
    }
  }

  lemma ReachesStep<V, X, R>(job: Job<V, X, R>, r: State<V, X, R>, s: State<V, X, R>, act: Action)
    returns (t: State<V, X, R>)
    requires Reaches(job, r, s) && Enabled(s, act)
    ensures t == Next(job, s, act) && Reaches(job, r, t)
  {
    t := Next(job, s, act);
    var acts :| Runnable(job, r, acts) && After(job, r, acts) == s;
    assert Runnable(job, t, []);
    assert [act][1..] == [];
    assert Runnable(job, s, [act]) && After(job, s, [act]) == t;
    RunAppend(job, r, acts, [act]);
  }

  lemma ReachedInv<V, X, R>(job: Job<V, X, R>, v: V, s: State<V, X, R>)
    requires Reaches(job, Init(v), s)
    ensures Inv(job, v, s)
  {
    InvInit(job, v);
    var acts :| Runnable(job, Init(v), acts) && After(job, Init(v), acts) == s;
    RunInv(job, v, Init(v), acts);
  }

  /** All indices are spawned; those in `done` have been taken, one at a time, in that order. */
  ghost predicate Serving<V, X, R>(job: Job<V, X, R>, v: V, s: State<V, X, R>, done: seq<nat>) {
    && Reaches(job, Init(v), s) && s.spawner == Spawning && |s.steps| == job.n
    && (forall i :: 0 <= i < job.n ==> s.steps[i] == if i in done then Gone else Ready)
    && match s.first
       case None => s.exceptions == 0 && s.committed == done
       case Some(x) => Fold(job, v, done) == Thrown(x)
  }

  lemma {:induction false} SpawnAll<V, X, R>(job: Job<V, X, R>, v: V, k: nat) returns (s: State<V, X, R>)
    requires k <= job.n
    ensures Reaches(job, Init(v), s) && s == Init<V, X, R>(v).(pending := 1 + k, steps := seq(k, i => Ready))
  {
    if k == 0 {
      s := Init(v);
      assert Runnable(job, s, []) && After(job, s, []) == s;
    } else {
      s := SpawnAll(job, v, k - 1);
      s := ReachesStep(job, Init(v), s, Spawn);
      s := ReachesStep(job, Init(v), s, Spawn);
    }
  }

  /** One task run from start to end with nobody else moving. */
  lemma RunTask<V, X, R>(job: Job<V, X, R>, r: State<V, X, R>, s: State<V, X, R>, i: nat) returns (t: State<V, X, R>)
    requires Reaches(job, r, s) && i < |s.steps| && s.steps[i] == Ready && s.pending > 1
    ensures Reaches(job, r, t) && t.spawner == s.spawner && t.steps == s.steps[i := Gone]
    ensures match job.func(s.acc, i)
            case Returned(w) => t.committed == s.committed + [i] && t.exceptions == s.exceptions && t.first == s.first
            case Thrown(x) => t.committed == s.committed && t.exceptions == s.exceptions + 1
                              && t.first == if s.exceptions == 0 then Some(x) else s.first
  {
    t := ReachesStep(job, r, s, Step(i));
    t := ReachesStep(job, r, t, Step(i));
    t := ReachesStep(job, r, t, Step(i));
    if t.steps[i].Store? { t := ReachesStep(job, r, t, Step(i)); }
    t := ReachesStep(job, r, t, Step(i));
  }

  lemma ServeOne<V, X, R>(job: Job<V, X, R>, v: V, s: State<V, X, R>, done: seq<nat>, i: nat)
    returns (t: State<V, X, R>)
    requires Serving(job, v, s, done) && i < job.n && i !in done
    ensures Serving(job, v, t, done + [i])
  {
    ReachedInv(job, v, s);
    FoldAppend(job, v, done, [i]);
    FoldOne(job, s.acc, i);
    UnfinishedUpdate(s.steps, i, Gone);
    t := RunTask(job, Init(v), s, i);
  }

  lemma {:induction false} ServeAll<V, X, R>(job: Job<V, X, R>, v: V, order: seq<nat>, k: nat)
    returns (s: State<V, X, R>)
    requires IsOrder(order, job.n) && k <= |order|
    ensures Serving(job, v, s, order[..k])
  {
    if k == 0 {
      s := SpawnAll(job, v, job.n);
    } else {
      s := ServeAll(job, v, order, k - 1);
      assert order[k - 1] in order && order[k - 1] !in order[..k - 1];
      s := ServeOne(job, v, s, order[..k - 1], order[k - 1]);
      assert order[..k] == order[..k - 1] + [order[k - 1]];
    }
  }

  /** The spawner, once every task has run, brings the counter to zero and signals. */
  lemma Close<V, X, R>(job: Job<V, X, R>, r: State<V, X, R>, s: State<V, X, R>) returns (t: State<V, X, R>)
    requires Reaches(job, r, s) && s.spawner == Spawning && |s.steps| == job.n && s.pending == 1
    ensures Reaches(job, r, t) && t == Deliver(job, s).(pending := 0, spawner := SpawnGone)
  {
    t := ReachesStep(job, r, s, Spawn);
    t := ReachesStep(job, r, t, Spawn);
    t := ReachesStep(job, r, t, Spawn);
  }

  lemma SequentialIsRun<V, X, R>(job: Job<V, X, R>, v: V, order: seq<nat>)
    requires job.init == Returned(v) && IsOrder(order, job.n)
    ensures MayDeliver(job, InOrder(job, order))
  {
    var s := ServeAll(job, v, order, |order|);
    assert order[..|order|] == order;
    ReachedInv(job, v, s);
    AllEnded(s.steps);
    var t := Close(job, Init(v), s);
    assert Complete(t) && t.out == InOrder(job, order);
  }

  /** The outcomes of complete concurrent runs are exactly the outcomes of the sequential driver
      over the orders of the indices. */
  lemma OutcomesAreOrders<V, X, R>(job: Job<V, X, R>, out: seq<Signal<X, R>>)
    ensures MayDeliver(job, out) <==> exists order :: IsOrder(order, job.n) && out == InOrder(job, order)
  {
    UptoIsOrder(job.n);
    match job.init
    case Thrown(x) =>
      assert InOrder(job, Upto(job.n)) == [Error(x)];
    case Returned(v) =>
      if MayDeliver(job, out) {
        var acts :| Runnable(job, Init(v), acts) && Complete(After(job, Init(v), acts))
                    && out == After(job, Init<V, X, R>(v), acts).out;
        InvInit(job, v);
        RunInv(job, v, Init(v), acts);
        var order := RunIsSequential(job, v, After(job, Init(v), acts));
      }
      forall order | IsOrder(order, job.n) && out == InOrder(job, order) ensures MayDeliver(job, out) {
        SequentialIsRun(job, v, order);
      }
  }

  lemma UptoIsOrder(n: nat)
    ensures IsOrder(Upto(n), n)
  {
    forall i: nat | i < n ensures i in Upto(n) { assert Upto(n)[i] == i; }
  }

  // --- When the order does not matter ---

  /** At every accumulator a run can reach, two indices can be swapped. */
  ghost predicate Commutes<V, X, R>(job: Job<V, X, R>, v: V) {
    forall p: seq<nat>, i: nat, j: nat :: i < job.n && j < job.n ==>
      Fold(job, v, p + [i, j]) == Fold(job, v, p + [j, i])
  }

  lemma {:induction false} MoveToFront<V, X, R>(job: Job<V, X, R>, v: V, pre: seq<nat>,
                                             a: seq<nat>, x: nat, b: seq<nat>)
    requires Commutes(job, v) && x < job.n && Below(a, job.n)
    ensures Fold(job, v, pre + a + [x] + b) == Fold(job, v, pre + [x] + a + b)
    decreases |a|
  {
    if a == [] {
      assert pre + a + [x] + b == pre + [x] + a + b;
    } else {
      var front, y := a[..|a| - 1], a[|a| - 1];
      assert a == front + [y];
      assert y in a && forall i :: i in front ==> i in a;
      assert pre + a + [x] + b == (pre + front + [y, x]) + b;
      FoldAppend(job, v, pre + front + [y, x], b);
      FoldAppend(job, v, pre + front + [x, y], b);
      assert (pre + front + [x, y]) + b == pre + front + [x] + ([y] + b);
      MoveToFront(job, v, pre, front, x, [y] + b);
      assert pre + [x] + front + ([y] + b) == pre + [x] + a + b;
    }
  }

  /** Two lists of the same indices below `n`, each once. */
  ghost predicate Reordered(p: seq<nat>, q: seq<nat>, n: nat) {
    && (forall k, l :: 0 <= k < l < |p| ==> p[k] != p[l])
    && (forall k, l :: 0 <= k < l < |q| ==> q[k] != q[l])
    && (forall i :: i in p <==> i in q)
    && Below(p, n)
  }

  predicate Below(p: seq<nat>, n: nat) {
    forall i :: i in p ==> i < n
  }

  lemma HasElement(q: seq<nat>)
    ensures q == [] || exists i :: i in q
  {
    if q != [] { assert q[0] in q; }
  }

  /** Where the head of `p` stands in `q`. */
  lemma Peel(p: seq<nat>, q: seq<nat>, n: nat) returns (a: seq<nat>, b: seq<nat>)
    requires p != [] && Reordered(p, q, n)
    ensures q == a + [p[0]] + b && Reordered(p[1..], a + b, n) && Below(a, n)
  {
    assert p[0] in p;
    var k :| 0 <= k < |q| && q[k] == p[0];
    a, b := q[..k], q[k + 1..];
    forall i | i in a ensures i < n { assert i in q && i in p; }
    forall i ensures i in p[1..] <==> i in p && i != p[0] {
      if i in p && i != p[0] {
        var l :| 0 <= l < |p| && p[l] == i;
        assert p[1..][l - 1] == i;
      }
    }
    forall i ensures i in a + b <==> i in q && i != p[0] {
      if i in q && i != p[0] {
        var l :| 0 <= l < |q| && q[l] == i;
        assert (a + b)[if l < k then l else l - 1] == i;
      }
    }
  }

  lemma {:induction false} OrderIrrelevant<V, X, R>(job: Job<V, X, R>, v: V, pre: seq<nat>, p: seq<nat>, q: seq<nat>)
    requires Commutes(job, v) && Reordered(p, q, job.n)
    ensures Fold(job, v, pre + p) == Fold(job, v, pre + q)
    decreases |p|
  {
    if p == [] {
      HasElement(q);
    } else {
      assert p[0] in p;
      var a, b := Peel(p, q, job.n);
      var x := [p[0]];
      OrderIrrelevant(job, v, pre + x, p[1..], a + b);
      assert (pre + x) + p[1..] == pre + p;
      assert (pre + x) + (a + b) == pre + x + a + b;
      MoveToFront(job, v, pre, a, p[0], b);
      assert pre + a + x + b == pre + q;
    }
  }

  /** The concurrent target refines the sequential driver: if any two indices can be swapped, every
      complete run, failing ones included, signals exactly what the sequential driver signals. */
  lemma Refines<V, X, R>(job: Job<V, X, R>, out: seq<Signal<X, R>>)
    requires job.init.Returned? ==> Commutes(job, job.init.value)
    ensures MayDeliver(job, out) <==> out == Sequential(job)
  {
    OutcomesAreOrders(job, out);
    UptoIsOrder(job.n);
    forall order | IsOrder(order, job.n) ensures InOrder(job, order) == Sequential(job) {
      if job.init.Returned? {
        OrderIrrelevant(job, job.init.value, [], order, Upto(job.n));
        assert [] + order == order && [] + Upto(job.n) == Upto(job.n);
      }
    }
  }

  // --- reduce ---

  /** The bulk job of `reduce`: the step is `acc = op(acc, *cursor)`, the selector the identity. */
  ghost function Reduction<T, X>(xs: seq<T>, init: T, op: (T, T) -> T): Job<T, X, T> {
    Job(|xs|, Returned(init),
        (acc: T, i: nat) => if i < |xs| then Returned(op(acc, xs[i])) else Returned(acc),
        acc => Returned(acc))
  }

  /** `std::accumulate` */
  ghost function Accumulate<T>(xs: seq<T>, init: T, op: (T, T) -> T): T {
    if xs == [] then init else Accumulate(xs[1..], op(init, xs[0]), op)
  }

  lemma {:induction false} FoldAccumulates<T, X>(xs: seq<T>, init: T, op: (T, T) -> T, acc: T, k: nat)
    requires k <= |xs|
    ensures Fold(Reduction<T, X>(xs, init, op), acc, Upto(|xs|)[k..]) == Returned(Accumulate(xs[k..], acc, op))
    decreases |xs| - k
  {
    if k < |xs| {
      assert Upto(|xs|)[k..][0] == k && Upto(|xs|)[k..][1..] == Upto(|xs|)[k + 1..];
      assert xs[k..][1..] == xs[k + 1..];
      FoldAccumulates<T, X>(xs, init, op, op(acc, xs[k]), k + 1);
    }
  }

  /** The law of the operation that the concurrent `reduce` needs. */
  ghost predicate Swaps<T(!new)>(op: (T, T) -> T) {
    forall a, x, y :: op(op(a, x), y) == op(op(a, y), x)
  }

  /** Every complete run of a concurrent `reduce` signals the accumulated value and then done. */
  lemma ReduceAccumulates<T(!new), X>(xs: seq<T>, init: T, op: (T, T) -> T, out: seq<Signal<X, T>>)
    requires Swaps(op)
    ensures MayDeliver(Reduction<T, X>(xs, init, op), out) <==> out == [Value(Accumulate(xs, init, op)), Done]
  {
    var job := Reduction<T, X>(xs, init, op);
    forall p: seq<nat>, i: nat, j: nat | i < job.n && j < job.n
      ensures Fold(job, init, p + [i, j]) == Fold(job, init, p + [j, i])
    {
      FoldAppend(job, init, p, [i, j]);
      FoldAppend(job, init, p, [j, i]);
      match Fold(job, init, p)
      case Thrown(_) =>
      case Returned(w) =>
        FoldTwo(job, w, i, j);
        FoldTwo(job, w, j, i);
    }
    Refines(job, out);
    FoldAccumulates<T, X>(xs, init, op, init, 0);
    assert Upto(|xs|)[0..] == Upto(|xs|) && xs[0..] == xs;
  }

  lemma FoldTwo<V, X, R>(job: Job<V, X, R>, v: V, i: nat, j: nat)
    ensures Fold(job, v, [i, j])
            == match job.func(v, i) { case Returned(w) => job.func(w, j) case Thrown(x) => Thrown(x) }
  {
    assert [i, j] == [i] + [j];
    FoldAppend(job, v, [i], [j]);
    FoldOne(job, v, i);
    if job.func(v, i).Returned? { FoldOne(job, job.func(v, i).value, j); }
  }

  /** Every complete run of every concurrent `reduce` with `op` agrees with `std::accumulate`. */
  ghost predicate AlwaysAccumulates<T(!new), X(!new)>(op: (T, T) -> T) {
    forall xs: seq<T>, init: T, out: seq<Signal<X, T>> ::
      MayDeliver(Reduction<T, X>(xs, init, op), out) ==> out == [Value(Accumulate(xs, init, op)), Done]
  }

  /** The law is exactly what is needed: without it some two-element reduce has a run that signals
      another value. */
  lemma LawIsExact<T(!new), X(!new)>(op: (T, T) -> T)
    ensures AlwaysAccumulates<T, X>(op) <==> Swaps(op)
  {
    if Swaps(op) {
      forall xs: seq<T>, init: T, out: seq<Signal<X, T>> | MayDeliver(Reduction<T, X>(xs, init, op), out)
        ensures out == [Value(Accumulate(xs, init, op)), Done]
      {
        ReduceAccumulates<T, X>(xs, init, op, out);
      }
    }
    if AlwaysAccumulates<T, X>(op) {
      forall a, x, y ensures op(op(a, x), y) == op(op(a, y), x) {
        var job := Reduction<T, X>([x, y], a, op);
        FoldTwo(job, a, 1, 0);
        SequentialIsRun(job, a, [1, 0]);
        assert InOrder(job, [1, 0]) == [Value(op(op(a, y), x)), Done];
        assert [x, y][1..] == [y] && [y][1..] == [];
        assert Accumulate([y], op(a, x), op) == op(op(a, x), y);
      }
    }
  }
}
