/** What a flow delivers as a function of its consumer alone: the demands written in its callbacks decide
    how many elements it gets, whether it is cancelled, and whether it is told that it is done. */
module FlowDemand {
  import opened Wrappers
  import T = Trampoline
  import opened Flow
  import opened FlowTheorems

  /** The sum of the positive requests in a list of demands. */
  function Positive(ds: seq<Demand>): nat {
    if ds == [] then 0
    else (match ds[0] { case Request(m) => if m >= 1 then m else 0 case Cancel => 0 }) + Positive(ds[1..])
  }

  /** What the consumer asks for in `starting` and in the callbacks of the first `c` elements. */
  function Asked(k: Consumer, c: nat): nat {
    if c == 0 then Positive(k.onStart) else Asked(k, c - 1) + Positive(k.onValue(c - 1))
  }

  /** The consumer cancels in the callback of one of the elements `from`..`to`. */
  predicate Quits(k: Consumer, from: nat, to: nat) {
    exists i: nat :: from <= i < to && Cancel in k.onValue(i)
  }

  /** From `s` to `r` the consumer made demands worth `sum`, and `cancel` says whether it cancelled, in
      addition to those in the callbacks of the elements delivered in between. */
  ghost predicate Obeys(k: Consumer, s: State, r: State, sum: nat, cancel: bool) {
    && s.c <= r.c
    && (r.upDone <==> s.upDone || cancel || Quits(k, s.c, r.c))
    && r.requested <= s.requested + sum + Asked(k, r.c) - Asked(k, s.c)
    && (!r.upDone ==> r.requested == s.requested + sum + Asked(k, r.c) - Asked(k, s.c))
    && (forall j: nat :: s.c <= j < r.c ==> Asked(k, j) > j)
  }

  lemma ObeysThen(k: Consumer, s: State, m: State, r: State, a: nat, b: nat, p: bool, q: bool)
    requires Obeys(k, s, m, a, p) && Obeys(k, m, r, b, q)
    ensures Obeys(k, s, r, a + b, p || q)
  {
    assert Quits(k, s.c, r.c) <==> Quits(k, s.c, m.c) || Quits(k, m.c, r.c) by {
      if i: nat :| s.c <= i < r.c && Cancel in k.onValue(i) {
        assert if i < m.c then Quits(k, s.c, m.c) else Quits(k, m.c, r.c);
      }
    }
  }

  lemma {:induction false} OutstandingNonNegative(ws: seq<Work>)
    requires forall w :: w in ws && w.Pull? ==> w.n >= 1
    ensures Outstanding(ws) >= 0
  {
    if ws != [] {
      assert ws[0] in ws;
      OutstandingNonNegative(ws[1..]);
    }
  }

  /** The requests made so far, with `sum` more to come, are among those of the callbacks so far, and the
      accepted ones cover what has been delivered, what is deferred and `taken`. */
  predicate Covered(k: Consumer, s: State, sum: nat, taken: int) {
    s.requested + sum <= Asked(k, s.c) && Debt(s) >= taken
  }

  lemma {:induction false} ReactObeys(k: Consumer, n: nat, ds: seq<Demand>, s: State)
    requires Valid(n, s) && s.active == s.depth + 1 && Covered(k, s, Positive(ds), 0)
    ensures Obeys(k, s, React(k, n, ds, s), Positive(ds), Cancel in ds)
    decreases n - s.c, 4, |ds|
  {
    if ds != [] {
      var m := Ask(k, n, ds[0], s);
      assert Positive([ds[0]]) + Positive(ds[1..]) == Positive(ds) by { assert [ds[0]][1..] == []; }
      AskObeys(k, n, ds[0], s);
      AskConserves(k, n, ds[0], s);
      ReactObeys(k, n, ds[1..], m);
      ObeysThen(k, s, m, React(k, n, ds, s), Positive([ds[0]]), Positive(ds[1..]), ds[0] == Cancel, Cancel in ds[1..]);
      assert Cancel in ds <==> ds[0] == Cancel || Cancel in ds[1..];
    }
  }

  lemma {:induction false} AskObeys(k: Consumer, n: nat, d: Demand, s: State)
    requires Valid(n, s) && s.active == s.depth + 1 && Covered(k, s, Positive([d]), 0)
    ensures Obeys(k, s, Ask(k, n, d, s), Positive([d]), d == Cancel)
    decreases n - s.c, 3
  {
    assert [d][1..] == [];
    if !s.upDone {
      if d == Cancel {
        var s' := s.(upDone := true, stop := true, cancelledAt := Some(|s.values|));
        SubmitObeys(k, n, Finish, s');
        ObeysFrom(k, s, s', Ask(k, n, d, s), 0, true);
      } else if d.n >= 1 {
        var s' := s.(requested := s.requested + d.n);
        SubmitObeys(k, n, Pull(d.n), s');
        ObeysFrom(k, s, s', Ask(k, n, d, s), d.n, false);
      }
    }
  }

  /** Accounting for what a demand does before anything is delivered. */
  lemma ObeysFrom(k: Consumer, s: State, s': State, r: State, sum: nat, cancel: bool)
    requires Obeys(k, s', r, 0, false) && s'.c == s.c
    requires s'.requested == s.requested + sum && s'.upDone == (s.upDone || cancel)
    ensures Obeys(k, s, r, sum, cancel)
  {
  }

  /** Accounting for one element and the demands in its callback. */
  lemma ObeysElement(k: Consumer, s: State, s': State, r: State)
    requires Obeys(k, s', r, Positive(k.onValue(s.c)), Cancel in k.onValue(s.c))
    requires s'.c == s.c + 1 && s'.requested == s.requested && s'.upDone == s.upDone && Asked(k, s.c) > s.c
    ensures Obeys(k, s, r, 0, false)
  {
    assert Quits(k, s.c, r.c) <==> Cancel in k.onValue(s.c) || Quits(k, s'.c, r.c);
  }

  lemma {:induction false} SubmitObeys(k: Consumer, n: nat, w: Work, s: State)
    requires Valid(n, s) && s.active == s.depth + 1 && Covered(k, s, 0, Worth(w))
    requires w.Pull? ==> w.n >= 1 && s.requested >= 1
    requires w.Finish? ==> s.upDone
    ensures Obeys(k, s, Submit(k, n, w, s), 0, false)
    decreases n - s.c, 2
  {
    if s.depth + 1 <= T.MAX_DEPTH { WorkObeys(k, n, w, s.(depth := s.depth + 1)); }
  }

  lemma {:induction false} WorkObeys(k: Consumer, n: nat, w: Work, s: State)
    requires Valid(n, s) && s.active == s.depth && Covered(k, s, 0, Worth(w))
    requires w.Pull? ==> w.n >= 1 && s.requested >= 1
    requires w.Finish? ==> s.upDone
    ensures Obeys(k, s, DoWork(k, n, w, s), 0, false)
    decreases n - s.c, 1
  {
    if w.Pull? { LoopObeys(k, n, w.n, Enter(s)); }
  }

  /** Delivering one element keeps the requests covered. */
  lemma CoveredElement(k: Consumer, n: nat, remaining: nat, s: State)
    requires Valid(n, s) && s.c < n && !s.stop && remaining > 0 && Covered(k, s, 0, remaining)
    ensures Asked(k, s.c) > s.c
    ensures Covered(k, Deliver(s.c, s.(c := s.c + 1)), Positive(k.onValue(s.c)), remaining - 1)
  {
    OutstandingNonNegative(s.pending);
  }

  lemma CoveredAfter(k: Consumer, s: State, r: State, sum: nat, cancel: bool, taken: int)
    requires Covered(k, s, sum, taken) && Obeys(k, s, r, sum, cancel) && Debt(r) >= Debt(s)
    ensures Covered(k, r, 0, taken)
  {
  }

  lemma LoopUnfolds(k: Consumer, n: nat, remaining: nat, s: State)
    requires Valid(n, s) && s.active == s.depth + 1 && s.requested >= 1
    requires remaining > 0 && !s.stop && s.c < n
    ensures var s' := Deliver(s.c, s.(c := s.c + 1));
            && !s.downDone && Valid(n, s')
            && Loop(k, n, remaining, s) == Loop(k, n, remaining - 1, React(k, n, k.onValue(s.c), s'))
  {
  }

  lemma {:induction false} LoopObeys(k: Consumer, n: nat, remaining: nat, s: State)
    requires Valid(n, s) && s.active == s.depth + 1 && s.requested >= 1 && Covered(k, s, 0, remaining)
    ensures Obeys(k, s, Loop(k, n, remaining, s), 0, false)
    decreases n - s.c, 0
  {
    if remaining > 0 && !s.stop && s.c < n {
      var ds := k.onValue(s.c);
      var s' := Deliver(s.c, s.(c := s.c + 1));
      LoopUnfolds(k, n, remaining, s);
      CoveredElement(k, n, remaining, s);
      ReactObeys(k, n, ds, s');
      ReactConserves(k, n, ds, s');
      var m := React(k, n, ds, s');
      ObeysElement(k, s, s', m);
      CoveredAfter(k, s', m, Positive(ds), Cancel in ds, remaining - 1);
      LoopObeys(k, n, remaining - 1, m);
      ObeysThen(k, s, m, Loop(k, n, remaining, s), 0, 0, false, false);
    }
  }

  lemma {:induction false} DrainObeys(k: Consumer, n: nat, s: State)
    requires Valid(n, s) && s.active == s.depth && Covered(k, s, 0, 0)
    ensures Obeys(k, s, Drain(k, n, s), 0, false)
    decreases n - s.c, 5, |s.pending|
  {
    if s.pending != [] {
      var w := s.pending[0];
      var s' := s.(pending := s.pending[1..]);
      var m := DoWork(k, n, w, s');
      WorkObeys(k, n, w, s');
      WorkConserves(k, n, w, s');
      DrainObeys(k, n, m);
      ObeysThen(k, s, m, Drain(k, n, s), 0, 0, false, false);
    }
  }

  lemma ReactCovered(k: Consumer, n: nat, ds: seq<Demand>, s: State)
    requires Valid(n, s) && s.active == s.depth + 1 && Covered(k, s, Positive(ds), 0)
    ensures Obeys(k, s, React(k, n, ds, s), Positive(ds), Cancel in ds) && Covered(k, React(k, n, ds, s), 0, 0)
  {
    ReactObeys(k, n, ds, s);
    ReactConserves(k, n, ds, s);
    CoveredAfter(k, s, React(k, n, ds, s), Positive(ds), Cancel in ds, 0);
  }

  /** A thread in the first task of a flow. */
  lemma OpeningObeys(k: Consumer, n: nat, s: State)
    requires Valid(n, s) && s.active == s.depth + 1 == 1 && Covered(k, s, Positive(k.onStart), 0)
    ensures Obeys(k, s, Drain(k, n, React(k, n, k.onStart, s).(active := 0)), Positive(k.onStart), Cancel in k.onStart)
  {
    var m := React(k, n, k.onStart, s).(active := 0);
    ReactCovered(k, n, k.onStart, s);
    DrainObeys(k, n, m);
    ObeysThen(k, s, m, Drain(k, n, m), Positive(k.onStart), 0, Cancel in k.onStart, false);
  }

  lemma RunObeys(k: Consumer, n: nat)
    ensures Obeys(k, STARTED, RunFlow(k, n), Positive(k.onStart), Cancel in k.onStart)
  {
    OpeningObeys(k, n, STARTED);
  }

  // --- The flow as a function of its consumer ---

  /** The consumer cancels in `starting` or in the callback of one of the first `c` elements. */
  predicate Cancels(k: Consumer, c: nat) {
    Cancel in k.onStart || Quits(k, 0, c)
  }

  /** A flow counts as cancelled exactly if the consumer made the demand in a callback that ran. */
  lemma CancelledExactly(k: Consumer, n: nat)
    ensures RunFlow(k, n).upDone <==> Cancels(k, RunFlow(k, n).c)
  {
    RunObeys(k, n);
  }

  /** Backpressure, with R the positive requests the consumer made in the callbacks that ran: elements come
      in order, each only while more were asked for than delivered; uncancelled, exactly min(N, R). */
  lemma Backpressure(k: Consumer, n: nat)
    ensures var r := RunFlow(k, n);
            && r.values == Upto(r.c) && r.c <= n && r.c <= Asked(k, r.c)
            && (forall j: nat :: j < r.c ==> Asked(k, j) > j)
            && (!Cancels(k, r.c) ==> r.c == if Asked(k, r.c) < n then Asked(k, r.c) else n)
  {
    RunObeys(k, n);
    RequestsConserved(k, n);
  }

  /** `done` is delivered at most once, and exactly if the consumer cancelled, or made a positive request
      and has all elements. */
  lemma DoneByDemand(k: Consumer, n: nat)
    ensures var r := RunFlow(k, n);
            r.dones == if Cancels(k, r.c) || (Asked(k, r.c) >= 1 && r.c == n) then 1 else 0
  {
    RunObeys(k, n);
    DoneExactly(k, n);
  }

  /** Where delivery stops: at the first element that nobody has asked for, or at the end. */
  function Served(k: Consumer, n: nat, j: nat): nat
    decreases n - j
  {
    if j >= n || Asked(k, j) <= j then j else Served(k, n, j + 1)
  }

  lemma {:induction false} ServedIs(k: Consumer, n: nat, j: nat, c: nat)
    requires j <= c <= n && (forall i: nat :: j <= i < c ==> Asked(k, i) > i)
    requires c == n || Asked(k, c) <= c
    ensures Served(k, n, j) == c
    decreases c - j
  {
    if j < c { ServedIs(k, n, j + 1, c); }
  }

  /** A consumer that never cancels gets exactly the elements up to the first one it has not asked for,
      however its requests nest and whatever is deferred. */
  lemma FlowIsFunctionOfDemand(k: Consumer, n: nat)
    requires !Cancels(k, n)
    ensures var r := RunFlow(k, n);
            var c := Served(k, n, 0);
            && r.values == Upto(c) && !r.upDone
            && r.requested == Asked(k, c)
            && r.dones == if Asked(k, c) >= 1 && c == n then 1 else 0
  {
    RunObeys(k, n);
    Backpressure(k, n);
    DoneByDemand(k, n);
    ServedIs(k, n, 0, RunFlow(k, n).c);
  }
}
