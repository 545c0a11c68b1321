/** What every flow guarantees, for every number of elements and every consumer. */
module FlowTheorems {
  import opened Wrappers
  import T = Trampoline
  import opened Flow

  // --- Conservation of requests ---

  /** Accepted requests that are neither delivered nor deferred. */
  function Debt(s: State): int {
    s.requested - s.c - Outstanding(s.pending)
  }

  /** From `s` to `r` requests get lost only at the end of the elements or after a cancellation. */
  predicate Conserves(n: nat, s: State, r: State, taken: int) {
    && Debt(r) >= Debt(s) - taken
    && (r.c < n && !r.stop ==> Debt(r) == Debt(s) - taken)
  }

  lemma {:induction false} OutstandingSnoc(ws: seq<Work>, w: Work)
    ensures Outstanding(ws + [w]) == Outstanding(ws) + Worth(w)
  {
    if ws == [] {
      assert ws + [w] == [w];
    } else {
      OutstandingSnoc(ws[1..], w);
      assert (ws + [w])[1..] == ws[1..] + [w];
    }
  }

  lemma {:induction false} ReactConserves(k: Consumer, n: nat, ds: seq<Demand>, s: State)
    requires Valid(n, s) && s.active == s.depth + 1
    ensures Conserves(n, s, React(k, n, ds, s), 0)
    decreases n - s.c, 4, |ds|
  {
    if ds != [] {
      AskConserves(k, n, ds[0], s);
      ReactConserves(k, n, ds[1..], Ask(k, n, ds[0], s));
    }
  }

  lemma {:induction false} AskConserves(k: Consumer, n: nat, d: Demand, s: State)
    requires Valid(n, s) && s.active == s.depth + 1
    ensures Conserves(n, s, Ask(k, n, d, s), 0)
    decreases n - s.c, 3
  {
    if !s.upDone {
      match d
      case Request(m) => if m >= 1 { SubmitConserves(k, n, Pull(m), s.(requested := s.requested + m)); }
      case Cancel => SubmitConserves(k, n, Finish, s.(upDone := true, stop := true, cancelledAt := Some(|s.values|)));
    }
  }

  lemma {:induction false} SubmitConserves(k: Consumer, n: nat, w: Work, s: State)
    requires Valid(n, s) && s.active == s.depth + 1
    requires w.Pull? ==> w.n >= 1 && s.requested >= 1
    requires w.Finish? ==> s.upDone
    ensures Conserves(n, s, Submit(k, n, w, s), Worth(w))
    decreases n - s.c, 2
  {
    if s.depth + 1 > T.MAX_DEPTH {
      OutstandingSnoc(s.pending, w);
    } else {
      WorkConserves(k, n, w, s.(depth := s.depth + 1));
    }
  }

  lemma {:induction false} WorkConserves(k: Consumer, n: nat, w: Work, s: State)
    requires Valid(n, s) && s.active == s.depth
    requires w.Pull? ==> w.n >= 1 && s.requested >= 1
    requires w.Finish? ==> s.upDone
    ensures Conserves(n, s, DoWork(k, n, w, s), Worth(w))
    decreases n - s.c, 1
  {
    if w.Pull? {
      LoopConserves(k, n, w.n, Enter(s));
    }
  }

  lemma {:induction false} LoopConserves(k: Consumer, n: nat, remaining: nat, s: State)
    requires Valid(n, s) && s.active == s.depth + 1 && s.requested >= 1
    ensures Conserves(n, s, Loop(k, n, remaining, s), remaining)
    decreases n - s.c, 0
  {
    if remaining > 0 && !s.stop && s.c < n {
      var s' := Deliver(s.c, s.(c := s.c + 1));
      var ds := if s.downDone then [] else k.onValue(s.c);
      ReactConserves(k, n, ds, s');
      LoopConserves(k, n, remaining - 1, React(k, n, ds, s'));
    }
  }

  lemma {:induction false} DrainConserves(k: Consumer, n: nat, s: State)
    requires Valid(n, s) && s.active == s.depth
    ensures Conserves(n, s, Drain(k, n, s), 0)
    decreases n - s.c, 5, |s.pending|
  {
    if s.pending != [] {
      var s' := s.(pending := s.pending[1..]);
      WorkConserves(k, n, s.pending[0], s');
      DrainConserves(k, n, DoWork(k, n, s.pending[0], s'));
    }
  }

  lemma StartConserves(k: Consumer, n: nat)
    ensures Debt(React(k, n, k.onStart, STARTED)) >= 0
    ensures var s := React(k, n, k.onStart, STARTED); s.c < n && !s.stop ==> Debt(s) == 0
  {
    ReactConserves(k, n, k.onStart, STARTED);
  }

  /** Elements are delivered in order and none twice, never more than the requests accepted so far;
      without a cancellation the trampoline becomes idle having delivered exactly as many as were
      requested, or all. */
  lemma RequestsConserved(k: Consumer, n: nat)
    ensures var r := RunFlow(k, n);
            && r.values == Upto(r.c) && r.c <= n && r.c <= r.requested
            && (!r.upDone ==> r.c == if r.requested < n then r.requested else n)
  {
    StartConserves(k, n);
    var s := React(k, n, k.onStart, STARTED).(active := 0);
    DrainConserves(k, n, s);
    var r := Drain(k, n, s);
    assert Later(s, r) && Debt(r) == r.requested - r.c;
    assert Debt(s) == Debt(React(k, n, k.onStart, STARTED));
  }

  // --- The done signal ---

  /** An accepted demand is still deferred or has had its effect. */
  predicate Answered(n: nat, s: State) {
    && (s.upDone ==> s.downDone || Finish in s.pending)
    && (s.requested >= 1 && s.c == n ==> s.downDone || s.pending != [])
  }

  lemma {:induction false} ReactAnswers(k: Consumer, n: nat, ds: seq<Demand>, s: State)
    requires Valid(n, s) && s.active == s.depth + 1 && Answered(n, s)
    ensures Answered(n, React(k, n, ds, s))
    decreases |ds|
  {
    if ds != [] {
      AskAnswers(k, n, ds[0], s);
      ReactAnswers(k, n, ds[1..], Ask(k, n, ds[0], s));
    }
  }

  lemma AskAnswers(k: Consumer, n: nat, d: Demand, s: State)
    requires Valid(n, s) && s.active == s.depth + 1 && Answered(n, s)
    ensures Answered(n, Ask(k, n, d, s))
  {
    if !s.upDone && d.Request? && d.n >= 1 {
      var s' := s.(requested := s.requested + d.n);
      if s.depth + 1 <= T.MAX_DEPTH { UpDoneAnswered(k, n, Pull(d.n), s'.(depth := s.depth + 1)); }
    }
  }

  /** A cancellation made inside a task is answered when the task is over. */
  lemma {:induction false} UpDoneAnswered(k: Consumer, n: nat, w: Work, s: State)
    requires Valid(n, s) && s.active == s.depth
    requires w.Pull? ==> w.n >= 1 && s.requested >= 1
    requires w.Finish? ==> s.upDone
    requires s.upDone ==> s.downDone || Finish in s.pending
    ensures var r := DoWork(k, n, w, s); r.upDone ==> r.downDone || Finish in r.pending
    decreases n - s.c, 1
  {
    if w.Pull? {
      LoopUpDone(k, n, w.n, Enter(s));
    }
  }

  lemma {:induction false} LoopUpDone(k: Consumer, n: nat, remaining: int, s: State)
    requires Valid(n, s) && s.active == s.depth + 1 && s.requested >= 1
    requires s.upDone ==> s.downDone || Finish in s.pending
    ensures var r := Loop(k, n, remaining, s); r.upDone ==> r.downDone || Finish in r.pending
    decreases n - s.c, 0
  {
    if remaining > 0 && !s.stop && s.c < n {
      var s' := Deliver(s.c, s.(c := s.c + 1));
      var ds := if s.downDone then [] else k.onValue(s.c);
      ReactUpDone(k, n, ds, s');
      LoopUpDone(k, n, remaining - 1, React(k, n, ds, s'));
    }
  }

  lemma {:induction false} ReactUpDone(k: Consumer, n: nat, ds: seq<Demand>, s: State)
    requires Valid(n, s) && s.active == s.depth + 1
    requires s.upDone ==> s.downDone || Finish in s.pending
    ensures var r := React(k, n, ds, s); r.upDone ==> r.downDone || Finish in r.pending
    decreases n - s.c, 4, |ds|
  {
    if ds != [] {
      AskUpDone(k, n, ds[0], s);
      ReactUpDone(k, n, ds[1..], Ask(k, n, ds[0], s));
    }
  }

  lemma {:induction false} AskUpDone(k: Consumer, n: nat, d: Demand, s: State)
    requires Valid(n, s) && s.active == s.depth + 1
    requires s.upDone ==> s.downDone || Finish in s.pending
    ensures var r := Ask(k, n, d, s); r.upDone ==> r.downDone || Finish in r.pending
    decreases n - s.c, 3
  {
    if !s.upDone && d.Request? && d.n >= 1 {
      var s' := s.(requested := s.requested + d.n);
      if s.depth + 1 <= T.MAX_DEPTH {
        UpDoneAnswered(k, n, Pull(d.n), s'.(depth := s.depth + 1));
      } else {
        assert !Submit(k, n, Pull(d.n), s').upDone;
      }
    }
  }

  lemma {:induction false} DrainAnswers(k: Consumer, n: nat, s: State)
    requires Valid(n, s) && s.active == s.depth && Answered(n, s)
    ensures Answered(n, Drain(k, n, s))
    decreases n - s.c, 5, |s.pending|
  {
    if s.pending != [] {
      var w := s.pending[0];
      var s' := s.(pending := s.pending[1..]);
      if w.Pull? {
        assert s.upDone ==> s.downDone || Finish in s'.pending;
        UpDoneAnswered(k, n, w, s');
      }
      DrainAnswers(k, n, DoWork(k, n, w, s'));
    }
  }

  /** The consumer gets `done` at most once, and it gets it if and only if it cancelled, or made a
      positive request and the cursor is at the end. */
  lemma DoneExactly(k: Consumer, n: nat)
    ensures var r := RunFlow(k, n);
            r.dones == if r.upDone || (r.requested >= 1 && r.c == n) then 1 else 0
  {
    ReactAnswers(k, n, k.onStart, STARTED);
    DrainAnswers(k, n, React(k, n, k.onStart, STARTED).(active := 0));
  }

  /** Once the consumer has cancelled, no demand has any effect. */
  lemma {:induction false} CancelledIsDeaf(k: Consumer, n: nat, ds: seq<Demand>, s: State)
    requires Valid(n, s) && s.active == s.depth + 1 && s.upDone
    ensures React(k, n, ds, s) == s
    decreases |ds|
  {
    if ds != [] { CancelledIsDeaf(k, n, ds[1..], s); }
  }

  /** Whatever was deferred before a cancellation delivers nothing after it. */
  lemma {:induction false} CancelledDrain(k: Consumer, n: nat, s: State)
    requires Valid(n, s) && s.active == s.depth && s.upDone
    ensures Drain(k, n, s).values == s.values
    decreases n - s.c, |s.pending|
  {
    if s.pending != [] {
      CancelledDrain(k, n, DoWork(k, n, s.pending[0], s.(pending := s.pending[1..])));
    }
  }

  /** A cancellation is final: the flow delivers exactly the elements it had delivered when the consumer
      cancelled, answers with one `done`, and an uncancelled flow has never stopped. */
  lemma CancelIsFinal(k: Consumer, n: nat)
    ensures var r := RunFlow(k, n);
            && (r.upDone <==> r.cancelledAt.Some?) && r.stop == r.upDone
            && (r.upDone ==> r.values == Upto(r.cancelledAt.value) && r.dones == 1)
  {
    DoneExactly(k, n);
  }

  /** The stack is bounded for every consumer and every number of elements. */
  lemma FlowStackBounded(k: Consumer, n: nat)
    ensures RunFlow(k, n).peak <= 101
  {
    assert Valid(n, RunFlow(k, n));
  }

  // --- for_each ---

  /** `for_each` (include/pushmi/o/for_each.h): one request at the start and one after each value. */
  function ForEach(): Consumer {
    Consumer([Request(1)], (i: nat) => [Request(1)])
  }

  /** Only requests for one element are deferred. */
  predicate Singles(s: State) {
    forall w :: w in s.pending ==> w == Pull(1)
  }

  lemma ForEachReacts(n: nat, s: State)
    requires Valid(n, s) && s.active == s.depth + 1
    ensures React(ForEach(), n, [Request(1)], s) == Ask(ForEach(), n, Request(1), s)
  {
    assert [Request(1)][1..] == [];
  }

  lemma {:induction false} PullPays(n: nat, s: State)
    requires Valid(n, s) && s.active == s.depth && s.requested >= 1 && !s.upDone && Singles(s)
    ensures var r := DoWork(ForEach(), n, Pull(1), s);
            r.requested - s.requested == r.c - s.c && !r.upDone && Singles(r)
    decreases n - s.c, 0
  {
    var e := Enter(s);
    if s.c < n {
      var s' := Deliver(s.c, e.(c := s.c + 1));
      assert ForEach().onValue(s.c) == [Request(1)];
      RequestPays(n, s');
      ForEachReacts(n, s');
      var r := Ask(ForEach(), n, Request(1), s');
      assert Loop(ForEach(), n, 1, e) == Loop(ForEach(), n, 0, r) == r;
    } else {
      assert Loop(ForEach(), n, 1, e) == e;
    }
  }

  lemma {:induction false} RequestPays(n: nat, s: State)
    requires Valid(n, s) && s.active == s.depth + 1 && !s.upDone && Singles(s)
    ensures var r := Ask(ForEach(), n, Request(1), s);
            r.requested - s.requested == r.c - s.c + 1 && !r.upDone && Singles(r)
    decreases n - s.c, 1
  {
    if s.depth + 1 <= T.MAX_DEPTH {
      PullPays(n, s.(requested := s.requested + 1, depth := s.depth + 1));
    }
  }

  lemma {:induction false} DrainPays(n: nat, s: State)
    requires Valid(n, s) && s.active == s.depth && !s.upDone && s.requested >= 1 && Singles(s)
    ensures var r := Drain(ForEach(), n, s); r.requested - s.requested == r.c - s.c && !r.upDone
    decreases n - s.c, |s.pending|
  {
    if s.pending != [] {
      var s' := s.(pending := s.pending[1..]);
      assert s.pending[0] in s.pending && forall w :: w in s'.pending ==> w in s.pending;
      PullPays(n, s');
      DrainPays(n, DoWork(ForEach(), n, Pull(1), s'));
    }
  }

  /** `flow_from` over any number of elements piped to `for_each` delivers all of them in order and
      then exactly one `done`, with at most 101 active task bodies. */
  lemma ForEachDeliversAll(n: nat)
    ensures var r := RunFlow(ForEach(), n);
            r.values == Upto(n) && r.dones == 1 && r.requested == n + 1 && r.peak <= 101
  {
    RequestPays(n, STARTED);
    ForEachReacts(n, STARTED);
    DrainPays(n, React(ForEach(), n, [Request(1)], STARTED).(active := 0));
    RequestsConserved(ForEach(), n);
    DoneExactly(ForEach(), n);
    FlowStackBounded(ForEach(), n);
  }

  // --- How deep for_each recurses ---

  /** The deepest nesting of a request made at `s`: one level for each element left and one for the task
      that finds the end, up to the limit. */
  function Deepest(n: nat, s: State): int {
    if s.depth + n - s.c + 1 < T.MAX_DEPTH then s.depth + n - s.c + 1 else T.MAX_DEPTH
  }

  function Peak(n: nat, s: State): int {
    if s.peak < Deepest(n, s) + 1 then Deepest(n, s) + 1 else s.peak
  }

  lemma {:induction false} PullPeak(n: nat, s: State)
    requires Valid(n, s) && s.active == s.depth && s.requested >= 1 && !s.upDone && s.depth >= 1
    ensures var r := DoWork(ForEach(), n, Pull(1), s);
            && r.peak == Peak(n, s.(depth := s.depth - 1))
            && (s.depth + n - s.c <= T.MAX_DEPTH ==> r.pending == s.pending)
    decreases n - s.c, 0
  {
    var e := Enter(s);
    if s.c < n {
      var s' := Deliver(s.c, e.(c := s.c + 1));
      assert ForEach().onValue(s.c) == [Request(1)];
      RequestPeak(n, s');
      ForEachReacts(n, s');
      var r := Ask(ForEach(), n, Request(1), s');
      assert Loop(ForEach(), n, 1, e) == Loop(ForEach(), n, 0, r) == r;
    } else {
      assert Loop(ForEach(), n, 1, e) == e;
    }
  }

  lemma {:induction false} RequestPeak(n: nat, s: State)
    requires Valid(n, s) && s.active == s.depth + 1 && !s.upDone && s.peak >= s.active
    ensures var r := Ask(ForEach(), n, Request(1), s);
            && r.peak == Peak(n, s)
            && (s.depth + n - s.c + 1 <= T.MAX_DEPTH ==> r.pending == s.pending)
    decreases n - s.c, 1
  {
    if s.depth + 1 <= T.MAX_DEPTH {
      PullPeak(n, s.(requested := s.requested + 1, depth := s.depth + 1));
    }
  }

  lemma {:induction false} DrainPeakKept(n: nat, s: State)
    requires Valid(n, s) && s.active == s.depth && s.peak == T.MAX_DEPTH + 1
    ensures Drain(ForEach(), n, s).peak == T.MAX_DEPTH + 1
    decreases n - s.c, |s.pending|
  {
    if s.pending != [] {
      var s' := s.(pending := s.pending[1..]);
      DrainPeakKept(n, DoWork(ForEach(), n, s.pending[0], s'));
    }
  }

  /** for_each recurses one level for each element until the limit: N elements make N + 2 task bodies
      active at once, and never more than 101. */
  lemma ForEachPeak(n: nat)
    ensures RunFlow(ForEach(), n).peak == if n + 2 < 101 then n + 2 else 101
  {
    ForEachOpening(n, STARTED);
  }

  lemma ForEachOpening(n: nat, s: State)
    requires Valid(n, s) && s.active == 1 && s.depth == 0 && !s.upDone && s.peak == 1 && s.pending == [] && s.c == 0
    ensures Drain(ForEach(), n, React(ForEach(), n, [Request(1)], s).(active := 0)).peak
            == if n + 2 < 101 then n + 2 else 101
  {
    RequestPeak(n, s);
    ForEachReacts(n, s);
    var r := React(ForEach(), n, [Request(1)], s).(active := 0);
    if r.pending != [] { DrainPeakKept(n, r); }
  }
}
