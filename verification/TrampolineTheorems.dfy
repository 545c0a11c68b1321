/** What every submission to the trampoline guarantees, for every task tree. */
module TrampolineTheorems {
  import opened Trampoline

  // --- Every task exactly once ---

  /** All tasks of a tree, with multiplicity. */
  function Bag(t: Task): multiset<Task> {
    multiset{t} + BagAll(t.subs)
  }

  function BagAll(ts: seq<Task>): multiset<Task> {
    if ts == [] then multiset{} else Bag(ts[0]) + BagAll(ts[1..])
  }

  lemma {:induction false} BagAllSnoc(ts: seq<Task>, t: Task)
    ensures BagAll(ts + [t]) == BagAll(ts) + Bag(t)
  {
    if ts == [] {
      assert ts + [t] == [t];
    } else {
      BagAllSnoc(ts[1..], t);
      assert (ts + [t])[1..] == ts[1..] + [t];
    }
  }

  /** The tasks that have started and those that are deferred with everything below them. */
  function Known(s: State): multiset<Task> {
    multiset(s.log) + BagAll(s.pending)
  }

  lemma {:induction false} BodyKnown(t: Task, s: State)
    ensures Known(Body(t, s)) == Known(s) + Bag(t)
    decreases SizeAll(s.pending) + Size(t), 0
  {
    SubsKnown(t.subs, Enter(t, s));
  }

  lemma {:induction false} SubsKnown(subs: seq<Task>, s: State)
    ensures Known(Subs(subs, s)) == Known(s) + BagAll(subs)
    decreases SizeAll(s.pending) + SizeAll(subs), 3, |subs|
  {
    if subs != [] {
      var t := subs[0];
      if t.nest { NestKnown(t, s); } else { DelegateKnown(t, s); }
      SubsKnown(subs[1..], if t.nest then Nest(t, s) else Delegate(t, s));
    }
  }

  lemma {:induction false} DelegateKnown(t: Task, s: State)
    ensures Known(Delegate(t, s)) == Known(s) + Bag(t)
    decreases SizeAll(s.pending) + Size(t), 2
  {
    if s.depth + 1 > MAX_DEPTH { BagAllSnoc(s.pending, t); } else { BodyKnown(t, s.(depth := s.depth + 1)); }
  }

  lemma {:induction false} NestKnown(t: Task, s: State)
    ensures Known(Nest(t, s)) == Known(s) + Bag(t)
    decreases SizeAll(s.pending) + Size(t), 2
  {
    if s.pending == [] {
      BodyKnown(t, s);
      DrainKnown(Body(t, s));
    } else {
      BagAllSnoc(s.pending, t);
      DrainKnown(Defer(t, s));
    }
  }

  lemma {:induction false} DrainKnown(s: State)
    ensures Known(Drain(s)) == Known(s)
    decreases SizeAll(s.pending), 1
  {
    if s.pending != [] {
      var s' := s.(pending := s.pending[1..]);
      BodyKnown(s.pending[0], s');
      DrainKnown(Body(s.pending[0], s'));
    }
  }

  lemma OutermostRuns(t: Task)
    ensures Outermost(t) == Nest(t, OWNED).(owned := false)
    ensures Nest(t, OWNED) == Drain(Body(t, OWNED))
  {
    assert OWNED == IDLE.(owned := true, depth := 0, pending := []);
  }

  /** The outermost submission starts every task of the tree exactly once, leaves no deferred work,
      restores the depth, gives the thread back, and no terminate guard fires. */
  lemma ExactlyOnce(t: Task)
    ensures var r := Outermost(t);
            && multiset(r.log) == Bag(t)
            && r.pending == [] && r.depth == 0 && !r.owned && !r.terminated && r.active == 0
  {
    OutermostRuns(t);
    NestKnown(t, OWNED);
    assert Known(OWNED) == multiset{};
    assert Known(Nest(t, OWNED)) == multiset(Nest(t, OWNED).log);
  }

  /** Taking over a thread has nothing to do with what the thread ran before: whatever its state was, the new
      submission runs its own tasks, each once, and leaves the thread free and clean. */
  lemma TakeoverRuns(t: Task, s: State)
    ensures var r := Takeover(t, s);
            && multiset(r.log) == multiset(s.log) + Bag(t)
            && r.pending == [] && r.depth == 0 && !r.owned && r.active == s.active && r.terminated == s.terminated
  {
    var m := s.(owned := true, depth := 0, pending := []);
    NestKnown(t, m);
    assert Known(m) == multiset(s.log);
    assert Known(Nest(t, m)) == multiset(Nest(t, m).log);
  }

  // --- Order ---

  /** `x` is in the list somewhere before `y`. */
  predicate Before(list: seq<Task>, x: Task, y: Task) {
    exists i, j :: 0 <= i < j < |list| && list[i] == x && list[j] == y
  }

  /** What has started, followed by what will be taken from the pending queue. */
  function Timeline(s: State): seq<Task> {
    s.log + s.pending
  }

  lemma BeforeInsert(a: seq<Task>, z: seq<Task>, b: seq<Task>, x: Task, y: Task)
    requires Before(a + b, x, y)
    ensures Before(a + z + b, x, y)
  {
    var i, j :| 0 <= i < j < |a + b| && (a + b)[i] == x && (a + b)[j] == y;
    var i' := if i < |a| then i else i + |z|;
    var j' := if j < |a| then j else j + |z|;
    assert (a + z + b)[i'] == x && (a + z + b)[j'] == y;
  }

  /** From `s` to `r` work has only been added: starts stay, and so do all orders. */
  ghost predicate Extends(s: State, r: State) {
    && s.log <= r.log
    && (forall x :: x in Timeline(s) ==> x in Timeline(r))
    && (forall x, y :: Before(Timeline(s), x, y) ==> Before(Timeline(r), x, y))
  }

  lemma EnterExtends(t: Task, s: State)
    ensures Extends(s, Enter(t, s))
  {
    var r := Enter(t, s);
    assert Timeline(r) == s.log + [t] + s.pending;
    forall x, y | Before(Timeline(s), x, y) ensures Before(Timeline(r), x, y) {
      BeforeInsert(s.log, [t], s.pending, x, y);
    }
  }

  lemma DeferExtends(t: Task, s: State)
    ensures Extends(s, Defer(t, s))
    ensures forall x :: x in Timeline(s) ==> Before(Timeline(Defer(t, s)), x, t)
  {
    var r := Defer(t, s);
    var line := Timeline(s);
    assert Timeline(r) == line + [t] + [];
    forall x, y | Before(line, x, y) ensures Before(Timeline(r), x, y) {
      assert line + [] == line;
      BeforeInsert(line, [t], [], x, y);
    }
    forall x | x in line ensures Before(Timeline(r), x, t) {
      var i :| 0 <= i < |line| && line[i] == x;
      assert Timeline(r)[i] == x && Timeline(r)[|line|] == t;
    }
  }

  lemma {:induction false} BodyExtends(t: Task, s: State)
    ensures Extends(Enter(t, s), Body(t, s)) && Extends(s, Body(t, s)) && t in Body(t, s).log
    decreases SizeAll(s.pending) + Size(t), 0
  {
    EnterExtends(t, s);
    SubsExtends(t.subs, Enter(t, s));
    assert Enter(t, s).log[|s.log|] == t;
  }

  lemma {:induction false} SubsExtends(subs: seq<Task>, s: State)
    ensures Extends(s, Subs(subs, s))
    decreases SizeAll(s.pending) + SizeAll(subs), 3, |subs|
  {
    if subs != [] {
      var t := subs[0];
      if t.nest { NestExtends(t, s); } else { DelegateExtends(t, s); }
      SubsExtends(subs[1..], if t.nest then Nest(t, s) else Delegate(t, s));
    }
  }

  lemma {:induction false} DelegateExtends(t: Task, s: State)
    ensures Extends(s, Delegate(t, s)) && t in Timeline(Delegate(t, s))
    ensures s.depth < MAX_DEPTH ==> t in Delegate(t, s).log
    decreases SizeAll(s.pending) + Size(t), 2
  {
    if s.depth + 1 > MAX_DEPTH {
      DeferExtends(t, s);
      assert Defer(t, s).pending[|s.pending|] == t;
    } else {
      var s' := s.(depth := s.depth + 1);
      BodyExtends(t, s');
      assert Timeline(s') == Timeline(s) && Timeline(Delegate(t, s)) == Timeline(Body(t, s'));
    }
  }

  lemma {:induction false} NestExtends(t: Task, s: State)
    ensures Extends(s, Nest(t, s)) && t in Nest(t, s).log
    decreases SizeAll(s.pending) + Size(t), 2
  {
    if s.pending == [] {
      BodyExtends(t, s);
      DrainExtends(Body(t, s));
    } else {
      DeferExtends(t, s);
      assert Defer(t, s).pending[|s.pending|] == t;
      DrainExtends(Defer(t, s));
    }
  }

  lemma {:induction false} DrainExtends(s: State)
    ensures Extends(s, Drain(s))
    ensures forall x :: x in Timeline(s) ==> x in Drain(s).log
    decreases SizeAll(s.pending), 1
  {
    if s.pending != [] {
      var t := s.pending[0];
      var s' := s.(pending := s.pending[1..]);
      BodyExtends(t, s');
      DrainExtends(Body(t, s'));
      assert Timeline(Enter(t, s')) == Timeline(s);
    } else {
      assert Timeline(s) == s.log;
    }
  }

  /** The children of `n` are ordered on the timeline as `n` submits them. */
  ghost predicate SubsOrdered(s: State, n: Task) {
    forall i, j :: 0 <= i < j < |n.subs| ==> Before(Timeline(s), n.subs[i], n.subs[j])
  }

  /** Every task that starts between `s` and `r` has its children in order. */
  ghost predicate NewOrdered(s: State, r: State) {
    forall n :: n in r.log && n !in s.log ==> SubsOrdered(r, n)
  }

  lemma NewOrderedTrans(s: State, m: State, r: State)
    requires NewOrdered(s, m) && NewOrdered(m, r) && Extends(m, r)
    ensures NewOrdered(s, r)
  {
    forall n | n in r.log && n !in s.log ensures SubsOrdered(r, n) {
      if n in m.log { assert SubsOrdered(m, n); }
    }
  }

  /** The children submitted so far are on the timeline; below the depth limit they have started. */
  ghost predicate Submitted(s: State, earlier: seq<Task>) {
    forall x :: x in earlier ==> x in Timeline(s) && (s.depth < MAX_DEPTH ==> x in s.log)
  }

  lemma {:induction false} BodyOrder(t: Task, s: State)
    requires s.depth <= MAX_DEPTH
    ensures NewOrdered(s, Body(t, s))
    decreases SizeAll(s.pending) + Size(t), 0
  {
    SubsOrder(t, 0, Enter(t, s));
    assert t.subs[0..] == t.subs;
    var r := Body(t, s);
    forall n | n in r.log && n !in s.log ensures SubsOrdered(r, n) {
      if n != t { assert n !in Enter(t, s).log; }
    }
  }

  /** `n` has submitted its first `k` children and submits the rest. */
  lemma {:induction false} SubsOrder(n: Task, k: nat, s: State)
    requires k <= |n.subs| && s.depth <= MAX_DEPTH
    requires Submitted(s, n.subs[..k])
    requires forall i, j :: 0 <= i < j < k ==> Before(Timeline(s), n.subs[i], n.subs[j])
    ensures var r := Subs(n.subs[k..], s); NewOrdered(s, r) && SubsOrdered(r, n)
    decreases SizeAll(s.pending) + SizeAll(n.subs[k..]), 3, |n.subs| - k
  {
    if k < |n.subs| {
      var t := n.subs[k];
      var m := if t.nest then Nest(t, s) else Delegate(t, s);
      assert n.subs[k..][0] == t && n.subs[k..][1..] == n.subs[k + 1..];
      if t.nest { NestOrder(t, s, n.subs[..k]); } else { DelegateOrder(t, s, n.subs[..k]); }
      forall i, j | 0 <= i < j < k + 1 ensures Before(Timeline(m), n.subs[i], n.subs[j]) {
        if j == k { assert n.subs[i] in n.subs[..k]; }
      }
      assert n.subs[..k + 1] == n.subs[..k] + [t];
      SubsOrder(n, k + 1, m);
      SubsExtends(n.subs[k + 1..], m);
      NewOrderedTrans(s, m, Subs(n.subs[k..], s));
    } else {
      assert n.subs[k..] == [];
    }
  }

  lemma {:induction false} DelegateOrder(t: Task, s: State, earlier: seq<Task>)
    requires s.depth <= MAX_DEPTH && Submitted(s, earlier)
    ensures var r := Delegate(t, s);
            NewOrdered(s, r) && Extends(s, r) && Submitted(r, earlier + [t])
            && forall x :: x in earlier ==> Before(Timeline(r), x, t)
    decreases SizeAll(s.pending) + Size(t), 2
  {
    DelegateExtends(t, s);
    if s.depth + 1 > MAX_DEPTH {
      DeferExtends(t, s);
    } else {
      var s' := s.(depth := s.depth + 1);
      BodyOrder(t, s');
      BodyExtends(t, s');
      StartsAfter(t, s', earlier);
    }
  }

  /** A task that starts right away starts after everything that has started. */
  lemma StartsAfter(t: Task, s: State, earlier: seq<Task>)
    requires forall x :: x in earlier ==> x in s.log
    ensures forall x :: x in earlier ==> Before(Timeline(Enter(t, s)), x, t)
  {
    forall x | x in earlier ensures Before(Timeline(Enter(t, s)), x, t) {
      var i :| 0 <= i < |s.log| && s.log[i] == x;
      assert Timeline(Enter(t, s))[i] == x && Timeline(Enter(t, s))[|s.log|] == t;
    }
  }

  lemma {:induction false} NestOrder(t: Task, s: State, earlier: seq<Task>)
    requires s.depth <= MAX_DEPTH && Submitted(s, earlier)
    ensures var r := Nest(t, s);
            NewOrdered(s, r) && Extends(s, r) && Submitted(r, earlier + [t])
            && forall x :: x in earlier ==> Before(Timeline(r), x, t)
    decreases SizeAll(s.pending) + Size(t), 2
  {
    NestExtends(t, s);
    var m := if s.pending == [] then Body(t, s) else Defer(t, s);
    if s.pending == [] {
      assert Timeline(s) == s.log;
      BodyOrder(t, s);
      BodyExtends(t, s);
      StartsAfter(t, s, earlier);
    } else {
      DeferExtends(t, s);
    }
    DrainOrder(m);
    DrainExtends(m);
    NewOrderedTrans(s, m, Drain(m));
  }

  lemma {:induction false} DrainOrder(s: State)
    requires s.depth <= MAX_DEPTH
    ensures NewOrdered(s, Drain(s))
    decreases SizeAll(s.pending), 1
  {
    if s.pending != [] {
      var s' := s.(pending := s.pending[1..]);
      var m := Body(s.pending[0], s');
      BodyOrder(s.pending[0], s');
      DrainOrder(m);
      DrainExtends(m);
      NewOrderedTrans(s, m, Drain(s));
    }
  }

  /** The children of every task start in the order in which the task submits them, however the two
      executors are mixed and whatever is deferred. */
  lemma SiblingsInOrder(t: Task, n: Task, i: nat, j: nat)
    requires n in Bag(t) && i < j < |n.subs|
    ensures Before(Outermost(t).log, n.subs[i], n.subs[j])
  {
    var s := OWNED;
    OutermostRuns(t);
    ExactlyOnce(t);
    assert n in multiset(Outermost(t).log);
    NestOrder(t, s, []);
    assert SubsOrdered(Nest(t, s), n);
    assert Timeline(Nest(t, s)) == Nest(t, s).log;
  }

  /** A nested submission on an owned thread returns after its own task and everything that was
      deferred has started, with the pending queue empty and the depth unchanged. */
  lemma NestWaits(t: Task, s: State)
    ensures var r := Nest(t, s);
            && t in r.log && r.pending == [] && r.depth == s.depth
            && (forall x :: x in s.pending ==> x in r.log)
            && multiset(r.log) == multiset(s.log) + BagAll(s.pending) + Bag(t)
  {
    NestExtends(t, s);
    NestKnown(t, s);
    assert Timeline(Nest(t, s)) == Nest(t, s).log;
  }

  // --- Stack depth ---

  /** The nester submissions below a task. */
  function Nests(t: Task): nat {
    NestsAll(t.subs)
  }

  function NestsAll(ts: seq<Task>): nat {
    if ts == [] then 0 else (if ts[0].nest then 1 else 0) + Nests(ts[0]) + NestsAll(ts[1..])
  }

  /** The nester submissions below deferred tasks; how a deferred task was itself submitted is over. */
  function NestsBelow(ts: seq<Task>): nat {
    if ts == [] then 0 else Nests(ts[0]) + NestsBelow(ts[1..])
  }

  lemma {:induction false} NestsBelowSnoc(ts: seq<Task>, t: Task)
    ensures NestsBelow(ts + [t]) == NestsBelow(ts) + Nests(t)
  {
    if ts == [] {
      assert ts + [t] == [t];
    } else {
      NestsBelowSnoc(ts[1..], t);
      assert (ts + [t])[1..] == ts[1..] + [t];
    }
  }

  /** From `s` to `r`, with `more` nester submissions or bodies to come, the active bodies stay within the
      delegation limit plus those that are not due to delegation. */
  predicate Bounded(s: State, r: State, more: nat) {
    r.peak <= s.peak || r.peak <= MAX_DEPTH + s.active - s.depth + NestsBelow(s.pending) + more
  }

  lemma {:induction false} BodyPeak(t: Task, s: State)
    requires s.depth <= MAX_DEPTH
    ensures NestsBelow(Body(t, s).pending) <= NestsBelow(s.pending) + Nests(t)
    ensures Bounded(s, Body(t, s), 1 + Nests(t))
    decreases SizeAll(s.pending) + Size(t), 0
  {
    SubsPeak(t.subs, Enter(t, s));
  }

  lemma {:induction false} SubsPeak(subs: seq<Task>, s: State)
    requires s.depth <= MAX_DEPTH
    ensures NestsBelow(Subs(subs, s).pending) <= NestsBelow(s.pending) + NestsAll(subs)
    ensures Bounded(s, Subs(subs, s), NestsAll(subs))
    decreases SizeAll(s.pending) + SizeAll(subs), 3, |subs|
  {
    if subs != [] {
      var t := subs[0];
      if t.nest { NestPeak(t, s); } else { DelegatePeak(t, s); }
      SubsPeak(subs[1..], if t.nest then Nest(t, s) else Delegate(t, s));
    }
  }

  lemma {:induction false} DelegatePeak(t: Task, s: State)
    requires s.depth <= MAX_DEPTH
    ensures NestsBelow(Delegate(t, s).pending) <= NestsBelow(s.pending) + Nests(t)
    ensures Bounded(s, Delegate(t, s), Nests(t))
    decreases SizeAll(s.pending) + Size(t), 2
  {
    if s.depth + 1 > MAX_DEPTH {
      NestsBelowSnoc(s.pending, t);
    } else {
      BodyPeak(t, s.(depth := s.depth + 1));
    }
  }

  lemma {:induction false} NestPeak(t: Task, s: State)
    requires s.depth <= MAX_DEPTH
    ensures Bounded(s, Nest(t, s), 1 + Nests(t))
    decreases SizeAll(s.pending) + Size(t), 2
  {
    if s.pending == [] {
      BodyPeak(t, s);
      DrainPeak(Body(t, s));
    } else {
      NestsBelowSnoc(s.pending, t);
      DrainPeak(Defer(t, s));
    }
  }

  lemma {:induction false} DrainPeak(s: State)
    requires s.depth <= MAX_DEPTH
    ensures Bounded(s, Drain(s), 1)
    decreases SizeAll(s.pending), 1
  {
    if s.pending != [] {
      var s' := s.(pending := s.pending[1..]);
      BodyPeak(s.pending[0], s');
      DrainPeak(Body(s.pending[0], s'));
    }
  }

  /** In any tree at most 101 task bodies are active at once plus one for each nester submission; so with the
      delegator alone at most 101. */
  lemma StackBounded(t: Task)
    ensures Outermost(t).peak <= 101 + Nests(t)
  {
    OutermostRuns(t);
    NestPeak(t, OWNED);
  }

  // --- Deferral ---

  /** The most delegations on a path below the root. */
  function Height(t: Task): nat {
    HeightAll(t.subs)
  }

  function HeightAll(ts: seq<Task>): nat {
    if ts == [] then 0
    else
      var first := Height(ts[0]) + if ts[0].nest then 0 else 1;
      if first > HeightAll(ts[1..]) then first else HeightAll(ts[1..])
  }

  /** The number of levels below the root. */
  function Levels(t: Task): nat {
    LevelsAll(t.subs)
  }

  function LevelsAll(ts: seq<Task>): nat {
    if ts == [] then 0
    else if 1 + Levels(ts[0]) > LevelsAll(ts[1..]) then 1 + Levels(ts[0]) else LevelsAll(ts[1..])
  }

  function Preorder(t: Task): seq<Task> {
    [t] + PreorderAll(t.subs)
  }

  function PreorderAll(ts: seq<Task>): seq<Task> {
    if ts == [] then [] else Preorder(ts[0]) + PreorderAll(ts[1..])
  }

  function Max(a: int, b: int): int {
    if a > b then a else b
  }

  /** From `s` to `r` the tasks `ts` started, in that order, up to `top` bodies deep, and nothing was
      deferred. */
  predicate Straight(s: State, r: State, ts: seq<Task>, top: nat) {
    r.log == s.log + ts && r.pending == [] && r.deferrals == s.deferrals && r.peak == Max(s.peak, s.active + top)
  }

  lemma StraightThen(s: State, m: State, r: State, ts: seq<Task>, us: seq<Task>, top: nat, next: nat)
    requires Straight(s, m, ts, top) && Straight(m, r, us, next) && m.active == s.active
    ensures Straight(s, r, ts + us, Max(top, next))
  {
  }

  lemma {:induction false} BodyShallow(t: Task, s: State)
    requires s.pending == [] && s.depth + Height(t) <= MAX_DEPTH
    ensures Straight(s, Body(t, s), Preorder(t), 1 + Levels(t))
    decreases SizeAll(s.pending) + Size(t), 0
  {
    SubsShallow(t.subs, Enter(t, s));
  }

  lemma {:induction false} SubsShallow(subs: seq<Task>, s: State)
    requires s.pending == [] && s.depth + HeightAll(subs) <= MAX_DEPTH && s.peak >= s.active
    ensures Straight(s, Subs(subs, s), PreorderAll(subs), LevelsAll(subs))
    decreases SizeAll(s.pending) + SizeAll(subs), 3, |subs|
  {
    if subs != [] {
      var t := subs[0];
      var m := if t.nest then Nest(t, s) else Delegate(t, s);
      SubShallow(t, s);
      SubsShallow(subs[1..], m);
      StraightThen(s, m, Subs(subs, s), Preorder(t), PreorderAll(subs[1..]), 1 + Levels(t), LevelsAll(subs[1..]));
    }
  }

  lemma {:induction false} SubShallow(t: Task, s: State)
    requires s.pending == [] && s.depth + Height(t) + (if t.nest then 0 else 1) <= MAX_DEPTH
    ensures Straight(s, if t.nest then Nest(t, s) else Delegate(t, s), Preorder(t), 1 + Levels(t))
    decreases SizeAll(s.pending) + Size(t), 2
  {
    if t.nest {
      BodyShallow(t, s);
      assert Nest(t, s) == Drain(Body(t, s)) == Body(t, s);
    } else {
      BodyShallow(t, s.(depth := s.depth + 1));
    }
  }

  lemma {:induction false} BodyDefers(t: Task, s: State)
    requires s.depth <= MAX_DEPTH
    ensures Body(t, s).deferrals >= s.deferrals
    ensures s.depth + Height(t) > MAX_DEPTH ==> Body(t, s).deferrals > s.deferrals
    decreases SizeAll(s.pending) + Size(t), 0
  {
    SubsDefers(t.subs, Enter(t, s));
  }

  lemma {:induction false} SubsDefers(subs: seq<Task>, s: State)
    requires s.depth <= MAX_DEPTH
    ensures Subs(subs, s).deferrals >= s.deferrals
    ensures s.depth + HeightAll(subs) > MAX_DEPTH ==> Subs(subs, s).deferrals > s.deferrals
    decreases SizeAll(s.pending) + SizeAll(subs), 3, |subs|
  {
    if subs != [] {
      if subs[0].nest {
        NestDefers(subs[0], s);
        SubsDefers(subs[1..], Nest(subs[0], s));
      } else {
        if s.depth + 1 <= MAX_DEPTH { BodyDefers(subs[0], s.(depth := s.depth + 1)); }
        SubsDefers(subs[1..], Delegate(subs[0], s));
      }
    }
  }

  lemma {:induction false} NestDefers(t: Task, s: State)
    requires s.depth <= MAX_DEPTH
    ensures Nest(t, s).deferrals >= s.deferrals
    ensures s.depth + Height(t) > MAX_DEPTH ==> Nest(t, s).deferrals > s.deferrals
    decreases SizeAll(s.pending) + Size(t), 2
  {
    if s.pending == [] {
      BodyDefers(t, s);
      DrainDefers(Body(t, s));
    } else {
      DrainDefers(Defer(t, s));
    }
  }

  lemma {:induction false} DrainDefers(s: State)
    requires s.depth <= MAX_DEPTH
    ensures Drain(s).deferrals >= s.deferrals
    decreases SizeAll(s.pending), 1
  {
    if s.pending != [] {
      var s' := s.(pending := s.pending[1..]);
      BodyDefers(s.pending[0], s');
      DrainDefers(Body(s.pending[0], s'));
    }
  }

  /** Nothing has been deferred before the stack was full. */
  predicate FullBeforeDeferral(s: State) {
    s.peak >= s.active && (s.pending != [] || s.deferrals > 0 ==> s.peak >= MAX_DEPTH + 1)
  }

  lemma {:induction false} BodyFull(t: Task, s: State)
    requires FullBeforeDeferral(s) && s.active >= s.depth && s.depth <= MAX_DEPTH
    ensures FullBeforeDeferral(Body(t, s))
    decreases SizeAll(s.pending) + Size(t), 0
  {
    SubsFull(t.subs, Enter(t, s));
  }

  lemma {:induction false} SubsFull(subs: seq<Task>, s: State)
    requires FullBeforeDeferral(s) && s.active >= s.depth + 1 && s.depth <= MAX_DEPTH
    ensures FullBeforeDeferral(Subs(subs, s))
    decreases SizeAll(s.pending) + SizeAll(subs), 3, |subs|
  {
    if subs != [] {
      if subs[0].nest {
        NestFull(subs[0], s);
        SubsFull(subs[1..], Nest(subs[0], s));
      } else {
        if s.depth + 1 <= MAX_DEPTH { BodyFull(subs[0], s.(depth := s.depth + 1)); }
        SubsFull(subs[1..], Delegate(subs[0], s));
      }
    }
  }

  lemma {:induction false} NestFull(t: Task, s: State)
    requires FullBeforeDeferral(s) && s.active >= s.depth && s.depth <= MAX_DEPTH
    ensures FullBeforeDeferral(Nest(t, s))
    decreases SizeAll(s.pending) + Size(t), 2
  {
    if s.pending == [] {
      BodyFull(t, s);
      DrainFull(Body(t, s));
    } else {
      DrainFull(Defer(t, s));
    }
  }

  lemma {:induction false} DrainFull(s: State)
    requires FullBeforeDeferral(s) && s.active >= s.depth && s.depth <= MAX_DEPTH
    ensures FullBeforeDeferral(Drain(s))
    decreases SizeAll(s.pending), 1
  {
    if s.pending != [] {
      var s' := s.(pending := s.pending[1..]);
      BodyFull(s.pending[0], s');
      DrainFull(Body(s.pending[0], s'));
    }
  }

  /** Work is deferred only when 101 bodies are active, so a tree that defers has used the whole stack, and
      with the delegator alone exactly that. */
  lemma DeferralFillsStack(t: Task)
    ensures Height(t) > 100 ==> 101 <= Outermost(t).peak <= 101 + Nests(t)
  {
    StackBounded(t);
    ShallowTreesRunInPreorder(t);
    OutermostRuns(t);
    NestFull(t, OWNED);
  }

  /** The pending queue is never used if and only if no path of the tree has more than 100 delegations, and
      then the tasks start in preorder, one body nested in the other for each level of the tree. */
  lemma ShallowTreesRunInPreorder(t: Task)
    ensures Outermost(t).deferrals == 0 <==> Height(t) <= 100
    ensures Height(t) <= 100 ==> Outermost(t).log == Preorder(t) && Outermost(t).peak == 1 + Levels(t)
  {
    OutermostRuns(t);
    if Height(t) <= 100 {
      BodyShallow(t, OWNED);
      assert Drain(Body(t, OWNED)) == Body(t, OWNED);
    } else {
      NestDefers(t, OWNED);
    }
  }
}
