/** What every run of the entangled pair guarantees. */
module EntangleTheorems {
  import opened Wrappers
  import opened Entangle
  import opened EntangleInvariant

  lemma {:induction false} RunInv(s: State, evs: seq<Event>)
    requires Inv(s) && Runnable(s, evs)
    ensures Inv(After(s, evs))
    decreases |evs|
  {
    if evs != [] {
      StepInv(s, evs[0].who, evs[0].act);
      RunInv(Next(s, evs[0].who, evs[0].act), evs[1..]);
    }
  }

  /** The object the thread operates on is an object of the pair. */
  predicate OnPair(s: State, i: Who) {
    Engaged(s.At(i))
  }

  /** The threads are never both between a successful `lockBoth` on the pair and the first store
      of `unlockBoth`. */
  lemma MutualExclusion(a: Addr, b: Addr, evs: seq<Event>)
    requires a != b && Runnable(Init(a, b), evs)
    ensures var s := After(Init(a, b), evs);
            !(OnPair(s, First) && Holding(s.first.pc) && OnPair(s, Second) && Holding(s.second.pc))
  {
    InitInv(a, b);
    RunInv(Init(a, b), evs);
  }

  /** A thread between a successful `lockBoth` on the pair and the first store of `unlockBoth` has
      the lock of its end and of the end's dual; before it rewrites pointers the dual points back. */
  lemma HolderHasBothLocks(a: Addr, b: Addr, evs: seq<Event>, i: Who)
    requires a != b && Runnable(Init(a, b), evs)
    requires OnPair(After(Init(a, b), evs), i) && Holding(After(Init(a, b), evs).At(i).pc)
    ensures var s := After(Init(a, b), evs);
            var e := s.At(i).end.value;
            && e in s.heap && s.heap[e].lock == LOCKED
            && (s.heap[e].dual.Some? ==>
                  && s.heap[e].dual.value in s.heap
                  && s.heap[s.heap[e].dual.value].lock == LOCKED)
    ensures var s := After(Init(a, b), evs);
            var t := s.At(i);
            t.pc.Held? || t.pc.VisitDual? || t.pc.Relink? || t.pc.SeverDual? ==>
              && t.end == Some(t.me)
              && (s.heap[t.me].dual.Some? ==> s.heap[s.heap[t.me].dual.value].dual == t.end)
    ensures var s := After(Init(a, b), evs);
            var t := s.At(i);
            t.pc.VisitDual? ==> s.heap[t.me].dual == Some(t.pc.d) && Some(t.pc.d) == s.At(Other(i)).end
  {
    InitInv(a, b);
    RunInv(Init(a, b), evs);
    var s := After(Init(a, b), evs);
    assert ViewOf(s, i).pc == s.At(i).pc;
  }

  /** Both locks are held for every write of a `dual`: when a thread is about to write the `dual` of an
      object, that object is locked, and so is the object its `dual` still points to. */
  lemma WritesUnderBothLocks(a: Addr, b: Addr, evs: seq<Event>, i: Who, x: Addr)
    requires a != b && Runnable(Init(a, b), evs)
    requires x in DualWrites(After(Init(a, b), evs), i)
    ensures var s := After(Init(a, b), evs);
            && x in s.heap && s.heap[x].lock == LOCKED
            && (s.heap[x].dual.Some? ==>
                  && s.heap[x].dual.value in s.heap
                  && s.heap[s.heap[x].dual.value].lock == LOCKED)
  {
    InitInv(a, b);
    RunInv(Init(a, b), evs);
    var s := After(Init(a, b), evs);
    var t := s.At(i);
    assert ViewOf(s, i).pc == t.pc;
    assert t.end != Some(t.me) ==> Private(s, i, t.me);
    assert t.pc.ClearOld? && t.end != Some(t.pc.n) ==> Private(s, i, t.pc.n);
  }

  /** The value 2 is only ever in the object with the lower address, while its owner still waits to
      take the lock over and the loser is back at the start of `tryLockBoth`. */
  lemma LossOnlyOnWinner(a: Addr, b: Addr, evs: seq<Event>, x: Addr)
    requires a != b && Runnable(Init(a, b), evs)
    requires x in After(Init(a, b), evs).heap && After(Init(a, b), evs).heap[x].lock == LOSS_ACKNOWLEDGED
    ensures var s := After(Init(a, b), evs);
            exists i :: && s.At(i).end == Some(x) && s.At(i).me == x && Racing(s.At(i).pc)
                        && s.heap[x].dual == s.At(Other(i)).end && s.heap[x].dual.Some? && x < s.heap[x].dual.value
                        && s.At(Other(i)).pc == TryLocal && Some(s.At(Other(i)).me) == s.At(Other(i)).end
  {
    InitInv(a, b);
    RunInv(Init(a, b), evs);
    var s := After(Init(a, b), evs);
    var i := if x in s.first.mine then First else Second;
    assert x in s.At(i).mine && (Some(x) != s.At(i).end ==> Private(s, i, x));
    assert ViewOf(s, i).lock == LOSS_ACKNOWLEDGED;
    assert s.At(i).end == Some(x) && s.At(i).me == x && Racing(s.At(i).pc);
  }

  /** No step of a run touches memory that holds no live object, and a thread only ever touches its
      own objects and the object that currently stands for the other side of the pair. */
  lemma MemorySafety(a: Addr, b: Addr, evs: seq<Event>, i: Who)
    requires a != b && Runnable(Init(a, b), evs)
    ensures var s := After(Init(a, b), evs);
            && !s.fault
            && Touches(s, i) <= s.heap.Keys
            && (forall x :: x in Touches(s, i) ==> x in s.At(i).mine || Some(x) == s.At(Other(i)).end)
  {
    InitInv(a, b);
    RunInv(Init(a, b), evs);
    var s := After(Init(a, b), evs);
    assert Ready(s, i);
    ReadyIsSafe(s, i);
    SafeTouches(s, i);
  }

  /** The thread is neither inside a critical section nor finishing a destruction. */
  predicate Quiet(t: Side) {
    !Holding(t.pc) && !(t.op == Destroy && (Releasing(t.pc) || t.pc.Ending?))
  }

  /** Outside critical sections the dual pointers of the live objects are mutual, and an end has a
      null dual exactly when the other side's end has been destroyed. */
  lemma PointersMutual(a: Addr, b: Addr, evs: seq<Event>)
    requires a != b && Runnable(Init(a, b), evs)
    requires Quiet(After(Init(a, b), evs).first) && Quiet(After(Init(a, b), evs).second)
    ensures var s := After(Init(a, b), evs);
            && (forall x :: x in s.heap && s.heap[x].dual.Some? ==>
                  s.heap[x].dual.value in s.heap && s.heap[s.heap[x].dual.value].dual == Some(x))
            && (forall i: Who :: s.At(i).end.Some? ==>
                  s.At(i).end.value in s.heap && s.heap[s.At(i).end.value].dual == s.At(Other(i)).end)
  {
    InitInv(a, b);
    RunInv(Init(a, b), evs);
    var s := After(Init(a, b), evs);
    var v, w := ViewOf(s, First), ViewOf(s, Second);
    assert Linked(v, w) || Detached(v, w);
    forall i: Who | s.At(i).end.Some?
      ensures s.At(i).end.value in s.heap && s.heap[s.At(i).end.value].dual == s.At(Other(i)).end
    {
      assert ViewOf(s, i).dual == ViewOf(s, Other(i)).end;
    }
    forall x | x in s.heap && s.heap[x].dual.Some?
      ensures s.heap[x].dual.value in s.heap && s.heap[s.heap[x].dual.value].dual == Some(x)
    {
      var i := if x in s.first.mine then First else Second;
      assert Some(x) != s.At(i).end ==> Private(s, i, x);
    }
  }

  // --- Plain fields: `dual` is not atomic, objects are freed by their owner ---

  /** The objects whose `dual` the next step may read: the code loads `dual` again before it uses the
      object there. */
  function DualReads(s: State, i: Who): set<Addr> {
    var t := s.At(i);
    match t.pc
    case TestDual | CompareAddr | Held | TestDualUnlock => {t.me}
    case CasDual(_) | AckLoss(_) | UnlockDual(_) => {t.me}
    case Relink(n) => {n}
    case _ => {}
  }

  /** The objects whose `dual` the next step may write. */
  function DualWrites(s: State, i: Who): set<Addr> {
    var t := s.At(i);
    match t.pc
    case Relink(n) => if n in s.heap && s.heap[n].dual.Some? then {s.heap[n].dual.value} else {}
    case ClearOld(n) => {t.me}
    case SeverDual(d) => {d}
    case _ => {}
  }

  function Frees(s: State, i: Who): set<Addr> {
    if s.At(i).pc.Ending? && s.At(i).op == Destroy then {s.At(i).me} else {}
  }

  /** There is no data race: a `dual` about to be written by one thread is not about to be read or
      written by the other, an object whose payload is used is not used by the other thread, and
      an object about to be freed is not about to be touched. */
  lemma NoDataRace(a: Addr, b: Addr, evs: seq<Event>, i: Who)
    requires a != b && Runnable(Init(a, b), evs)
    ensures var s := After(Init(a, b), evs);
            && DualWrites(s, i) !! DualReads(s, Other(i))
            && DualWrites(s, i) !! DualWrites(s, Other(i))
            && Frees(s, i) !! Touches(s, Other(i))
            && (s.At(i).pc.VisitDual? && s.At(Other(i)).pc.VisitDual? ==> Touches(s, i) !! Touches(s, Other(i)))
  {
    InitInv(a, b);
    RunInv(Init(a, b), evs);
    var s := After(Init(a, b), evs);
    RaceFree(s, i);
  }

  lemma RaceFree(s: State, i: Who)
    requires Inv(s)
    ensures DualWrites(s, i) !! DualReads(s, Other(i))
    ensures DualWrites(s, i) !! DualWrites(s, Other(i))
    ensures Frees(s, i) !! Touches(s, Other(i))
    ensures s.At(i).pc.VisitDual? && s.At(Other(i)).pc.VisitDual? ==> Touches(s, i) !! Touches(s, Other(i))
  {
  }

  // --- Progress ---

  /** The thread is inside `lockBoth`. */
  predicate Locking(pc: PC) {
    pc.TryLocal? || Racing(pc)
  }

  /** The thread's next step is a failed local compare-exchange or a spin read. */
  predicate Stuck(s: State, i: Who)
  {
    && s.At(i).pc != Idle && s.At(i).pc != Held
    && Touches(s, i) <= s.heap.Keys
    && RunStep(s, i) == s
  }

  lemma {:induction false} FreshAddress(h: set<Addr>) returns (n: Addr)
    ensures forall x :: x in h ==> x < n
  {
    if h == {} {
      n := 0;
    } else {
      var x :| x in h;
      var m := FreshAddress(h - {x});
      assert forall y :: y in h ==> y == x || y in h - {x};
      n := if x < m then m else x + 1;
    }
  }

  /** A step inside an operation that changes the state: not a failed compare-exchange and not a
      spin read. */
  predicate Advances(s: State, i: Who, act: Action) {
    Enabled(s, i, act) && !act.Begin? && Next(s, i, act) != s
  }

  /** A thread that is inside an operation and not stuck has a step that changes the state. */
  lemma EffectiveStep(s: State, i: Who) returns (act: Action)
    requires Inv(s) && s.At(i).pc != Idle && !Stuck(s, i)
    ensures Advances(s, i, act)
  {
    var t := s.At(i);
    assert Ready(s, i) by {
      assert t.end != Some(t.me) ==> Private(s, i, t.me);
    }
    ReadyIsSafe(s, i);
    SafeTouches(s, i);
    if t.pc == Held {
      match t.op {
        case Visit => act := Leave;
        case Destroy => act := Run;
        case Move => var n := FreshAddress(s.heap.Keys); act := Relocate(n);
      }
      assert Next(s, i, act).At(i).pc != Held;
    } else {
      act := Run;
    }
  }

  /** While some thread is trying to lock, some thread inside an operation can advance. */
  lemma DeadlockFreedom(a: Addr, b: Addr, evs: seq<Event>, i: Who)
    requires a != b && Runnable(Init(a, b), evs)
    requires Locking(After(Init(a, b), evs).At(i).pc)
    ensures exists k, act :: Advances(After(Init(a, b), evs), k, act)
  {
    InitInv(a, b);
    RunInv(Init(a, b), evs);
    SomeoneAdvances(After(Init(a, b), evs), i);
  }

  lemma SomeoneAdvances(s: State, i: Who)
    requires Inv(s) && Locking(s.At(i).pc)
    ensures exists k, act :: Advances(s, k, act)
  {
    if Stuck(s, i) {
      StuckMeansBusyPartner(s, i);
      var act := EffectiveStep(s, Other(i));
      assert Advances(s, Other(i), act);
    } else {
      var act := EffectiveStep(s, i);
      assert Advances(s, i, act);
    }
  }

  lemma StuckMeansBusyPartner(s: State, i: Who)
    requires Inv(s) && Locking(s.At(i).pc) && Stuck(s, i)
    ensures s.At(Other(i)).pc != Idle && !Stuck(s, Other(i))
  {
  }

  /** How many locking steps the thread can still do before somebody gets both locks. */
  function Budget(s: State, i: Who): nat {
    var t := s.At(i);
    match t.pc
    case TryLocal => if t.me in s.heap && s.heap[t.me].lock == UNLOCKED then 8 else 0
    case TestDual => 7
    case CasDual(_) => 6
    case CompareAddr => 5
    case SpinForLoss => 4
    case RetakeLocal => 3
    case AckLoss(_) => 4
    case _ => 0
  }

  lemma OwnBudgetUsed(s: State, i: Who)
    requires Ready(s, i) && Locking(s.At(i).pc) && !Stuck(s, i)
    ensures Next(s, i, Run).At(i).pc == Held || Budget(Next(s, i, Run), i) < Budget(s, i)
  {
    ReadyIsSafe(s, i);
    SafeTouches(s, i);
  }

  lemma OtherBudgetKept(s: State, i: Who)
    requires Safe(s, i) && Locking(s.At(i).pc)
    ensures Budget(Next(s, i, Run), Other(i)) <= Budget(s, Other(i))
  {
    SafeTouches(s, i);
  }

  /** A locking step that is not stuck either gets both locks or uses up the budget. */
  lemma LockingStepProgress(s: State, i: Who)
    requires Inv(s) && Locking(s.At(i).pc) && !Stuck(s, i)
    ensures var s' := Next(s, i, Run);
            s'.At(i).pc == Held
            || (Budget(s', i) < Budget(s, i) && Budget(s', Other(i)) <= Budget(s, Other(i)))
  {
    ProtocolSymmetric(ViewOf(s, First), ViewOf(s, Second));
    ReadyIsSafe(s, i);
    OwnBudgetUsed(s, i);
    OtherBudgetKept(s, i);
  }

  /** `evs` is a contention phase: locking steps only, none of them stuck, nobody gets in. */
  predicate Contention(s: State, evs: seq<Event>)
    requires Runnable(s, evs)
    decreases |evs|
  {
    evs != [] ==>
      && evs[0].act == Run
      && Locking(s.At(evs[0].who).pc) && !Stuck(s, evs[0].who)
      && Next(s, evs[0].who, Run).At(evs[0].who).pc != Held
      && Contention(Next(s, evs[0].who, Run), evs[1..])
  }

  lemma {:induction false} ContentionUsesBudget(s: State, evs: seq<Event>)
    requires Inv(s) && Runnable(s, evs) && Contention(s, evs)
    ensures |evs| <= Budget(s, First) + Budget(s, Second)
    decreases |evs|
  {
    if evs != [] {
      var i := evs[0].who;
      StepInv(s, i, Run);
      LockingStepProgress(s, i);
      ContentionUsesBudget(Next(s, i, Run), evs[1..]);
    }
  }

  /** There is no livelock: from any state of any run, two threads that fight for the locks settle
      the race within 16 effective steps. */
  lemma NoLivelock(a: Addr, b: Addr, before: seq<Event>, evs: seq<Event>)
    requires a != b && Runnable(Init(a, b), before)
    requires Runnable(After(Init(a, b), before), evs) && Contention(After(Init(a, b), before), evs)
    ensures |evs| <= 16
  {
    InitInv(a, b);
    RunInv(Init(a, b), before);
    ContentionUsesBudget(After(Init(a, b), before), evs);
  }
}
