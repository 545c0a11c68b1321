/** The pair in place: the objects' words and the threads' program counters are fields, and each
    method performs one shared access of the operation it is named after, proved against the step of
    module Entangle. */
module EntangleObject {
  import opened Wrappers
  import opened Entangle

  class Pair {
    var heap: map<Addr, Cell>
    var first: Side
    var second: Side
    var fault: bool

    ghost function Model(): State
      reads this
    {
      State(heap, first, second, fault)
    }

    function At(i: Who): Side
      reads this
    {
      if i == First then first else second
    }

    /** `entangle` */
    constructor (a: Addr, b: Addr)
      ensures Model() == Init(a, b)
    {
      heap := map[a := Cell(UNLOCKED, Some(b)), b := Cell(UNLOCKED, Some(a))];
      first, second := Side({a}, Idle, Visit, a, Some(a)), Side({b}, Idle, Visit, b, Some(b));
      fault := false;
    }

    method Put(i: Who, side: Side)
      modifies `first, `second
      ensures Model() == old(Model()).With(i, side)
    {
      if i == First { first := side; } else { second := side; }
    }

    method GoTo(i: Who, pc: PC)
      modifies `first, `second
      ensures Model() == old(Model()).With(i, old(At(i)).(pc := pc))
    {
      Put(i, At(i).(pc := pc));
    }

    /** `compare_exchange_strong` from unlocked to locked. */
    method CompareExchange(x: Addr) returns (ok: bool)
      requires x in heap
      modifies `heap
      ensures ok == (old(heap)[x].lock == UNLOCKED)
      ensures heap == if ok then SetLock(old(heap), x, LOCKED) else old(heap)
    {
      ok := heap[x].lock == UNLOCKED;
      if ok { heap := heap[x := heap[x].(lock := LOCKED)]; }
    }

    method Store(x: Addr, v: int)
      requires x in heap
      modifies `heap
      ensures heap == SetLock(old(heap), x, v)
    {
      heap := heap[x := heap[x].(lock := v)];
    }

    method StoreDual(x: Addr, v: Option<Addr>)
      requires x in heap
      modifies `heap
      ensures heap == SetDual(old(heap), x, v)
    {
      heap := heap[x := heap[x].(dual := v)];
    }

    predicate CanRun(i: Who)
      reads this
    {
      At(i).pc != Idle && Touches(State(heap, first, second, fault), i) <= heap.Keys
    }

    /** `tryLockBoth`, called in the loop of `lockBoth`. */
    method TryLockBothStep(i: Who)
      requires CanRun(i)
      requires var pc := At(i).pc; pc.TryLocal? || pc.TestDual? || pc.CasDual? || pc.CompareAddr? || pc.SpinForLoss?
                                   || pc.RetakeLocal? || pc.AckLoss?
      modifies this
      ensures Model() == RunStep(old(Model()), i)
    {
      var me := At(i).me;
      match At(i).pc {
        case TryLocal =>
          var ok := CompareExchange(me);
          if ok { GoTo(i, TestDual); }
        case TestDual =>
          GoTo(i, if heap[me].dual.None? then Held else CasDual(heap[me].dual.value));
        case CasDual(d) =>
          var ok := CompareExchange(d);
          GoTo(i, if ok then Held else CompareAddr);
        case CompareAddr =>
          if heap[me].dual.None? { fault := true; return; }
          var d := heap[me].dual.value;
          GoTo(i, if me < d then SpinForLoss else AckLoss(d));
        case SpinForLoss =>
          if heap[me].lock == LOSS_ACKNOWLEDGED { GoTo(i, RetakeLocal); }
        case RetakeLocal =>
          Store(me, LOCKED);
          GoTo(i, Held);
        case AckLoss(d) =>
          Store(d, LOSS_ACKNOWLEDGED);
          GoTo(i, TryLocal);
      }
    }

    /** `unlockBoth` and the end of the operation. */
    method UnlockBothStep(i: Who)
      requires CanRun(i)
      requires var pc := At(i).pc; pc.UnlockLocal? || pc.TestDualUnlock? || pc.UnlockDual? || pc.Ending?
      modifies this
      ensures Model() == RunStep(old(Model()), i)
    {
      var t := At(i);
      match t.pc {
        case UnlockLocal =>
          Store(t.me, UNLOCKED);
          GoTo(i, TestDualUnlock);
        case TestDualUnlock =>
          GoTo(i, if heap[t.me].dual.None? then Ending else UnlockDual(heap[t.me].dual.value));
        case UnlockDual(d) =>
          Store(d, UNLOCKED);
          GoTo(i, Ending);
        case Ending =>
          if t.op == Destroy {
            heap := heap - {t.me};
            Put(i, t.(pc := Idle, mine := t.mine - {t.me}, end := if t.end == Some(t.me) then None else t.end));
          } else {
            GoTo(i, Idle);
          }
      }
    }

    /** The critical sections: a visit, the move constructor, the destructor. */
    method CriticalStep(i: Who)
      requires CanRun(i)
      requires var pc := At(i).pc; pc.Held? || pc.VisitDual? || pc.Relink? || pc.ClearOld? || pc.ReleaseOld?
                                   || pc.SeverDual?
      modifies this
      ensures Model() == RunStep(old(Model()), i)
    {
      var t := At(i);
      match t.pc {
        case Held =>
          GoTo(i, if heap[t.me].dual.None? then UnlockLocal else SeverDual(heap[t.me].dual.value));
        case VisitDual(d) =>
          GoTo(i, Held);
        case Relink(n) =>
          if heap[n].dual.Some? { StoreDual(heap[n].dual.value, Some(n)); }
          Put(i, t.(pc := ClearOld(n), end := if t.end == Some(t.me) then Some(n) else t.end));
        case ClearOld(n) =>
          StoreDual(t.me, None);
          GoTo(i, ReleaseOld(n));
        case ReleaseOld(n) =>
          Store(t.me, UNLOCKED);
          Put(i, t.(pc := UnlockLocal, me := n));
        case SeverDual(d) =>
          StoreDual(d, None);
          GoTo(i, UnlockLocal);
      }
    }

    method RunOnce(i: Who)
      requires CanRun(i)
      modifies this
      ensures Model() == RunStep(old(Model()), i)
    {
      match At(i).pc {
        case TryLocal | TestDual | CasDual(_) | CompareAddr | SpinForLoss | RetakeLocal | AckLoss(_) =>
          TryLockBothStep(i);
        case UnlockLocal | TestDualUnlock | UnlockDual(_) | Ending =>
          UnlockBothStep(i);
        case Held | VisitDual(_) | Relink(_) | ClearOld(_) | ReleaseOld(_) | SeverDual(_) =>
          CriticalStep(i);
      }
    }

    /** One scheduled step. */
    method Step(i: Who, act: Action)
      requires Enabled(Model(), i, act)
      modifies this
      ensures Model() == Next(old(Model()), i, act)
    {
      var t := At(i);
      if !(Touches(State(heap, first, second, fault), i) <= heap.Keys) {
        fault := true;
        return;
      }
      match act {
        case Begin(op, x) => Put(i, t.(pc := TryLocal, op := op, me := x));
        case Spurious =>
        case Look => if heap[t.me].dual.Some? { GoTo(i, VisitDual(heap[t.me].dual.value)); }
        case Leave => GoTo(i, UnlockLocal);
        case Relocate(n) =>
          heap := heap[n := Cell(LOCKED, heap[t.me].dual)];
          Put(i, t.(pc := Relink(n), mine := t.mine + {n}));
        case Run => RunOnce(i);
      }
    }

    /** Any schedule. */
    method Execute(evs: seq<Event>)
      requires Runnable(Model(), evs)
      modifies this
      ensures Model() == After(old(Model()), evs)
    {
      var k := 0;
      assert evs[0..] == evs;
      while k < |evs|
        invariant 0 <= k <= |evs| && Runnable(Model(), evs[k..])
        invariant After(old(Model()), evs) == After(Model(), evs[k..])
      {
        assert evs[k..][0] == evs[k] && evs[k..][1..] == evs[k + 1..];
        Step(evs[k].who, evs[k].act);
        k := k + 1;
      }
    }
  }
}
