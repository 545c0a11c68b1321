/** What a whole operation has done when its thread is idle again, for every interleaving with the other
    thread: a visit changes no ownership, a move hands the end over to a new object, a destruction
    removes the object. */
module EntangleOperations {
  import opened Wrappers
  import opened Entangle
  import opened EntangleInvariant
  import opened EntangleTheorems

  /** Thread `i` is inside an operation in every state of the run but the last. */
  predicate Busy(s: State, i: Who, evs: seq<Event>)
    requires Runnable(s, evs)
    decreases |evs|
  {
    evs == [] || (s.At(i).pc != Idle && Busy(Next(s, evs[0].who, evs[0].act), i, evs[1..]))
  }

  /** The end after a move of `x` to `n`, or after the destruction of `x`. */
  function MovedEnd(end: Option<Addr>, x: Addr, to: Option<Addr>): Option<Addr> {
    if end == Some(x) then to else end
  }

  /** Where the operation `op` on `x` is, for a thread that owned `mine` with the end `end` before it. */
  predicate Underway(t: Side, op: Op, x: Addr, mine: set<Addr>, end: Option<Addr>) {
    && t.op == op && t.pc != Idle && x in mine
    && (op != Move ==> t.me == x && t.mine == mine && t.end == end)
    && (op == Move ==> !t.pc.VisitDual? && !t.pc.SeverDual?)
    && (op == Move ==>
          if Locking(t.pc) || t.pc.Held? then t.me == x && t.mine == mine && t.end == end
          else if t.pc.Relink? then t.me == x && t.pc.n !in mine && t.mine == mine + {t.pc.n} && t.end == end
          else if t.pc.ClearOld? || t.pc.ReleaseOld? then
            t.me == x && t.pc.n !in mine && t.mine == mine + {t.pc.n} && t.end == MovedEnd(end, x, Some(t.pc.n))
          else t.me !in mine && t.mine == mine + {t.me} && t.end == MovedEnd(end, x, Some(t.me)))
  }

  /** What the operation has done. */
  ghost predicate Finished(s: State, i: Who, op: Op, x: Addr, mine: set<Addr>, end: Option<Addr>) {
    var t := s.At(i);
    match op
    case Visit => t.mine == mine && t.end == end
    case Destroy => t.mine == mine - {x} && x !in s.heap && t.end == MovedEnd(end, x, None)
    case Move => exists n :: n !in mine && t.mine == mine + {n} && t.end == MovedEnd(end, x, Some(n))
  }

  lemma MoveLocks(s: State, i: Who, act: Action, x: Addr, mine: set<Addr>, end: Option<Addr>)
    requires Safe(s, i) && Enabled(s, i, act) && Underway(s.At(i), Move, x, mine, end)
    requires Locking(s.At(i).pc)
    ensures var s' := Next(s, i, act);
            if s'.At(i).pc == Idle then Finished(s', i, Move, x, mine, end) else Underway(s'.At(i), Move, x, mine, end)
  {
    SafeTouches(s, i);
  }

  lemma MoveBuilds(s: State, i: Who, act: Action, x: Addr, mine: set<Addr>, end: Option<Addr>)
    requires Safe(s, i) && Enabled(s, i, act) && Underway(s.At(i), Move, x, mine, end)
    requires Holding(s.At(i).pc) && s.At(i).pc != UnlockLocal
    ensures var s' := Next(s, i, act);
            if s'.At(i).pc == Idle then Finished(s', i, Move, x, mine, end) else Underway(s'.At(i), Move, x, mine, end)
  {
    SafeTouches(s, i);
  }

  lemma MoveUnlocks(s: State, i: Who, act: Action, x: Addr, mine: set<Addr>, end: Option<Addr>)
    requires Safe(s, i) && Enabled(s, i, act) && Underway(s.At(i), Move, x, mine, end)
    requires !Locking(s.At(i).pc) && (!Holding(s.At(i).pc) || s.At(i).pc == UnlockLocal)
    ensures var s' := Next(s, i, act);
            if s'.At(i).pc == Idle then Finished(s', i, Move, x, mine, end) else Underway(s'.At(i), Move, x, mine, end)
  {
    SafeTouches(s, i);
    if s.At(i).pc.Ending? { assert Next(s, i, act).At(i).mine == mine + {s.At(i).me}; }
  }

  lemma OwnStepOfMove(s: State, i: Who, act: Action, x: Addr, mine: set<Addr>, end: Option<Addr>)
    requires Safe(s, i) && Enabled(s, i, act) && Underway(s.At(i), Move, x, mine, end)
    ensures var s' := Next(s, i, act);
            if s'.At(i).pc == Idle then Finished(s', i, Move, x, mine, end) else Underway(s'.At(i), Move, x, mine, end)
  {
    var pc := s.At(i).pc;
    if Locking(pc) { MoveLocks(s, i, act, x, mine, end); }
    else if Holding(pc) && pc != UnlockLocal { MoveBuilds(s, i, act, x, mine, end); }
    else { MoveUnlocks(s, i, act, x, mine, end); }
  }

  /** A step of the thread itself carries its operation on or finishes it. */
  lemma OwnStep(s: State, i: Who, act: Action, op: Op, x: Addr, mine: set<Addr>, end: Option<Addr>)
    requires Safe(s, i) && Enabled(s, i, act) && Underway(s.At(i), op, x, mine, end)
    ensures var s' := Next(s, i, act);
            if s'.At(i).pc == Idle then Finished(s', i, op, x, mine, end) else Underway(s'.At(i), op, x, mine, end)
  {
    if op == Move { OwnStepOfMove(s, i, act, x, mine, end); } else { SafeTouches(s, i); }
  }

  lemma {:induction false} OperationFinishes(s: State, i: Who, evs: seq<Event>, op: Op, x: Addr, mine: set<Addr>,
                                             end: Option<Addr>)
    requires Inv(s) && Runnable(s, evs) && Busy(s, i, evs)
    requires if s.At(i).pc == Idle then Finished(s, i, op, x, mine, end) else Underway(s.At(i), op, x, mine, end)
    requires After(s, evs).At(i).pc == Idle
    ensures Finished(After(s, evs), i, op, x, mine, end)
    decreases |evs|
  {
    if evs != [] {
      var j, act := evs[0].who, evs[0].act;
      StepInv(s, j, act);
      if j == i {
        InvIsReady(s, i);
        OwnStep(s, i, act, op, x, mine, end);
      } else {
        OnlyTouched(s, j, act);
      }
      OperationFinishes(Next(s, j, act), i, evs[1..], op, x, mine, end);
    }
  }

  lemma InvIsReady(s: State, i: Who)
    requires Inv(s)
    ensures Ready(s, i) && Safe(s, i)
  {
    ProtocolSymmetric(ViewOf(s, First), ViewOf(s, Second));
    assert Ready(s, i);
    ReadyIsSafe(s, i);
  }

  /** The operation `op` on `x`, begun by an idle thread in some run and carried through `evs`. */
  predicate Performs(a: Addr, b: Addr, before: seq<Event>, i: Who, op: Op, x: Addr, evs: seq<Event>) {
    && a != b && Runnable(Init(a, b), before)
    && var s := After(Init(a, b), before);
       && Enabled(s, i, Begin(op, x))
       && var s' := Next(s, i, Begin(op, x));
          Runnable(s', evs) && Busy(s', i, evs) && After(s', evs).At(i).pc == Idle
  }

  /** The state before, and after, the operation. */
  function Before(a: Addr, b: Addr, before: seq<Event>): State
    requires Runnable(Init(a, b), before)
  {
    After(Init(a, b), before)
  }

  function Afterwards(a: Addr, b: Addr, before: seq<Event>, i: Who, op: Op, x: Addr, evs: seq<Event>): State
    requires Performs(a, b, before, i, op, x, evs)
  {
    After(Next(Before(a, b, before), i, Begin(op, x)), evs)
  }

  lemma OperationDone(a: Addr, b: Addr, before: seq<Event>, i: Who, op: Op, x: Addr, evs: seq<Event>)
    requires Performs(a, b, before, i, op, x, evs)
    ensures Inv(Afterwards(a, b, before, i, op, x, evs))
    ensures x in Before(a, b, before).At(i).mine
    ensures Finished(Afterwards(a, b, before, i, op, x, evs), i, op, x,
                     Before(a, b, before).At(i).mine, Before(a, b, before).At(i).end)
  {
    var s := Before(a, b, before);
    InitInv(a, b);
    RunInv(Init(a, b), before);
    StepInv(s, i, Begin(op, x));
    var s' := Next(s, i, Begin(op, x));
    RunInv(s', evs);
    OperationFinishes(s', i, evs, op, x, s.At(i).mine, s.At(i).end);
  }

  /** A destroyed object is gone: neither memory nor either thread has it any more, the thread keeps its
      other objects, and it has no end left if that was it. */
  lemma DestroyRemoves(a: Addr, b: Addr, before: seq<Event>, i: Who, x: Addr, evs: seq<Event>)
    requires Performs(a, b, before, i, Destroy, x, evs)
    ensures var s, s' := Before(a, b, before), Afterwards(a, b, before, i, Destroy, x, evs);
            && x !in s'.heap && x !in s'.first.mine && x !in s'.second.mine
            && s'.At(i).mine == s.At(i).mine - {x}
            && s'.At(i).end == (if s.At(i).end == Some(x) then None else s.At(i).end)
  {
    OperationDone(a, b, before, i, Destroy, x, evs);
  }

  /** A move leaves a new object, which is the end if the old one was, and the old object unlocked,
      without a dual and still to be destroyed. */
  lemma MoveHandsOver(a: Addr, b: Addr, before: seq<Event>, i: Who, x: Addr, evs: seq<Event>) returns (n: Addr)
    requires Performs(a, b, before, i, Move, x, evs)
    ensures var s, s' := Before(a, b, before), Afterwards(a, b, before, i, Move, x, evs);
            && n !in s.At(i).mine && s'.At(i).mine == s.At(i).mine + {n} && n in s'.heap
            && s'.At(i).end == (if s.At(i).end == Some(x) then Some(n) else s.At(i).end)
            && x in s'.heap && s'.heap[x] == Cell(UNLOCKED, None)
  {
    OperationDone(a, b, before, i, Move, x, evs);
    var s, s' := Before(a, b, before), Afterwards(a, b, before, i, Move, x, evs);
    n :| n !in s.At(i).mine && s'.At(i).mine == s.At(i).mine + {n}
         && s'.At(i).end == MovedEnd(s.At(i).end, x, Some(n));
    assert x in s'.At(i).mine && n in s'.At(i).mine && s'.At(i).end != Some(x);
    assert Private(s', i, x);
  }

  /** A visit leaves the thread with the objects and the end it had. */
  lemma VisitKeeps(a: Addr, b: Addr, before: seq<Event>, i: Who, x: Addr, evs: seq<Event>)
    requires Performs(a, b, before, i, Visit, x, evs)
    ensures var s, s' := Before(a, b, before), Afterwards(a, b, before, i, Visit, x, evs);
            s'.At(i).mine == s.At(i).mine && s'.At(i).end == s.At(i).end && x in s'.heap
  {
    OperationDone(a, b, before, i, Visit, x, evs);
  }

  // --- The critical section and the way out of it ---

  /** A visit that holds the locks and looks at its dual reaches the other side's end, and it has a dual to
      look at unless the other end has been, or is being, destroyed. */
  lemma LookReachesPartner(a: Addr, b: Addr, evs: seq<Event>, i: Who)
    requires a != b && Runnable(Init(a, b), evs)
    requires OnPair(After(Init(a, b), evs), i) && Enabled(After(Init(a, b), evs), i, Look)
    ensures var s := After(Init(a, b), evs);
            var u, pc := s.At(Other(i)), Next(s, i, Look).At(i).pc;
            && (pc != Held ==> u.end.Some? && pc == VisitDual(u.end.value))
            && (pc == Held ==> u.end == None || (u.op == Destroy && Engaged(u) && ViewOf(s, Other(i)).PastSever()))
  {
    InitInv(a, b);
    RunInv(Init(a, b), evs);
    var s := After(Init(a, b), evs);
    InvIsReady(s, i);
    assert ViewOf(s, i).pc == s.At(i).pc && ViewOf(s, Other(i)).pc == s.At(Other(i)).pc;
    SafeTouches(s, i);
  }

  /** The steps a thread still has after it got the locks. */
  function Ahead(pc: PC): nat {
    match pc
    case VisitDual(_) => 9
    case Held => 8
    case Relink(_) => 7
    case ClearOld(_) => 6
    case ReleaseOld(_) => 5
    case SeverDual(_) => 5
    case UnlockLocal => 4
    case TestDualUnlock => 3
    case UnlockDual(_) => 2
    case Ending => 1
    case _ => 0
  }

  /** Nothing can hold up a thread that has the locks: each of its steps, unless it looks at its dual once
      more, brings it nearer to being idle, at most nine of them. */
  lemma OutOfTheLocks(s: State, i: Who, act: Action)
    requires Inv(s) && Enabled(s, i, act) && s.At(i).pc != Idle && !Locking(s.At(i).pc) && act != Look
    ensures var pc := Next(s, i, act).At(i).pc;
            Ahead(pc) < Ahead(s.At(i).pc) <= 9 && !Locking(pc) && (Ahead(pc) == 0 <==> pc == Idle)
  {
    InvIsReady(s, i);
    SafeStepsOut(s, i, act);
  }

  lemma SafeStepsOut(s: State, i: Who, act: Action)
    requires Safe(s, i) && Enabled(s, i, act) && s.At(i).pc != Idle && !Locking(s.At(i).pc) && act != Look
    ensures var pc := Next(s, i, act).At(i).pc;
            Ahead(pc) < Ahead(s.At(i).pc) <= 9 && !Locking(pc) && (Ahead(pc) == 0 <==> pc == Idle)
  {
    SafeTouches(s, i);
  }

  // --- Uncontended operations complete ---

  /** An upper bound on the steps to the end of the operation when the other thread is idle. */
  function ToGo(s: State, i: Who): nat {
    if Locking(s.At(i).pc) then 10 + Budget(s, i) else Ahead(s.At(i).pc)
  }

  /** Thread `i` can finish what it is doing on its own. */
  ghost predicate FinishesAlone(s: State, i: Who) {
    exists evs: seq<Event> :: && Runnable(s, evs) && Busy(s, i, evs) && After(s, evs).At(i).pc == Idle
                  && (forall j :: 0 <= j < |evs| ==> evs[j].who == i) && |evs| <= ToGo(s, i)
  }

  lemma AloneStep(s: State, i: Who, act: Action)
    requires Enabled(s, i, act) && s.At(i).pc != Idle
    requires FinishesAlone(Next(s, i, act), i) && ToGo(Next(s, i, act), i) < ToGo(s, i)
    ensures FinishesAlone(s, i)
  {
    var t := Next(s, i, act);
    var evs: seq<Event> :| && Runnable(t, evs) && Busy(t, i, evs) && After(t, evs).At(i).pc == Idle
               && (forall j :: 0 <= j < |evs| ==> evs[j].who == i) && |evs| <= ToGo(t, i);
    var all := [Event(i, act)] + evs;
    assert all[0] == Event(i, act) && all[1..] == evs;
    assert Runnable(s, all) && Busy(s, i, all) && After(s, all) == After(t, evs);
  }

  /** A thread whose partner is idle finishes its operation within 18 steps of its own. */
  lemma {:induction false} Alone(s: State, i: Who)
    requires Inv(s) && s.At(Other(i)).pc == Idle
    ensures FinishesAlone(s, i) && ToGo(s, i) <= 18
    decreases ToGo(s, i)
  {
    var pc := s.At(i).pc;
    if pc == Idle {
      assert Runnable(s, []) && Busy(s, i, []) && After(s, []) == s;
    } else {
      if Locking(pc) && Stuck(s, i) {
        StuckMeansBusyPartner(s, i);
      } else {
        var act := GoOn(s, i);
        StepInv(s, i, act);
        OnlyTouched(s, i, act);
        Alone(Next(s, i, act), i);
        AloneStep(s, i, act);
      }
    }
  }

  /** The next step of a thread that goes on with its operation on its own. */
  lemma GoOn(s: State, i: Who) returns (act: Action)
    requires Inv(s) && s.At(i).pc != Idle && (Locking(s.At(i).pc) ==> !Stuck(s, i))
    ensures Enabled(s, i, act) && ToGo(Next(s, i, act), i) < ToGo(s, i) <= 18
  {
    if Locking(s.At(i).pc) {
      act := Run;
      LockingStepProgress(s, i);
    } else {
      act := Run;
      if s.At(i).pc == Held && s.At(i).op == Visit { act := Leave; }
      if s.At(i).pc == Held && s.At(i).op == Move {
        var n := FreshAddress(s.heap.Keys);
        act := Relocate(n);
      }
      OutOfTheLocks(s, i, act);
    }
  }

  /** Any operation on any of its objects that an idle thread begins while the other is idle can be carried
      through, whatever happened before. */
  lemma OperationCompletes(a: Addr, b: Addr, before: seq<Event>, i: Who, op: Op, x: Addr) returns (evs: seq<Event>)
    requires a != b && Runnable(Init(a, b), before)
    requires var s := After(Init(a, b), before); s.first.pc == Idle && s.second.pc == Idle && x in s.At(i).mine
    ensures Performs(a, b, before, i, op, x, evs) && |evs| <= 18
  {
    InitInv(a, b);
    RunInv(Init(a, b), before);
    var s := After(Init(a, b), before);
    StepInv(s, i, Begin(op, x));
    OnlyTouched(s, i, Begin(op, x));
    var t := Next(s, i, Begin(op, x));
    Alone(t, i);
    evs :| && Runnable(t, evs) && Busy(t, i, evs) && After(t, evs).At(i).pc == Idle
           && (forall j :: 0 <= j < |evs| ==> evs[j].who == i) && |evs| <= ToGo(t, i);
  }
}
