/** The entangled pair of include/pushmi/entangle.h as a two-thread machine.
    Every shared access is one step. Atomics are sequentially consistent. */
module Entangle {
  import opened Wrappers

  type Addr = nat

  const UNLOCKED := 0
  const LOCKED := 1
  const LOSS_ACKNOWLEDGED := 2

  /** One live `entangled` object: its `stateMachine` and its `dual`. */
  datatype Cell = Cell(lock: int, dual: Option<Addr>)

  datatype Who = First | Second

  function Other(i: Who): Who {
    if i == First then Second else First
  }

  /** What a thread does with one of its objects: lock it and look at the dual, move-construct
      a new object from it, or destroy it. */
  datatype Op = Visit | Move | Destroy

  /** The next shared access of a thread. `d` is a value of `dual` the thread has read,
      `n` the address of the object under construction. */
  datatype PC =
    | Idle
    | TryLocal              // compare_exchange_weak on the local state
    | TestDual              // dual == nullptr?
    | CasDual(d: Addr)      // compare_exchange_strong on the dual's state
    | CompareAddr           // this < dual?
    | SpinForLoss           // wait until the loser acknowledges
    | RetakeLocal           // store kLocked after the acknowledgement
    | AckLoss(d: Addr)      // store kLockedAndLossAcknowledged in the dual
    | Held                  // lockBoth has returned
    | VisitDual(d: Addr)    // the critical section touches *dual
    | Relink(n: Addr)       // dual->dual = this
    | ClearOld(n: Addr)     // other.dual = nullptr
    | ReleaseOld(n: Addr)   // other.stateMachine.store(kUnlocked)
    | SeverDual(d: Addr)    // dual->dual = nullptr
    | UnlockLocal           // stateMachine.store(kUnlocked)
    | TestDualUnlock        // dual != nullptr?
    | UnlockDual(d: Addr)   // dual->stateMachine.store(kUnlocked)
    | Ending                // the operation is over; a destroyed object is freed

  /** A thread and the objects it owns. `me` is the object operated on. `end` is bookkeeping that
      no step reads: the object that currently stands for this side of the pair. */
  datatype Side = Side(mine: set<Addr>, pc: PC, op: Op, me: Addr, end: Option<Addr>)

  /** `fault` records an access to memory that holds no live object. */
  datatype State = State(heap: map<Addr, Cell>, first: Side, second: Side, fault: bool) {
    function At(i: Who): Side {
      if i == First then first else second
    }

    function With(i: Who, side: Side): State {
      if i == First then this.(first := side) else this.(second := side)
    }
  }

  /** A pair just made by `entangle`: two unlocked objects that point at each other. */
  function Init(a: Addr, b: Addr): State {
    State(map[a := Cell(UNLOCKED, Some(b)), b := Cell(UNLOCKED, Some(a))],
          Side({a}, Idle, Visit, a, Some(a)), Side({b}, Idle, Visit, b, Some(b)), false)
  }

  /** The scheduler's choices: start an operation on an owned object, let the thread take its next
      step, let the weak compare-exchange fail spuriously, pick the new object's address,
      use or leave a critical section. */
  datatype Action = Begin(op: Op, target: Addr) | Run | Spurious | Relocate(n: Addr) | Look | Leave

  predicate Enabled(s: State, i: Who, act: Action) {
    var t := s.At(i);
    match act
    case Begin(_, x) => t.pc == Idle && x in t.mine
    case Run => t.pc != Idle && (t.pc == Held ==> t.op == Destroy)
    case Spurious => t.pc == TryLocal
    case Relocate(n) => t.pc == Held && t.op == Move && n !in s.heap
    case Look => t.pc == Held && t.op == Visit
    case Leave => t.pc == Held && t.op == Visit
  }

  /** The objects the thread's next step dereferences. */
  function Touches(s: State, i: Who): set<Addr> {
    var t := s.At(i);
    match t.pc
    case Idle | Ending => {}
    case CasDual(d) => {d}
    case AckLoss(d) => {d}
    case VisitDual(d) => {d, t.me}
    case SeverDual(d) => {d}
    case UnlockDual(d) => {d}
    case Relink(n) =>
      if n in s.heap && s.heap[n].dual.Some? then {n, s.heap[n].dual.value} else {n}
    case _ => {t.me}
  }

  function SetLock(h: map<Addr, Cell>, x: Addr, v: int): map<Addr, Cell>
    requires x in h
  {
    h[x := h[x].(lock := v)]
  }

  function SetDual(h: map<Addr, Cell>, x: Addr, v: Option<Addr>): map<Addr, Cell>
    requires x in h
  {
    h[x := h[x].(dual := v)]
  }

  /** One step of thread `i`. */
  function Next(s: State, i: Who, act: Action): State
    requires Enabled(s, i, act)
  {
    var t := s.At(i);
    if !(Touches(s, i) <= s.heap.Keys) then s.(fault := true) else
    match act
    case Begin(op, x) => s.With(i, t.(pc := TryLocal, op := op, me := x))
    case Spurious => s
    case Look =>
      if s.heap[t.me].dual.Some? then s.With(i, t.(pc := VisitDual(s.heap[t.me].dual.value))) else s
    case Leave => s.With(i, t.(pc := UnlockLocal))
    case Relocate(n) =>
      s.(heap := s.heap[n := Cell(LOCKED, s.heap[t.me].dual)])
       .With(i, t.(pc := Relink(n), mine := t.mine + {n}))
    case Run => RunStep(s, i)
  }

  /** The deterministic part of `Next`: what the code does at the current program counter. */
  function RunStep(s: State, i: Who): State
    requires s.At(i).pc != Idle
    requires Touches(s, i) <= s.heap.Keys
  {
    var t := s.At(i);
    match t.pc
    case TryLocal =>
      if s.heap[t.me].lock == UNLOCKED
      then s.(heap := SetLock(s.heap, t.me, LOCKED)).With(i, t.(pc := TestDual))
      else s
    case TestDual =>
      (match s.heap[t.me].dual
       case None => s.With(i, t.(pc := Held))
       case Some(d) => s.With(i, t.(pc := CasDual(d))))
    case CasDual(d) =>
      if s.heap[d].lock == UNLOCKED
      then s.(heap := SetLock(s.heap, d, LOCKED)).With(i, t.(pc := Held))
      else s.With(i, t.(pc := CompareAddr))
    case CompareAddr =>
      (match s.heap[t.me].dual
       case None => s.(fault := true)
       case Some(d) => s.With(i, t.(pc := if t.me < d then SpinForLoss else AckLoss(d))))
    case SpinForLoss =>
      if s.heap[t.me].lock == LOSS_ACKNOWLEDGED then s.With(i, t.(pc := RetakeLocal)) else s
    case RetakeLocal =>
      s.(heap := SetLock(s.heap, t.me, LOCKED)).With(i, t.(pc := Held))
    case AckLoss(d) =>
      s.(heap := SetLock(s.heap, d, LOSS_ACKNOWLEDGED)).With(i, t.(pc := TryLocal))
    case Held =>
      (match s.heap[t.me].dual
       case None => s.With(i, t.(pc := UnlockLocal))
       case Some(d) => s.With(i, t.(pc := SeverDual(d))))
    case VisitDual(d) => s.With(i, t.(pc := Held))
    case Relink(n) =>
      var h := if s.heap[n].dual.Some? then SetDual(s.heap, s.heap[n].dual.value, Some(n)) else s.heap;
      s.(heap := h).With(i, t.(pc := ClearOld(n), end := if t.end == Some(t.me) then Some(n) else t.end))
    case ClearOld(n) =>
      s.(heap := SetDual(s.heap, t.me, None)).With(i, t.(pc := ReleaseOld(n)))
    case ReleaseOld(n) =>
      s.(heap := SetLock(s.heap, t.me, UNLOCKED)).With(i, t.(pc := UnlockLocal, me := n))
    case SeverDual(d) =>
      s.(heap := SetDual(s.heap, d, None)).With(i, t.(pc := UnlockLocal))
    case UnlockLocal =>
      s.(heap := SetLock(s.heap, t.me, UNLOCKED)).With(i, t.(pc := TestDualUnlock))
    case TestDualUnlock =>
      (match s.heap[t.me].dual
       case None => s.With(i, t.(pc := Ending))
       case Some(d) => s.With(i, t.(pc := UnlockDual(d))))
    case UnlockDual(d) =>
      s.(heap := SetLock(s.heap, d, UNLOCKED)).With(i, t.(pc := Ending))
    case Ending =>
      if t.op == Destroy
      then s.(heap := s.heap - {t.me})
            .With(i, t.(pc := Idle, mine := t.mine - {t.me},
                        end := if t.end == Some(t.me) then None else t.end))
      else s.With(i, t.(pc := Idle))
  }

  // --- Runs ---

  datatype Event = Event(who: Who, act: Action)

  predicate Runnable(s: State, evs: seq<Event>)
    decreases |evs|
  {
    evs == [] ||
    (Enabled(s, evs[0].who, evs[0].act) && Runnable(Next(s, evs[0].who, evs[0].act), evs[1..]))
  }

  function After(s: State, evs: seq<Event>): State
    requires Runnable(s, evs)
    decreases |evs|
  {
    if evs == [] then s else After(Next(s, evs[0].who, evs[0].act), evs[1..])
  }
}
