/** The inductive invariant of the entangled pair machine. The two ends of the pair are abstracted
    to views; the protocol is proved on views, the private objects are framed separately. */
module EntangleInvariant {
  import opened Wrappers
  import opened Entangle

  /** The thread has its local lock and is trying to get the other one. */
  predicate Racing(pc: PC) {
    pc.TestDual? || pc.CasDual? || pc.CompareAddr? || pc.SpinForLoss? || pc.RetakeLocal? || pc.AckLoss?
  }

  /** Between a successful `lockBoth` and the first store of `unlockBoth`. */
  predicate Holding(pc: PC) {
    pc.Held? || pc.VisitDual? || pc.Relink? || pc.ClearOld? || pc.ReleaseOld? || pc.SeverDual? || pc.UnlockLocal?
  }

  /** Between the two stores of `unlockBoth`. */
  predicate Releasing(pc: PC) {
    pc.TestDualUnlock? || pc.UnlockDual?
  }

  /** The thread operates on its end of the pair, not on a moved-from object. */
  predicate Engaged(t: Side) {
    && t.pc != Idle
    && t.end.Some?
    && (t.end.value == t.me
        || (t.pc.ClearOld? && t.pc.n == t.end.value)
        || (t.pc.ReleaseOld? && t.pc.n == t.end.value))
  }

  // --- The protocol between the two ends ---

  /** One side as the protocol sees it: its control state and the contents of its end. */
  datatype View = View(pc: PC, op: Op, engaged: bool, end: Option<Addr>, dual: Option<Addr>, lock: int) {
    predicate OwnLocked() {
      engaged && (Racing(pc) || Holding(pc))
    }

    predicate PastSever() {
      pc.UnlockLocal? || pc.TestDualUnlock? || pc.UnlockDual? || pc.Ending?
    }
  }

  predicate Linked(v: View, w: View) {
    v.end.Some? && w.end.Some? && v.dual == w.end && w.dual == v.end
  }

  /** `v` is destroying its end and has already cleared the partner's pointer. Once it has stored
      to the partner's lock its own pointer is no longer used and may dangle. */
  predicate Severing(v: View, w: View) {
    && v.op == Destroy && v.engaged && w.dual == None
    && (v.pc.Ending? || (v.PastSever() && w.end.Some? && v.dual == w.end))
  }

  predicate Detached(v: View, w: View) {
    v.dual == None && w.dual == None && !(v.end.Some? && w.end.Some?)
  }

  /** `v` holds the lock of the other side's end. */
  predicate Takes(v: View, w: View) {
    v.engaged && (Holding(v.pc) || Releasing(v.pc)) && w.end.Some? && v.dual == w.end
  }

  predicate Lost(v: View, w: View) {
    w.end.Some? && w.lock == LOSS_ACKNOWLEDGED
  }

  /** The lock of `v`'s end is held by its own thread, by the other thread, or left behind for the
      winner by a thread that lost the race; otherwise it is free. */
  predicate Locks(v: View, w: View) {
    v.end.Some? ==>
      && (v.OwnLocked() ==> (v.lock == LOCKED || v.lock == LOSS_ACKNOWLEDGED) && !Takes(w, v))
      && (Takes(w, v) ==> v.lock == LOCKED)
      && (!v.OwnLocked() && !Takes(w, v) ==> v.lock == if Lost(v, w) then LOCKED else UNLOCKED)
      && (v.lock == LOSS_ACKNOWLEDGED ==>
            && Linked(v, w) && v.OwnLocked() && Racing(v.pc) && !v.pc.AckLoss?
            && v.end.value < w.end.value
            && w.pc == TryLocal && w.engaged)
  }

  /** What a thread knows from the pointers it has read. */
  predicate Registers(v: View, w: View) {
    && (v.engaged ==> v.end.Some? && v.pc != Idle)
    && (v.end == None ==> v.dual == None)
    && (v.pc.CasDual? || v.pc.AckLoss? || v.pc.VisitDual? || v.pc.SeverDual? || v.pc.UnlockDual? ==>
          v.engaged && v.dual == Some(v.pc.d) && w.end == Some(v.pc.d))
    && (v.pc.CompareAddr? || v.pc.SpinForLoss? || v.pc.RetakeLocal? || v.pc.AckLoss? ==>
          && v.engaged && Linked(v, w)
          && (v.lock == LOSS_ACKNOWLEDGED || (w.OwnLocked() && Racing(w.pc))))
    && (v.pc.SpinForLoss? || v.pc.RetakeLocal? ==> v.end.value < w.end.value)
    && (v.pc.RetakeLocal? ==> v.lock == LOSS_ACKNOWLEDGED)
    && (v.pc.AckLoss? ==> v.end.value > w.end.value && v.lock == LOCKED)
    && (v.pc.VisitDual? || v.pc.SeverDual? ==> Linked(v, w))
    && (v.pc.VisitDual? ==> v.op == Visit)
    && (v.pc.SeverDual? ==> v.op == Destroy)
    && (v.pc.Relink? || v.pc.ClearOld? || v.pc.ReleaseOld? ==> v.op == Move)
    && (v.op == Destroy && v.engaged && v.PastSever() ==> !Linked(v, w) && (Severing(w, v) ==> w.pc.Ending?))
  }

  predicate Protocol(v: View, w: View) {
    && (Linked(v, w) || Severing(v, w) || Severing(w, v) || Detached(v, w))
    && (v.end.Some? && w.end.Some? ==> v.end != w.end)
    && Locks(v, w) && Locks(w, v)
    && Registers(v, w) && Registers(w, v)
  }

  /** The step of the thread behind `v`, on views: the new views of both sides. */
  function ViewNext(v: View, w: View, act: Action): (View, View)
    requires v.end.Some?
  {
    match act
    case Begin(op, x) => (v.(pc := TryLocal, op := op, engaged := true), w)
    case Spurious => (v, w)
    case Look => (if v.dual.Some? then v.(pc := VisitDual(v.dual.value)) else v, w)
    case Leave => (v.(pc := UnlockLocal), w)
    case Relocate(n) => (v.(pc := Relink(n)), w)
    case Run =>
      match v.pc
      case Idle => (v, w)
      case TryLocal => (if v.lock == UNLOCKED then v.(pc := TestDual, lock := LOCKED) else v, w)
      case TestDual => (v.(pc := if v.dual.Some? then CasDual(v.dual.value) else Held), w)
      case CasDual(d) =>
        if w.lock == UNLOCKED then (v.(pc := Held), w.(lock := LOCKED)) else (v.(pc := CompareAddr), w)
      case CompareAddr =>
        (v.(pc := if v.dual.Some? && v.end.value >= v.dual.value then AckLoss(v.dual.value) else SpinForLoss), w)
      case SpinForLoss => (if v.lock == LOSS_ACKNOWLEDGED then v.(pc := RetakeLocal) else v, w)
      case RetakeLocal => (v.(pc := Held, lock := LOCKED), w)
      case AckLoss(d) => (v.(pc := TryLocal), w.(lock := LOSS_ACKNOWLEDGED))
      case Held => (v.(pc := if v.dual.Some? then SeverDual(v.dual.value) else UnlockLocal), w)
      case VisitDual(d) => (v.(pc := Held), w)
      case Relink(n) =>
        (v.(pc := ClearOld(n), end := Some(n), lock := LOCKED), if v.dual.Some? then w.(dual := Some(n)) else w)
      case ClearOld(n) => (v.(pc := ReleaseOld(n)), w)
      case ReleaseOld(n) => (v.(pc := UnlockLocal), w)
      case SeverDual(d) => (v.(pc := UnlockLocal), w.(dual := None))
      case UnlockLocal => (v.(pc := TestDualUnlock, lock := UNLOCKED), w)
      case TestDualUnlock => (v.(pc := if v.dual.Some? then UnlockDual(v.dual.value) else Ending), w)
      case UnlockDual(d) => (v.(pc := Ending), w.(lock := UNLOCKED))
      case Ending =>
        if v.op == Destroy
        then (v.(pc := Idle, engaged := false, end := None, dual := None, lock := UNLOCKED), w)
        else (v.(pc := Idle, engaged := false), w)
  }

  predicate ViewEnabled(v: View, w: View, act: Action) {
    match act
    case Begin(_, _) => v.pc == Idle && v.end.Some?
    case Run => v.engaged && (v.pc == Held ==> v.op == Destroy)
    case Spurious => v.engaged && v.pc == TryLocal
    case Relocate(n) => v.engaged && v.pc == Held && v.op == Move && w.end != Some(n)
    case Look => v.engaged && v.pc == Held && v.op == Visit
    case Leave => v.engaged && v.pc == Held && v.op == Visit
  }

  lemma ProtocolTry(v: View, w: View, act: Action)
    requires Protocol(v, w) && ViewEnabled(v, w, act) && (v.pc.TryLocal? || v.pc.TestDual? || v.pc.CasDual?)
    ensures var n := ViewNext(v, w, act); Protocol(n.0, n.1)
  {
  }

  lemma ProtocolRace(v: View, w: View, act: Action)
    requires Protocol(v, w) && ViewEnabled(v, w, act) && (v.pc.TryLocal? || Racing(v.pc))
    ensures var n := ViewNext(v, w, act); Protocol(n.0, n.1)
  {
    if v.pc.TryLocal? || v.pc.TestDual? || v.pc.CasDual? { ProtocolTry(v, w, act); }
  }

  lemma ProtocolMove(v: View, w: View, act: Action)
    requires Protocol(v, w) && ViewEnabled(v, w, act) && (v.pc.Relink? || v.pc.ClearOld? || v.pc.ReleaseOld?)
    requires v.pc.Relink? ==> w.end != Some(v.pc.n)
    ensures var n := ViewNext(v, w, act); Protocol(n.0, n.1)
  {
  }

  lemma ProtocolHold(v: View, w: View, act: Action)
    requires Protocol(v, w) && ViewEnabled(v, w, act) && Holding(v.pc)
    requires v.pc.Relink? ==> w.end != Some(v.pc.n)
    ensures var n := ViewNext(v, w, act); Protocol(n.0, n.1)
  {
    if v.pc.Relink? || v.pc.ClearOld? || v.pc.ReleaseOld? { ProtocolMove(v, w, act); }
  }

  lemma ProtocolRelease(v: View, w: View, act: Action)
    requires Protocol(v, w) && ViewEnabled(v, w, act) && (Releasing(v.pc) || v.pc.Ending? || v.pc.Idle?)
    ensures var n := ViewNext(v, w, act); Protocol(n.0, n.1)
  {
  }

  /** A step on a moved-from object leaves both ends alone. */
  lemma ProtocolIdles(v: View, w: View, v': View)
    requires Protocol(v, w) && !v.engaged && !v'.engaged
    requires v' == v.(pc := v'.pc, op := v'.op)
    requires !v'.pc.CasDual? && !v'.pc.AckLoss? && !v'.pc.VisitDual? && !v'.pc.SeverDual? && !v'.pc.UnlockDual?
    requires !v'.pc.CompareAddr? && !v'.pc.SpinForLoss? && !v'.pc.RetakeLocal?
    requires v'.pc.Relink? || v'.pc.ClearOld? || v'.pc.ReleaseOld? ==> v'.op == Move
    ensures Protocol(v', w)
  {
  }

  // --- The objects ---

  function ViewOf(s: State, i: Who): View {
    var t := s.At(i);
    var there := t.end.Some? && t.end.value in s.heap;
    View(t.pc, t.op, Engaged(t), t.end,
         if there then s.heap[t.end.value].dual else None,
         if there then s.heap[t.end.value].lock else UNLOCKED)
  }

  /** Which objects side `i` owns and which of them its operation involves. */
  predicate Owned(s: State, i: Who) {
    var t := s.At(i);
    && t.mine <= s.heap.Keys
    && (t.pc != Idle ==> t.me in t.mine)
    && (t.end.Some? ==> t.end.value in t.mine)
    && (t.pc.Relink? || t.pc.ClearOld? || t.pc.ReleaseOld? ==> t.op == Move && t.pc.n in t.mine && t.pc.n != t.me)
    && (t.pc.Relink? ==> t.end != Some(t.pc.n))
    && (t.pc.ClearOld? || t.pc.ReleaseOld? ==> t.end != Some(t.me))
  }

  /** While a move is under way the new object is locked and both objects have the same dual. */
  predicate Building(s: State, i: Who)
    requires Owned(s, i)
  {
    var t := s.At(i);
    && (t.pc.Relink? ==> s.heap[t.pc.n].lock == LOCKED)
    && (t.pc.Relink? || t.pc.ClearOld? ==> s.heap[t.me].dual == s.heap[t.pc.n].dual)
  }

  /** What an owned object holds when it is not the side's end: no dual and no lock, except for
      the objects of the operation in progress. */
  predicate Private(s: State, i: Who, x: Addr)
    requires x in s.heap
  {
    var t := s.At(i);
    && (s.heap[x].dual == None || (t.pc.Relink? && x == t.pc.n) || (t.pc.ClearOld? && x == t.me))
    && s.heap[x].lock ==
         (if t.pc != Idle && x == t.me && (Racing(t.pc) || Holding(t.pc)) then LOCKED
          else if (t.pc.Relink? || t.pc.ClearOld? || t.pc.ReleaseOld?) && x == t.pc.n then LOCKED
          else UNLOCKED)
  }

  predicate AllPrivate(s: State, i: Who)
    requires Owned(s, i)
  {
    forall x :: x in s.At(i).mine && Some(x) != s.At(i).end ==> Private(s, i, x)
  }

  predicate Shape(s: State) {
    && !s.fault
    && s.heap.Keys == s.first.mine + s.second.mine
    && s.first.mine !! s.second.mine
    && Owned(s, First) && Owned(s, Second)
  }

  predicate Inv(s: State) {
    && Shape(s)
    && Building(s, First) && Building(s, Second)
    && AllPrivate(s, First) && AllPrivate(s, Second)
    && Protocol(ViewOf(s, First), ViewOf(s, Second))
  }

  lemma InitInv(a: Addr, b: Addr)
    requires a != b
    ensures Inv(Init(a, b))
  {
  }

  // The steps in four groups; every lemma below is about one group.

  predicate Tries(pc: PC, act: Action) {
    act.Begin? || act.Spurious?
    || (act.Run? && (pc.TryLocal? || pc.TestDual? || pc.CasDual? || pc.CompareAddr? || pc.SpinForLoss?))
  }

  predicate Settles(pc: PC, act: Action) {
    act.Look? || act.Leave?
    || (act.Run? && (pc.RetakeLocal? || pc.AckLoss? || pc.Held? || pc.VisitDual?))
  }

  predicate Rewrites(pc: PC, act: Action) {
    act.Relocate? || (act.Run? && (pc.Relink? || pc.ClearOld? || pc.ReleaseOld? || pc.SeverDual?))
  }

  predicate Releases(pc: PC, act: Action) {
    act.Run? && (pc.UnlockLocal? || pc.TestDualUnlock? || pc.UnlockDual? || pc.Ending?)
  }

  /** What a step needs to know about the objects it does not own. */
  predicate Ready(s: State, i: Who) {
    var t := s.At(i);
    && Shape(s) && Building(s, i)
    && Protocol(ViewOf(s, i), ViewOf(s, Other(i)))
    && (t.pc != Idle && t.end != Some(t.me) ==> Private(s, i, t.me))
  }

  /** The step concerns the end of the pair. */
  predicate AtEnd(s: State, i: Who, act: Action) {
    Engaged(s.At(i)) || (act.Begin? && s.At(i).end == Some(act.target))
  }

  /** The object of the other thread that the next step dereferences, if any. */
  function Remote(s: State, i: Who): Option<Addr> {
    match s.At(i).pc
    case CasDual(d) => Some(d)
    case AckLoss(d) => Some(d)
    case VisitDual(d) => Some(d)
    case SeverDual(d) => Some(d)
    case UnlockDual(d) => Some(d)
    case Relink(n) => if n in s.heap then s.heap[n].dual else None
    case _ => None
  }

  /** Of the other thread's objects the step dereferences at most its end. */
  predicate Safe(s: State, i: Who) {
    && Shape(s)
    && (Remote(s, i).Some? ==> Remote(s, i) == s.At(Other(i)).end)
    && (s.At(i).pc.CompareAddr? ==> s.heap[s.At(i).me].dual.Some?)
  }

  lemma ReadyIsSafe(s: State, i: Who)
    requires Ready(s, i)
    ensures Safe(s, i)
  {
    assert ViewOf(s, i).pc == s.At(i).pc;
  }

  lemma SafeTouches(s: State, i: Who)
    requires Safe(s, i)
    ensures forall x :: x in Touches(s, i) ==> x in s.At(i).mine || Some(x) == s.At(Other(i)).end
    ensures Touches(s, i) <= s.heap.Keys
  {
  }

  /** A step leaves the other thread's control and all objects that it does not touch alone. */
  lemma OnlyTouched(s: State, i: Who, act: Action)
    requires Enabled(s, i, act)
    ensures Next(s, i, act).At(Other(i)) == s.At(Other(i))
    ensures forall x :: x in s.heap && x !in Touches(s, i) && x != s.At(i).me ==>
              x in Next(s, i, act).heap && Next(s, i, act).heap[x] == s.heap[x]
  {
  }

  lemma ShapeTry(s: State, i: Who, act: Action)
    requires Safe(s, i) && Enabled(s, i, act) && Tries(s.At(i).pc, act)
    ensures Shape(Next(s, i, act))
  {
  }

  lemma ShapeSettle(s: State, i: Who, act: Action)
    requires Safe(s, i) && Enabled(s, i, act) && Settles(s.At(i).pc, act)
    ensures Shape(Next(s, i, act))
  {
  }

  lemma ShapeRewrite(s: State, i: Who, act: Action)
    requires Safe(s, i) && Enabled(s, i, act) && Rewrites(s.At(i).pc, act)
    ensures Shape(Next(s, i, act))
  {
  }

  lemma ShapeRelease(s: State, i: Who, act: Action)
    requires Safe(s, i) && Enabled(s, i, act) && Releases(s.At(i).pc, act)
    ensures Shape(Next(s, i, act))
  {
  }

  lemma StepShape(s: State, i: Who, act: Action)
    requires Safe(s, i) && Enabled(s, i, act)
    ensures Shape(Next(s, i, act))
  {
    var pc := s.At(i).pc;
    if Tries(pc, act) { ShapeTry(s, i, act); }
    else if Settles(pc, act) { ShapeSettle(s, i, act); }
    else if Rewrites(pc, act) { ShapeRewrite(s, i, act); }
    else { ShapeRelease(s, i, act); }
  }

  lemma BuildingOwn(s: State, i: Who, act: Action)
    requires Safe(s, i) && Building(s, i) && Enabled(s, i, act) && Shape(Next(s, i, act))
    ensures Building(Next(s, i, act), i)
  {
  }

  /** Neither thread rewrites a dual while the other one is moving its end. */
  lemma BuildingOther(s: State, i: Who, act: Action)
    requires Ready(s, i) && Building(s, Other(i)) && Enabled(s, i, act) && Shape(Next(s, i, act))
    ensures Building(Next(s, i, act), Other(i))
  {
    OnlyTouched(s, i, act);
    ReadyIsSafe(s, i);
    SafeTouches(s, i);
  }

  lemma PrivateOther(s: State, i: Who, act: Action)
    requires Safe(s, i) && Enabled(s, i, act) && AllPrivate(s, Other(i)) && Shape(Next(s, i, act))
    ensures AllPrivate(Next(s, i, act), Other(i))
  {
    OnlyTouched(s, i, act);
    SafeTouches(s, i);
  }

  lemma PrivateTry(s: State, i: Who, act: Action)
    requires Safe(s, i) && Building(s, i) && Enabled(s, i, act) && Tries(s.At(i).pc, act)
    requires AllPrivate(s, i) && Shape(Next(s, i, act))
    ensures AllPrivate(Next(s, i, act), i)
  {
  }

  lemma PrivateSettle(s: State, i: Who, act: Action)
    requires Ready(s, i) && Enabled(s, i, act) && Settles(s.At(i).pc, act)
    requires AllPrivate(s, i) && Shape(Next(s, i, act))
    ensures AllPrivate(Next(s, i, act), i)
  {
  }

  lemma PrivateRewrite(s: State, i: Who, act: Action)
    requires Ready(s, i) && Enabled(s, i, act) && Rewrites(s.At(i).pc, act)
    requires AllPrivate(s, i) && Shape(Next(s, i, act))
    ensures AllPrivate(Next(s, i, act), i)
  {
  }

  lemma PrivateRelease(s: State, i: Who, act: Action)
    requires Safe(s, i) && Building(s, i) && Enabled(s, i, act) && Releases(s.At(i).pc, act)
    requires AllPrivate(s, i) && Shape(Next(s, i, act))
    ensures AllPrivate(Next(s, i, act), i)
  {
  }

  lemma StepPrivate(s: State, i: Who, act: Action)
    requires Ready(s, i) && Enabled(s, i, act)
    requires AllPrivate(s, i) && Shape(Next(s, i, act))
    ensures AllPrivate(Next(s, i, act), i)
  {
    ReadyIsSafe(s, i);
    var pc := s.At(i).pc;
    if Tries(pc, act) { PrivateTry(s, i, act); }
    else if Settles(pc, act) { PrivateSettle(s, i, act); }
    else if Rewrites(pc, act) { PrivateRewrite(s, i, act); }
    else { PrivateRelease(s, i, act); }
  }

  lemma ViewTry(s: State, i: Who, act: Action)
    requires Ready(s, i) && Enabled(s, i, act) && Tries(s.At(i).pc, act) && AtEnd(s, i, act)
    requires Shape(Next(s, i, act))
    ensures ViewEnabled(ViewOf(s, i), ViewOf(s, Other(i)), act)
    ensures ViewNext(ViewOf(s, i), ViewOf(s, Other(i)), act)
            == (ViewOf(Next(s, i, act), i), ViewOf(Next(s, i, act), Other(i)))
  {
  }

  lemma ViewSettle(s: State, i: Who, act: Action)
    requires Ready(s, i) && Enabled(s, i, act) && Settles(s.At(i).pc, act) && AtEnd(s, i, act)
    requires Shape(Next(s, i, act))
    ensures ViewEnabled(ViewOf(s, i), ViewOf(s, Other(i)), act)
    ensures ViewNext(ViewOf(s, i), ViewOf(s, Other(i)), act)
            == (ViewOf(Next(s, i, act), i), ViewOf(Next(s, i, act), Other(i)))
  {
  }

  lemma ViewRewrite(s: State, i: Who, act: Action)
    requires Ready(s, i) && Enabled(s, i, act) && Rewrites(s.At(i).pc, act) && AtEnd(s, i, act)
    requires Shape(Next(s, i, act))
    ensures ViewEnabled(ViewOf(s, i), ViewOf(s, Other(i)), act)
    ensures ViewNext(ViewOf(s, i), ViewOf(s, Other(i)), act)
            == (ViewOf(Next(s, i, act), i), ViewOf(Next(s, i, act), Other(i)))
  {
  }

  lemma ViewRelease(s: State, i: Who, act: Action)
    requires Ready(s, i) && Enabled(s, i, act) && Releases(s.At(i).pc, act) && AtEnd(s, i, act)
    requires Shape(Next(s, i, act))
    ensures ViewEnabled(ViewOf(s, i), ViewOf(s, Other(i)), act)
    ensures ViewNext(ViewOf(s, i), ViewOf(s, Other(i)), act)
            == (ViewOf(Next(s, i, act), i), ViewOf(Next(s, i, act), Other(i)))
  {
  }

  /** A step on an end is a step of the protocol. */
  lemma StepView(s: State, i: Who, act: Action)
    requires Ready(s, i) && Enabled(s, i, act) && AtEnd(s, i, act) && Shape(Next(s, i, act))
    ensures ViewEnabled(ViewOf(s, i), ViewOf(s, Other(i)), act)
    ensures ViewNext(ViewOf(s, i), ViewOf(s, Other(i)), act)
            == (ViewOf(Next(s, i, act), i), ViewOf(Next(s, i, act), Other(i)))
  {
    var pc := s.At(i).pc;
    if Tries(pc, act) { ViewTry(s, i, act); }
    else if Settles(pc, act) { ViewSettle(s, i, act); }
    else if Rewrites(pc, act) { ViewRewrite(s, i, act); }
    else { ViewRelease(s, i, act); }
  }

  lemma IdleHeap(s: State, i: Who, act: Action)
    requires Ready(s, i) && Enabled(s, i, act) && !AtEnd(s, i, act)
    ensures s.At(i).end == Next(s, i, act).At(i).end
    ensures forall j :: s.At(j).end.Some? && s.At(j).end.value in s.heap ==>
              && s.At(j).end.value in Next(s, i, act).heap
              && Next(s, i, act).heap[s.At(j).end.value] == s.heap[s.At(j).end.value]
  {
  }

  lemma IdleControl(s: State, i: Who, act: Action)
    requires Ready(s, i) && Enabled(s, i, act) && !AtEnd(s, i, act)
    ensures var t := Next(s, i, act).At(i);
            && !Engaged(t)
            && !t.pc.CasDual? && !t.pc.AckLoss? && !t.pc.VisitDual? && !t.pc.SeverDual? && !t.pc.UnlockDual?
            && !t.pc.CompareAddr? && !t.pc.SpinForLoss? && !t.pc.RetakeLocal?
            && (t.pc.Relink? || t.pc.ClearOld? || t.pc.ReleaseOld? ==> t.op == Move)
  {
  }

  /** A step on a moved-from object leaves both ends as they are. */
  lemma StepViewIdle(s: State, i: Who, act: Action)
    requires Ready(s, i) && Enabled(s, i, act) && !AtEnd(s, i, act) && Shape(Next(s, i, act))
    ensures var v' := ViewOf(Next(s, i, act), i);
            && ViewOf(Next(s, i, act), Other(i)) == ViewOf(s, Other(i))
            && v' == ViewOf(s, i).(pc := v'.pc, op := v'.op)
            && Protocol(v', ViewOf(s, Other(i)))
  {
    IdleHeap(s, i, act);
    IdleControl(s, i, act);
    ProtocolIdles(ViewOf(s, i), ViewOf(s, Other(i)), ViewOf(Next(s, i, act), i));
  }

  lemma StepProtocol(s: State, i: Who, act: Action)
    requires Ready(s, i) && Enabled(s, i, act) && Shape(Next(s, i, act))
    ensures Protocol(ViewOf(Next(s, i, act), i), ViewOf(Next(s, i, act), Other(i)))
  {
    var v, w := ViewOf(s, i), ViewOf(s, Other(i));
    if AtEnd(s, i, act) {
      StepView(s, i, act);
      if v.pc.TryLocal? || Racing(v.pc) { ProtocolRace(v, w, act); }
      else if Holding(v.pc) { ProtocolHold(v, w, act); }
      else { ProtocolRelease(v, w, act); }
    } else {
      StepViewIdle(s, i, act);
    }
  }

  lemma ProtocolSymmetric(v: View, w: View)
    ensures Protocol(v, w) <==> Protocol(w, v)
  {
  }

  /** The invariant survives every step of either thread. */
  lemma StepInv(s: State, i: Who, act: Action)
    requires Inv(s) && Enabled(s, i, act)
    ensures Inv(Next(s, i, act))
  {
    var s' := Next(s, i, act);
    ProtocolSymmetric(ViewOf(s, First), ViewOf(s, Second));
    ReadyIsSafe(s, i);
    StepShape(s, i, act);
    BuildingOwn(s, i, act);
    BuildingOther(s, i, act);
    StepPrivate(s, i, act);
    PrivateOther(s, i, act);
    StepProtocol(s, i, act);
    ProtocolSymmetric(ViewOf(s', First), ViewOf(s', Second));
  }
}
