/** A chain of receivers built by transform, filter, tap and switch_on_error over a final receiver:
    what the stateful receivers do on each call, exceptions included, and what they mean. */
module SignalChain {
  import opened Wrappers

  datatype Signal<V, X> = Value(value: V) | Error(error: X) | Done

  /** The user's functions of a final receiver: whether the value function throws may depend on all
      it has been called with; so may the done function. */
  datatype Handler<!V, !X> = Handler(onValue: (seq<Signal<V, X>>, V) -> Option<X>,
                                     onDone: seq<Signal<V, X>> -> Option<X>)

  /** A final receiver: its `done_` and the calls its functions have had. */
  datatype Sink<V, X> = Sink(done: bool, log: seq<Signal<V, X>>)

  datatype Stage<!V, !X> =
    | Transform(f: V -> Outcome<V, X>)
    | Filter(p: V -> Outcome<bool, X>)
    | Tap(sideEffects: Handler<V, X>)
    | SwitchOnError(selector: X -> seq<Signal<V, X>>)   // what the replacement sender signals

  /** A receiver holds the next one; `done` is its `done_`, `tapped` the side-effect receiver of a tap. */
  datatype Chain<!V, !X> =
    | End(handler: Handler<V, X>, sink: Sink<V, X>)
    | Link(stage: Stage<V, X>, done: bool, tapped: Sink<V, X>, next: Chain<V, X>)

  function Length<V, X>(c: Chain<V, X>): nat {
    match c
    case End(_, _) => 0
    case Link(_, _, _, next) => 1 + Length(next)
  }

  function Build<V, X>(stages: seq<Stage<V, X>>, handler: Handler<V, X>): (c: Chain<V, X>)
    ensures Length(c) == |stages|
  {
    if stages == [] then End(handler, Sink(false, []))
    else Link(stages[0], false, Sink(false, []), Build(stages[1..], handler))
  }

  // --- Final receivers ---

  /** `value`; may throw. */
  function SinkValue<V, X>(h: Handler<V, X>, s: Sink<V, X>, v: V): (Sink<V, X>, Option<X>) {
    if s.done then (s, None)
    else
      var log := s.log + [Value(v)];
      (s.(log := log), h.onValue(log, v))
  }

  function SinkError<V, X>(s: Sink<V, X>, x: X): Sink<V, X> {
    if s.done then s else Sink(true, s.log + [Error(x)])
  }

  /** `done`; may throw. */
  function SinkDone<V, X>(h: Handler<V, X>, s: Sink<V, X>): (Sink<V, X>, Option<X>) {
    if s.done then (s, None) else (Sink(true, s.log + [Done]), h.onDone(s.log + [Done]))
  }

  /** `set_value`, `set_error` and `set_done` on a final receiver: an exception becomes an error. */
  function SetSink<V, X>(h: Handler<V, X>, s: Sink<V, X>, sig: Signal<V, X>): Sink<V, X> {
    match sig
    case Value(v) =>
      var (t, thrown) := SinkValue(h, s, v);
      if thrown.Some? then SinkError(t, thrown.value) else t
    case Error(x) => SinkError(s, x)
    case Done =>
      var (t, thrown) := SinkDone(h, s);
      if thrown.Some? then SinkError(t, thrown.value) else t
  }

  function SetSinkAll<V, X>(h: Handler<V, X>, s: Sink<V, X>, sigs: seq<Signal<V, X>>): Sink<V, X>
    decreases |sigs|
  {
    if sigs == [] then s else SetSinkAll(h, SetSink(h, s, sigs[0]), sigs[1..])
  }

  // --- Chains ---

  /** `value` of the outermost receiver; may throw. */
  function ChainValue<V, X>(c: Chain<V, X>, v: V): (r: (Chain<V, X>, Option<X>))
    ensures Length(r.0) == Length(c)
    decreases Length(c), 0, 0
  {
    match c
    case End(h, s) => var (t, thrown) := SinkValue(h, s, v); (End(h, t), thrown)
    case Link(stage, done, tapped, next) =>
      if done then (c, None)
      else
        match stage
        case Transform(f) =>
          (match f(v)
           case Returned(w) => (c.(next := Set(next, Value(w))), None)
           case Thrown(x) => (c, Some(x)))
        case Filter(p) =>
          (match p(v)
           case Returned(keep) => (if keep then c.(next := Set(next, Value(v))) else c, None)
           case Thrown(x) => (c, Some(x)))
        case Tap(h) => (c.(tapped := SetSink(h, tapped, Value(v)), next := Set(next, Value(v))), None)
        case SwitchOnError(_) => (c.(next := Set(next, Value(v))), None)
  }

  function ChainError<V, X>(c: Chain<V, X>, x: X): (r: Chain<V, X>)
    ensures Length(r) == Length(c)
    decreases Length(c), 0, 0
  {
    match c
    case End(h, s) => End(h, SinkError(s, x))
    case Link(stage, done, tapped, next) =>
      if done then c
      else
        match stage
        case SwitchOnError(selector) => c.(done := true, next := SetAll(next, selector(x)))
        case Tap(h) => c.(done := true, tapped := SetSink(h, tapped, Error(x)), next := Set(next, Error(x)))
        case _ => c.(done := true, next := Set(next, Error(x)))
  }

  /** `done` of the outermost receiver; may throw. */
  function ChainDone<V, X>(c: Chain<V, X>): (r: (Chain<V, X>, Option<X>))
    ensures Length(r.0) == Length(c)
    decreases Length(c), 0, 0
  {
    match c
    case End(h, s) => var (t, thrown) := SinkDone(h, s); (End(h, t), thrown)
    case Link(stage, done, tapped, next) =>
      if done then (c, None)
      else
        match stage
        case Tap(h) => (c.(done := true, tapped := SetSink(h, tapped, Done), next := Set(next, Done)), None)
        case _ => (c.(done := true, next := Set(next, Done)), None)
  }

  /** `set_value`, `set_error` and `set_done` on the outermost receiver. */
  function Set<V, X>(c: Chain<V, X>, sig: Signal<V, X>): (r: Chain<V, X>)
    ensures Length(r) == Length(c)
    decreases Length(c), 1, 0
  {
    match sig
    case Value(v) =>
      var (t, thrown) := ChainValue(c, v);
      if thrown.Some? then ChainError(t, thrown.value) else t
    case Error(x) => ChainError(c, x)
    case Done =>
      var (t, thrown) := ChainDone(c);
      if thrown.Some? then ChainError(t, thrown.value) else t
  }

  function SetAll<V, X>(c: Chain<V, X>, sigs: seq<Signal<V, X>>): (r: Chain<V, X>)
    ensures Length(r) == Length(c)
    decreases Length(c), 2, |sigs|
  {
    if sigs == [] then c else SetAll(Set(c, sigs[0]), sigs[1..])
  }

  /** The calls that the functions of the final receiver have had. */
  function Log<V, X>(c: Chain<V, X>): seq<Signal<V, X>> {
    match c
    case End(_, s) => s.log
    case Link(_, _, _, next) => Log(next)
  }

  /** The calls that the side effects of the tap at position `j` have had. */
  function TapLog<V, X>(c: Chain<V, X>, j: nat): seq<Signal<V, X>>
    requires j < Length(c)
  {
    if j == 0 then c.tapped.log else TapLog(c.next, j - 1)
  }

  // --- What a chain means ---

  /** The stream a stage makes of a stream: it stops at the first terminal, and a throwing function
      ends it with an error. */
  function Meaning<V, X>(stage: Stage<V, X>, sigs: seq<Signal<V, X>>): seq<Signal<V, X>>
    decreases |sigs|
  {
    if sigs == [] then []
    else match sigs[0]
      case Value(v) =>
        (match stage
         case Transform(f) =>
           (match f(v)
            case Returned(w) => [Value(w)] + Meaning(stage, sigs[1..])
            case Thrown(x) => [Error(x)])
         case Filter(p) =>
           (match p(v)
            case Returned(keep) => (if keep then [Value(v)] else []) + Meaning(stage, sigs[1..])
            case Thrown(x) => [Error(x)])
         case _ => [Value(v)] + Meaning(stage, sigs[1..]))
      case Error(x) => if stage.SwitchOnError? then stage.selector(x) else [Error(x)]
      case Done => [Done]
  }

  /** The stream a sequence of stages makes, the first stage first. */
  function Stream<V, X>(stages: seq<Stage<V, X>>, sigs: seq<Signal<V, X>>): seq<Signal<V, X>>
    decreases |stages|
  {
    if stages == [] then sigs else Stream(stages[1..], Meaning(stages[0], sigs))
  }

  /** What the functions of a final receiver are called with: it stops at the first terminal, and a
      throwing value function is called no more. */
  function Calls<V, X>(h: Handler<V, X>, log: seq<Signal<V, X>>, sigs: seq<Signal<V, X>>): seq<Signal<V, X>>
    decreases |sigs|
  {
    if sigs == [] then log
    else match sigs[0]
      case Value(v) =>
        var called := log + [Value(v)];
        (match h.onValue(called, v)
         case None => Calls(h, called, sigs[1..])
         case Some(x) => called + [Error(x)])
      case Error(_) => log + [sigs[0]]
      case Done => log + [sigs[0]]
  }
}
