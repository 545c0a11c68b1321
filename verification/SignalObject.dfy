/** The receivers as the code runs them: each call updates `done_` flags in place and forwards to the
    next receiver. An exception leaves a method through its `thrown` result. Each method is proved
    against the function of module SignalChain with the same role. */
module SignalObject {
  import opened Wrappers
  import opened SignalChain
  import opened SignalTheorems

  ghost function Assemble<V, X>(stages: seq<Stage<V, X>>, h: Handler<V, X>, dones: seq<bool>, taps: seq<Sink<V, X>>,
                                sink: Sink<V, X>, i: nat): (c: Chain<V, X>)
    requires |stages| == |dones| == |taps| && i <= |stages|
    ensures Length(c) == |stages| - i
    decreases |stages| - i
  {
    if i == |stages| then End(h, sink)
    else Link(stages[i], dones[i], taps[i], Assemble(stages, h, dones, taps, sink, i + 1))
  }

  /** The state of earlier receivers does not show in the receivers from position `j` on. */
  lemma {:induction false} AssembleFrame<V, X>(stages: seq<Stage<V, X>>, h: Handler<V, X>,
                                               dones: seq<bool>, taps: seq<Sink<V, X>>,
                                               dones': seq<bool>, taps': seq<Sink<V, X>>, sink: Sink<V, X>, j: nat)
    requires |stages| == |dones| == |taps| == |dones'| == |taps'| && j <= |stages|
    requires forall k :: j <= k < |stages| ==> dones'[k] == dones[k] && taps'[k] == taps[k]
    ensures Assemble(stages, h, dones', taps', sink, j) == Assemble(stages, h, dones, taps, sink, j)
    decreases |stages| - j
  {
    if j < |stages| { AssembleFrame(stages, h, dones, taps, dones', taps', sink, j + 1); }
  }

  lemma {:induction false} AssembleFresh<V, X>(stages: seq<Stage<V, X>>, h: Handler<V, X>, dones: seq<bool>,
                                               taps: seq<Sink<V, X>>, i: nat)
    requires |stages| == |dones| == |taps| && i <= |stages|
    requires forall k :: 0 <= k < |stages| ==> !dones[k] && taps[k] == Sink(false, [])
    ensures Assemble(stages, h, dones, taps, Sink(false, []), i) == Build(stages[i..], h)
    decreases |stages| - i
  {
    if i < |stages| {
      AssembleFresh(stages, h, dones, taps, i + 1);
      assert stages[i..][1..] == stages[i + 1..];
    }
  }

  class Receivers<V, X> {
    const stages: seq<Stage<V, X>>
    const handler: Handler<V, X>
    var dones: seq<bool>
    var taps: seq<Sink<V, X>>
    var sink: Sink<V, X>

    ghost predicate Valid()
      reads this
    {
      |stages| == |dones| == |taps|
    }

    /** The chain from the receiver at position `i` on. */
    ghost function Model(i: nat): Chain<V, X>
      requires Valid() && i <= |stages|
      reads this
    {
      Assemble(stages, handler, dones, taps, sink, i)
    }

    /** Nothing before position `i` has changed. */
    twostate predicate Kept(i: nat)
      reads this
    {
      Valid() && |dones| == |old(dones)| && i <= |dones| && |taps| == |old(taps)|
      && (forall k :: 0 <= k < i ==> dones[k] == old(dones)[k] && taps[k] == old(taps)[k])
    }

    constructor (stages: seq<Stage<V, X>>, handler: Handler<V, X>)
      ensures this.stages == stages && this.handler == handler && Valid() && Model(0) == Build(stages, handler)
    {
      this.stages, this.handler := stages, handler;
      dones, taps, sink := seq(|stages|, i => false), seq(|stages|, i => Sink(false, [])), Sink(false, []);
      new;
      AssembleFresh(stages, handler, dones, taps, 0);
      assert stages[0..] == stages;
    }

    /** The `set_value`, `set_error` and `set_done` customization points. */
    method Set(i: nat, sig: Signal<V, X>)
      requires Valid() && i <= |stages|
      modifies `dones, `taps, `sink
      ensures Valid() && Kept(i) && Model(i) == SignalChain.Set(old(Model(i)), sig)
      decreases |stages| - i, 1, 0
    {
      var thrown: Option<X> := None;
      match sig {
        case Value(v) => thrown := Value(i, v);
        case Error(x) => Error(i, x);
        case Done => thrown := Done(i);
      }
      if thrown.Some? { Error(i, thrown.value); }
    }

    /** A sender that signals `sigs` in turn. */
    method SetAll(i: nat, sigs: seq<Signal<V, X>>)
      requires Valid() && i <= |stages|
      modifies `dones, `taps, `sink
      ensures Valid() && Kept(i) && Model(i) == SignalChain.SetAll(old(Model(i)), sigs)
      decreases |stages| - i, 2, 0
    {
      ghost var c := Model(i);
      var k := 0;
      assert sigs[0..] == sigs;
      while k < |sigs|
        invariant 0 <= k <= |sigs| && Valid() && Kept(i)
        invariant SignalChain.SetAll(c, sigs) == SignalChain.SetAll(Model(i), sigs[k..])
      {
        assert sigs[k..][0] == sigs[k] && sigs[k..][1..] == sigs[k + 1..];
        Set(i, sigs[k]);
        k := k + 1;
      }
    }

    /** The side effects of the tap at position `i`. */
    method SetTapped(i: nat, sig: Signal<V, X>)
      requires Valid() && i < |stages| && stages[i].Tap?
      modifies `taps
      ensures Valid() && taps == old(taps)[i := SetSink(stages[i].sideEffects, old(taps)[i], sig)]
      ensures Kept(i)
    {
      taps := taps[i := SetSink(stages[i].sideEffects, taps[i], sig)];
    }

    method Value(i: nat, v: V) returns (thrown: Option<X>)
      requires Valid() && i <= |stages|
      modifies `dones, `taps, `sink
      ensures Valid() && Kept(i) && (Model(i), thrown) == ChainValue(old(Model(i)), v)
      decreases |stages| - i, 0, 0
    {
      thrown := None;
      if i == |stages| {
        if sink.done { return; }
        sink := sink.(log := sink.log + [SignalChain.Value(v)]);
        thrown := handler.onValue(sink.log, v);
        return;
      }
      if dones[i] { return; }
      match stages[i] {
        case Transform(f) =>
          match f(v) {
            case Returned(w) => Set(i + 1, SignalChain.Value(w));
            case Thrown(x) => thrown := Some(x);
          }
        case Filter(p) =>
          match p(v) {
            case Returned(keep) => if keep { Set(i + 1, SignalChain.Value(v)); }
            case Thrown(x) => thrown := Some(x);
          }
        case Tap(h) =>
          SetTapped(i, SignalChain.Value(v));
          AssembleFrame(stages, handler, old(dones), old(taps), dones, taps, sink, i + 1);
          Set(i + 1, SignalChain.Value(v));
        case SwitchOnError(_) =>
          Set(i + 1, SignalChain.Value(v));
      }
    }

    method Error(i: nat, x: X)
      requires Valid() && i <= |stages|
      modifies `dones, `taps, `sink
      ensures Valid() && Kept(i) && Model(i) == ChainError(old(Model(i)), x)
      decreases |stages| - i, 0, 0
    {
      if i == |stages| {
        if !sink.done { sink := Sink(true, sink.log + [SignalChain.Error(x)]); }
        return;
      }
      if dones[i] { return; }
      dones := dones[i := true];
      AssembleFrame(stages, handler, old(dones), old(taps), dones, taps, sink, i + 1);
      match stages[i] {
        case SwitchOnError(selector) =>
          SetAll(i + 1, selector(x));
        case Tap(h) =>
          SetTapped(i, SignalChain.Error(x));
          AssembleFrame(stages, handler, old(dones), old(taps), dones, taps, sink, i + 1);
          Set(i + 1, SignalChain.Error(x));
        case _ =>
          Set(i + 1, SignalChain.Error(x));
      }
    }

    method Done(i: nat) returns (thrown: Option<X>)
      requires Valid() && i <= |stages|
      modifies `dones, `taps, `sink
      ensures Valid() && Kept(i) && (Model(i), thrown) == ChainDone(old(Model(i)))
      decreases |stages| - i, 0, 0
    {
      thrown := None;
      if i == |stages| {
        if sink.done { return; }
        sink := Sink(true, sink.log + [SignalChain.Done]);
        thrown := handler.onDone(sink.log);
        return;
      }
      if dones[i] { return; }
      dones := dones[i := true];
      if stages[i].Tap? {
        SetTapped(i, SignalChain.Done);
      }
      AssembleFrame(stages, handler, old(dones), old(taps), dones, taps, sink, i + 1);
      Set(i + 1, SignalChain.Done);
    }
  }

  /** A sender signals anything at all through a new chain. */
  method Submit<V, X>(stages: seq<Stage<V, X>>, handler: Handler<V, X>, sigs: seq<Signal<V, X>>)
    returns (calls: seq<Signal<V, X>>)
    ensures calls == Calls(handler, [], Stream(stages, sigs))
  {
    var chain := new Receivers(stages, handler);
    chain.SetAll(0, sigs);
    ChainComputes(stages, handler, sigs);
    LogIsSink(stages, handler, chain.dones, chain.taps, chain.sink, 0);
    calls := chain.sink.log;
  }

  lemma {:induction false} LogIsSink<V, X>(stages: seq<Stage<V, X>>, h: Handler<V, X>,
                                           dones: seq<bool>, taps: seq<Sink<V, X>>,
                                           sink: Sink<V, X>, i: nat)
    requires |stages| == |dones| == |taps| && i <= |stages|
    ensures Log(Assemble(stages, h, dones, taps, sink, i)) == sink.log
    decreases |stages| - i
  {
    if i < |stages| { LogIsSink(stages, h, dones, taps, sink, i + 1); }
  }
}
