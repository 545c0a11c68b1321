/** The meaning of each stage, and of a final receiver, spelled out on whole streams: which values are
    passed on, what ends them, and what a throwing function leaves behind. */
module SignalClosedForms {
  import opened Wrappers
  import opened SignalChain
  import opened SignalTheorems

  /** What follows the values of a stream: nothing, or a terminal and calls that come too late. */
  predicate Tail<V, X>(sigs: seq<Signal<V, X>>) {
    sigs == [] || !sigs[0].Value?
  }

  /** The terminal that counts. */
  function Ending<V, X>(tail: seq<Signal<V, X>>): seq<Signal<V, X>> {
    tail[..if tail == [] then 0 else 1]
  }

  lemma ValuesCons<V, X>(vs: seq<V>, tail: seq<Signal<V, X>>)
    requires vs != []
    ensures var sigs := Values(vs) + tail; sigs[0] == Value(vs[0]) && sigs[1..] == Values(vs[1..]) + tail
    ensures Values<V, X>(vs) == [Value(vs[0])] + Values(vs[1..])
  {
  }

  // --- transform ---

  lemma {:induction false} MapMeaning<V, X>(f: V -> Outcome<V, X>, vs: seq<V>, tail: seq<Signal<V, X>>)
    requires Tail(tail) && forall j :: 0 <= j < |vs| ==> f(vs[j]).Returned?
    ensures Meaning(Transform(f), Values(vs) + tail) == Values(Images(f, vs, |vs|)) + Ending(tail)
  {
    if vs == [] {
      assert Values<V, X>(vs) + tail == tail;
      assert Values<V, X>(Images(f, vs, 0)) + Ending(tail) == Ending(tail);
    } else {
      ValuesCons(vs, tail);
      MapMeaning(f, vs[1..], tail);
      assert Images(f, vs, |vs|) == [f(vs[0]).value] + Images(f, vs[1..], |vs| - 1);
      ValuesCons(Images(f, vs, |vs|), Ending(tail));
    }
  }

  // --- filter ---

  /** The values the predicate keeps, in order. */
  function Kept<V, X>(p: V -> Outcome<bool, X>, vs: seq<V>): seq<V>
    requires forall j :: 0 <= j < |vs| ==> p(vs[j]).Returned?
  {
    if vs == [] then [] else (if p(vs[0]).value then [vs[0]] else []) + Kept(p, vs[1..])
  }

  lemma {:induction false} FilterMeaning<V, X>(p: V -> Outcome<bool, X>, vs: seq<V>, tail: seq<Signal<V, X>>)
    requires Tail(tail) && forall j :: 0 <= j < |vs| ==> p(vs[j]).Returned?
    ensures Meaning(Filter(p), Values(vs) + tail) == Values(Kept(p, vs)) + Ending(tail)
  {
    if vs == [] {
      assert Values<V, X>(vs) + tail == tail;
      assert Values<V, X>(Kept(p, vs)) + Ending(tail) == Ending(tail);
    } else {
      ValuesCons(vs, tail);
      FilterMeaning(p, vs[1..], tail);
      if p(vs[0]).value { ValuesCons(Kept(p, vs), Ending(tail)); }
    }
  }

  lemma {:induction false} FilterThrowMeaning<V, X>(p: V -> Outcome<bool, X>, vs: seq<V>, v: V, x: X,
                                                    rest: seq<Signal<V, X>>)
    requires p(v) == Thrown(x) && forall j :: 0 <= j < |vs| ==> p(vs[j]).Returned?
    ensures Meaning(Filter(p), Values(vs) + [Value(v)] + rest) == Values(Kept(p, vs)) + [Error(x)]
  {
    var sigs: seq<Signal<V, X>> := Values(vs) + [Value(v)] + rest;
    if vs == [] {
      assert sigs[0] == Value(v);
    } else {
      ValuesCons(vs, [Value(v)] + rest);
      assert sigs == Values(vs) + ([Value(v)] + rest);
      assert sigs[1..] == Values(vs[1..]) + [Value(v)] + rest;
      FilterThrowMeaning(p, vs[1..], v, x, rest);
      if p(vs[0]).value { ValuesCons(Kept(p, vs), [Error(x)]); }
    }
  }

  // --- final receivers ---

  /** The value function returns on each of the values, called one after the other. */
  predicate Accepts<V, X>(h: Handler<V, X>, log: seq<Signal<V, X>>, vs: seq<V>)
    decreases |vs|
  {
    vs == [] || (h.onValue(log + [Value(vs[0])], vs[0]).None? && Accepts(h, log + [Value(vs[0])], vs[1..]))
  }

  lemma {:induction false} AcceptedCalls<V, X>(h: Handler<V, X>, log: seq<Signal<V, X>>, vs: seq<V>,
                                               tail: seq<Signal<V, X>>)
    requires Accepts(h, log, vs) && Tail(tail)
    ensures Calls(h, log, Values(vs) + tail) == log + Values(vs) + Ending(tail)
    decreases |vs|
  {
    if vs == [] {
      assert Values<V, X>(vs) + tail == tail;
    } else {
      ValuesCons(vs, tail);
      AcceptedCalls(h, log + [Value(vs[0])], vs[1..], tail);
    }
  }

  lemma {:induction false} ThrowingCalls<V, X>(h: Handler<V, X>, log: seq<Signal<V, X>>, vs: seq<V>, v: V, x: X,
                                               rest: seq<Signal<V, X>>)
    requires Accepts(h, log, vs) && h.onValue(log + Values(vs) + [Value(v)], v) == Some(x)
    ensures Calls(h, log, Values(vs) + [Value(v)] + rest) == log + Values(vs) + [Value(v), Error(x)]
    decreases |vs|
  {
    var sigs: seq<Signal<V, X>> := Values(vs) + [Value(v)] + rest;
    if vs == [] {
      assert log + Values(vs) + [Value(v)] == log + [Value(v)];
      assert sigs[0] == Value(v);
    } else {
      ValuesCons(vs, [Value(v)] + rest);
      assert sigs == Values(vs) + ([Value(v)] + rest);
      assert sigs[1..] == Values(vs[1..]) + [Value(v)] + rest;
      assert log + Values(vs) + [Value(v)] == (log + [Value(vs[0])]) + Values(vs[1..]) + [Value(v)];
      ThrowingCalls(h, log + [Value(vs[0])], vs[1..], v, x, rest);
    }
  }

  // --- Anywhere in a chain ---

  lemma StageAnywhere<V, X>(pre: seq<Stage<V, X>>, stage: Stage<V, X>, post: seq<Stage<V, X>>, h: Handler<V, X>,
                            sigs: seq<Signal<V, X>>)
    ensures Log(SetAll(Build(pre + [stage] + post, h), sigs))
            == Calls(h, [], Stream(post, Meaning(stage, Stream(pre, sigs))))
  {
    ChainComputes(pre + [stage] + post, h, sigs);
    StreamMiddle(pre, [stage], post, sigs);
    StreamOne(stage, Stream(pre, sigs));
  }

  /** A transform whose function returns on all values that reach it passes on their images, in order, and
      then the terminal. */
  lemma TransformMaps<V, X>(pre: seq<Stage<V, X>>, f: V -> Outcome<V, X>, post: seq<Stage<V, X>>, h: Handler<V, X>,
                            sigs: seq<Signal<V, X>>, vs: seq<V>, tail: seq<Signal<V, X>>)
    requires Stream(pre, sigs) == Values(vs) + tail && Tail(tail)
    requires forall j :: 0 <= j < |vs| ==> f(vs[j]).Returned?
    ensures Log(SetAll(Build(pre + [Transform(f)] + post, h), sigs))
            == Calls(h, [], Stream(post, Values(Images(f, vs, |vs|)) + Ending(tail)))
  {
    StageAnywhere(pre, Transform(f), post, h, sigs);
    MapMeaning(f, vs, tail);
  }

  /** A transform whose function throws first at `v` passes on the images of the values before it and the
      exception as an error, and nothing after. */
  lemma TransformThrows<V, X>(pre: seq<Stage<V, X>>, f: V -> Outcome<V, X>, post: seq<Stage<V, X>>, h: Handler<V, X>,
                              sigs: seq<Signal<V, X>>, vs: seq<V>, k: nat, x: X, rest: seq<Signal<V, X>>)
    requires Stream(pre, sigs) == Values(vs) + rest
    requires k < |vs| && f(vs[k]) == Thrown(x) && forall j :: 0 <= j < k ==> f(vs[j]).Returned?
    ensures Log(SetAll(Build(pre + [Transform(f)] + post, h), sigs))
            == Calls(h, [], Stream(post, Values(Images(f, vs, k)) + [Error(x)]))
  {
    StageAnywhere(pre, Transform(f), post, h, sigs);
    ThrowMeaning(f, vs, x, rest, k);
  }

  /** A filter passes on exactly the values its predicate keeps, in order, and then the terminal. */
  lemma FilterSelects<V, X>(pre: seq<Stage<V, X>>, p: V -> Outcome<bool, X>, post: seq<Stage<V, X>>, h: Handler<V, X>,
                            sigs: seq<Signal<V, X>>, vs: seq<V>, tail: seq<Signal<V, X>>)
    requires Stream(pre, sigs) == Values(vs) + tail && Tail(tail)
    requires forall j :: 0 <= j < |vs| ==> p(vs[j]).Returned?
    ensures Log(SetAll(Build(pre + [Filter(p)] + post, h), sigs))
            == Calls(h, [], Stream(post, Values(Kept(p, vs)) + Ending(tail)))
  {
    StageAnywhere(pre, Filter(p), post, h, sigs);
    FilterMeaning(p, vs, tail);
  }

  /** A filter whose predicate throws at `v` passes on what it kept before and the exception as an error. */
  lemma FilterThrows<V, X>(pre: seq<Stage<V, X>>, p: V -> Outcome<bool, X>, post: seq<Stage<V, X>>, h: Handler<V, X>,
                           sigs: seq<Signal<V, X>>, vs: seq<V>, v: V, x: X, rest: seq<Signal<V, X>>)
    requires Stream(pre, sigs) == Values(vs) + [Value(v)] + rest
    requires p(v) == Thrown(x) && forall j :: 0 <= j < |vs| ==> p(vs[j]).Returned?
    ensures Log(SetAll(Build(pre + [Filter(p)] + post, h), sigs))
            == Calls(h, [], Stream(post, Values(Kept(p, vs)) + [Error(x)]))
  {
    StageAnywhere(pre, Filter(p), post, h, sigs);
    FilterThrowMeaning(p, vs, v, x, rest);
  }

  lemma {:induction false} SwitchKeepsMeaning<V, X>(selector: X -> seq<Signal<V, X>>, vs: seq<V>,
                                                    tail: seq<Signal<V, X>>)
    requires tail == [] || tail[0].Done?
    ensures Meaning(SwitchOnError(selector), Values(vs) + tail) == Values(vs) + Ending(tail)
  {
    if vs == [] {
      assert Values<V, X>(vs) + tail == tail;
      assert Values<V, X>(vs) + Ending(tail) == Ending(tail);
    } else {
      ValuesCons(vs, tail);
      SwitchKeepsMeaning(selector, vs[1..], tail);
    }
  }

  /** Where no error arrives, switch_on_error passes on all values and done. */
  lemma SwitchKeeps<V, X>(pre: seq<Stage<V, X>>, selector: X -> seq<Signal<V, X>>, post: seq<Stage<V, X>>,
                          h: Handler<V, X>, sigs: seq<Signal<V, X>>, vs: seq<V>, tail: seq<Signal<V, X>>)
    requires Stream(pre, sigs) == Values(vs) + tail && (tail == [] || tail[0].Done?)
    ensures Log(SetAll(Build(pre + [SwitchOnError(selector)] + post, h), sigs))
            == Calls(h, [], Stream(post, Values(vs) + Ending(tail)))
  {
    StageAnywhere(pre, SwitchOnError(selector), post, h, sigs);
    SwitchKeepsMeaning(selector, vs, tail);
  }

  /** A tap's side effects are called with every value that reaches the tap, and then the terminal. */
  lemma TapSeesAll<V, X>(stages: seq<Stage<V, X>>, h: Handler<V, X>, sigs: seq<Signal<V, X>>, j: nat, vs: seq<V>,
                         tail: seq<Signal<V, X>>)
    requires j < |stages| && stages[j].Tap? && Accepts(stages[j].sideEffects, [], vs)
    requires Stream(stages[..j], sigs) == Values(vs) + tail && Tail(tail)
    ensures TapLog(SetAll(Build(stages, h), sigs), j) == Values(vs) + Ending(tail)
  {
    TapComputes(stages, h, sigs, j);
    AcceptedCalls(stages[j].sideEffects, [], vs, tail);
    assert [] + Values(vs) + Ending(tail) == Values(vs) + Ending(tail);
  }

  /** At the end of a chain the value function is called with every value that gets there, and then the
      error or done function with the terminal. */
  lemma EndSeesAll<V, X>(stages: seq<Stage<V, X>>, h: Handler<V, X>, sigs: seq<Signal<V, X>>, vs: seq<V>,
                         tail: seq<Signal<V, X>>)
    requires Stream(stages, sigs) == Values(vs) + tail && Tail(tail) && Accepts(h, [], vs)
    ensures Log(SetAll(Build(stages, h), sigs)) == Values(vs) + Ending(tail)
  {
    ChainComputes(stages, h, sigs);
    AcceptedCalls(h, [], vs, tail);
    assert [] + Values(vs) + Ending(tail) == Values(vs) + Ending(tail);
  }

  /** If the value function throws at `v`, the error function gets that exception and nothing comes after. */
  lemma EndThrows<V, X>(stages: seq<Stage<V, X>>, h: Handler<V, X>, sigs: seq<Signal<V, X>>, vs: seq<V>, v: V, x: X,
                        rest: seq<Signal<V, X>>)
    requires Stream(stages, sigs) == Values(vs) + [Value(v)] + rest
    requires Accepts(h, [], vs) && h.onValue(Values(vs) + [Value(v)], v) == Some(x)
    ensures Log(SetAll(Build(stages, h), sigs)) == Values(vs) + [Value(v), Error(x)]
  {
    ChainComputes(stages, h, sigs);
    assert [] + Values<V, X>(vs) + [Value(v)] == Values<V, X>(vs) + [Value(v)];
    ThrowingCalls(h, [], vs, v, x, rest);
    assert [] + Values(vs) + [Value(v), Error(x)] == Values(vs) + [Value(v), Error(x)];
  }
}
