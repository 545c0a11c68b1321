/** The stateful receivers compute the meaning of their chain; laws of the operators follow. */
module SignalTheorems {
  import opened Wrappers
  import opened SignalChain

  // --- Receivers against their meaning ---

  lemma {:induction false} DoneSinkIgnores<V, X>(h: Handler<V, X>, s: Sink<V, X>, sigs: seq<Signal<V, X>>)
    requires s.done
    ensures SetSinkAll(h, s, sigs) == s
    decreases |sigs|
  {
    if sigs != [] { DoneSinkIgnores(h, s, sigs[1..]); }
  }

  lemma {:induction false} SinkCalls<V, X>(h: Handler<V, X>, s: Sink<V, X>, sigs: seq<Signal<V, X>>)
    requires !s.done
    ensures SetSinkAll(h, s, sigs).log == Calls(h, s.log, sigs)
    decreases |sigs|
  {
    if sigs != [] {
      var t := SetSink(h, s, sigs[0]);
      if t.done { DoneSinkIgnores(h, t, sigs[1..]); } else { SinkCalls(h, t, sigs[1..]); }
    }
  }

  lemma {:induction false} EndSetAll<V, X>(h: Handler<V, X>, s: Sink<V, X>, sigs: seq<Signal<V, X>>)
    ensures SetAll(End(h, s), sigs) == End(h, SetSinkAll(h, s, sigs))
    decreases |sigs|
  {
    if sigs != [] {
      assert Set(End(h, s), sigs[0]) == End(h, SetSink(h, s, sigs[0])) by {
        match sigs[0]
        case Value(v) => assert ChainValue(End(h, s), v).0 == End(h, SinkValue(h, s, v).0);
        case Error(x) => assert ChainError(End(h, s), x) == End(h, SinkError(s, x));
        case Done => assert ChainDone(End(h, s)).0 == End(h, SinkDone(h, s).0);
      }
      EndSetAll(h, SetSink(h, s, sigs[0]), sigs[1..]);
    }
  }

  lemma {:induction false} DoneLinkIgnores<V, X>(c: Chain<V, X>, sigs: seq<Signal<V, X>>)
    requires c.Link? && c.done
    ensures SetAll(c, sigs) == c
    decreases |sigs|
  {
    if sigs != [] {
      assert Set(c, sigs[0]) == c by {
        match sigs[0]
        case Value(v) => assert ChainValue(c, v) == (c, None);
        case Error(x) => assert ChainError(c, x) == c;
        case Done => assert ChainDone(c) == (c, None);
      }
      DoneLinkIgnores(c, sigs[1..]);
    }
  }

  /** The signals that reach the functions of a receiver: up to and including the first terminal. */
  function Truncate<V, X>(sigs: seq<Signal<V, X>>): seq<Signal<V, X>>
    decreases |sigs|
  {
    if sigs == [] then [] else if sigs[0].Value? then [sigs[0]] + Truncate(sigs[1..]) else [sigs[0]]
  }

  /** The signals after which the receiver of a stage ignores all others. */
  predicate Closes<V, X>(stage: Stage<V, X>, sig: Signal<V, X>) {
    match sig
    case Value(v) => (stage.Transform? && stage.f(v).Thrown?) || (stage.Filter? && stage.p(v).Thrown?)
    case _ => true
  }

  /** What the stage passes on for one value that does not close it. */
  function Passed<V, X>(stage: Stage<V, X>, v: V): seq<Signal<V, X>>
    requires !Closes(stage, Value(v))
  {
    match stage
    case Transform(f) => [Value(f(v).value)]
    case Filter(p) => if p(v).value then [Value(v)] else []
    case _ => [Value(v)]
  }

  lemma MeaningCons<V, X>(stage: Stage<V, X>, sigs: seq<Signal<V, X>>)
    requires sigs != []
    ensures Meaning(stage, sigs) == Meaning(stage, [sigs[0]])
                                    + if Closes(stage, sigs[0]) then [] else Meaning(stage, sigs[1..])
  {
    assert [sigs[0]][1..] == [];
    if !Closes(stage, sigs[0]) {
      var out := Passed(stage, sigs[0].value);
      assert Meaning(stage, [sigs[0]]) == out + [] == out;
      assert Meaning(stage, sigs) == out + Meaning(stage, sigs[1..]);
    }
  }

  lemma {:induction false} SetAllAppend<V, X>(c: Chain<V, X>, a: seq<Signal<V, X>>, b: seq<Signal<V, X>>)
    ensures SetAll(c, a + b) == SetAll(SetAll(c, a), b)
    decreases |a|
  {
    if a == [] {
      assert a + b == b;
    } else {
      assert (a + b)[1..] == a[1..] + b;
      SetAllAppend(Set(c, a[0]), a[1..], b);
    }
  }

  lemma LinkSet<V, X>(c: Chain<V, X>, sig: Signal<V, X>)
    requires c.Link? && !c.done
    ensures var d := Set(c, sig);
            && d.Link? && d.stage == c.stage && d.done == Closes(c.stage, sig)
            && d.next == SetAll(c.next, Meaning(c.stage, [sig]))
            && (c.stage.Tap? ==> d.tapped == SetSink(c.stage.sideEffects, c.tapped, sig))
  {
  }

  /** A receiver passes on the meaning of its stage; a tap's side effects get what reached it. */
  lemma {:induction false} LinkSetAll<V, X>(c: Chain<V, X>, sigs: seq<Signal<V, X>>)
    requires c.Link? && !c.done
    ensures var r := SetAll(c, sigs);
            && r.Link? && r.stage == c.stage && r.next == SetAll(c.next, Meaning(c.stage, sigs))
            && (c.stage.Tap? ==> r.tapped == SetSinkAll(c.stage.sideEffects, c.tapped, Truncate(sigs)))
    decreases |sigs|
  {
    if sigs != [] {
      var d := Set(c, sigs[0]);
      LinkSet(c, sigs[0]);
      MeaningCons(c.stage, sigs);
      SetAllAppend(c.next, Meaning(c.stage, [sigs[0]]), Meaning(c.stage, sigs[1..]));
      if d.done { DoneLinkIgnores(d, sigs[1..]); } else { LinkSetAll(d, sigs[1..]); }
    }
  }

  // --- Chains against their meaning ---

  lemma {:induction false} CallsTruncate<V, X>(h: Handler<V, X>, log: seq<Signal<V, X>>, sigs: seq<Signal<V, X>>)
    ensures Calls(h, log, Truncate(sigs)) == Calls(h, log, sigs)
    decreases |sigs|
  {
    if sigs != [] && sigs[0].Value? {
      var t := Truncate(sigs[1..]);
      assert Truncate(sigs)[0] == sigs[0] && Truncate(sigs)[1..] == t;
      CallsTruncate(h, log + [sigs[0]], sigs[1..]);
    }
  }

  /** For every sequence of calls, calls after a terminal included, the functions at the end of the
      chain are called with exactly what the meaning of the chain says. */
  lemma {:induction false} ChainComputes<V, X>(stages: seq<Stage<V, X>>, h: Handler<V, X>, sigs: seq<Signal<V, X>>)
    ensures Log(SetAll(Build(stages, h), sigs)) == Calls(h, [], Stream(stages, sigs))
    decreases |stages|
  {
    var c := Build(stages, h);
    if stages == [] {
      EndSetAll(h, c.sink, sigs);
      SinkCalls(h, c.sink, sigs);
    } else {
      LinkSetAll(c, sigs);
      ChainComputes(stages[1..], h, Meaning(stages[0], sigs));
    }
  }

  /** The side effects of a tap are called with the meaning of the stages before it. */
  lemma {:induction false} TapComputes<V, X>(stages: seq<Stage<V, X>>, h: Handler<V, X>,
                                             sigs: seq<Signal<V, X>>, j: nat)
    requires j < |stages| && stages[j].Tap?
    ensures TapLog(SetAll(Build(stages, h), sigs), j) == Calls(stages[j].sideEffects, [], Stream(stages[..j], sigs))
    decreases |stages|
  {
    var c := Build(stages, h);
    LinkSetAll(c, sigs);
    if j == 0 {
      SinkCalls(stages[0].sideEffects, c.tapped, Truncate(sigs));
      CallsTruncate(stages[0].sideEffects, [], sigs);
    } else {
      TapComputes(stages[1..], h, Meaning(stages[0], sigs), j - 1);
      assert stages[..j][1..] == stages[1..][..j - 1];
    }
  }

  lemma {:induction false} CallsShape<V, X>(h: Handler<V, X>, log: seq<Signal<V, X>>, sigs: seq<Signal<V, X>>)
    requires forall k :: 0 <= k < |log| ==> log[k].Value?
    ensures var r := Calls(h, log, sigs);
            |log| <= |r| && r[..|log|] == log && forall k :: 0 <= k < |r| - 1 ==> r[k].Value?
    decreases |sigs|
  {
    if sigs != [] && sigs[0].Value? && h.onValue(log + [sigs[0]], sigs[0].value).None? {
      CallsShape(h, log + [sigs[0]], sigs[1..]);
    }
  }

  /** Whatever is signalled, the functions at the end see values and then at most one terminal. */
  lemma OneTerminal<V, X>(stages: seq<Stage<V, X>>, h: Handler<V, X>, sigs: seq<Signal<V, X>>)
    ensures var log := Log(SetAll(Build(stages, h), sigs)); forall k :: 0 <= k < |log| - 1 ==> log[k].Value?
  {
    ChainComputes(stages, h, sigs);
    CallsShape(h, [], Stream(stages, sigs));
  }

  // --- Laws ---

  function Compose<V, X>(f: V -> Outcome<V, X>, g: V -> Outcome<V, X>): V -> Outcome<V, X> {
    v => match f(v) { case Returned(w) => g(w) case Thrown(x) => Thrown(x) }
  }

  function Both<V, X>(p: V -> Outcome<bool, X>, q: V -> Outcome<bool, X>): V -> Outcome<bool, X> {
    v => match p(v) { case Returned(keep) => if keep then q(v) else Returned(false) case Thrown(x) => Thrown(x) }
  }

  lemma {:induction false} TransformFusion<V, X>(f: V -> Outcome<V, X>, g: V -> Outcome<V, X>, sigs: seq<Signal<V, X>>)
    ensures Meaning(Transform(g), Meaning(Transform(f), sigs)) == Meaning(Transform(Compose(f, g)), sigs)
    decreases |sigs|
  {
    if sigs != [] {
      TransformFusion(f, g, sigs[1..]);
      MeaningCons(Transform(f), sigs);
      if sigs[0].Value? && f(sigs[0].value).Returned? {
        var m := Meaning(Transform(f), sigs);
        assert m[0] == Value(f(sigs[0].value).value) && m[1..] == Meaning(Transform(f), sigs[1..]);
      }
    }
  }

  lemma {:induction false} FilterFusion<V, X>(p: V -> Outcome<bool, X>, q: V -> Outcome<bool, X>,
                                              sigs: seq<Signal<V, X>>)
    ensures Meaning(Filter(q), Meaning(Filter(p), sigs)) == Meaning(Filter(Both(p, q)), sigs)
    decreases |sigs|
  {
    if sigs != [] {
      FilterFusion(p, q, sigs[1..]);
      var m := Meaning(Filter(p), sigs);
      if sigs[0].Value? && p(sigs[0].value) == Returned(true) {
        assert m[0] == sigs[0] && m[1..] == Meaning(Filter(p), sigs[1..]);
      } else if sigs[0].Value? && p(sigs[0].value) == Returned(false) {
        assert m == Meaning(Filter(p), sigs[1..]);
      }
    }
  }

  lemma {:induction false} TapMeaning<V, X>(h: Handler<V, X>, sigs: seq<Signal<V, X>>)
    ensures Meaning(Tap(h), sigs) == Truncate(sigs)
    decreases |sigs|
  {
    if sigs != [] { TapMeaning(h, sigs[1..]); }
  }

  lemma {:induction false} MeaningTruncate<V, X>(stage: Stage<V, X>, sigs: seq<Signal<V, X>>)
    ensures Meaning(stage, Truncate(sigs)) == Meaning(stage, sigs)
    decreases |sigs|
  {
    if sigs != [] && sigs[0].Value? {
      MeaningTruncate(stage, sigs[1..]);
      assert Truncate(sigs)[0] == sigs[0] && Truncate(sigs)[1..] == Truncate(sigs[1..]);
    }
  }

  lemma {:induction false} StreamAppend<V, X>(a: seq<Stage<V, X>>, b: seq<Stage<V, X>>, sigs: seq<Signal<V, X>>)
    ensures Stream(a + b, sigs) == Stream(b, Stream(a, sigs))
    decreases |a|
  {
    if a == [] {
      assert a + b == b;
    } else {
      assert (a + b)[1..] == a[1..] + b;
      StreamAppend(a[1..], b, Meaning(a[0], sigs));
    }
  }

  lemma StreamOne<V, X>(stage: Stage<V, X>, sigs: seq<Signal<V, X>>)
    ensures Stream([stage], sigs) == Meaning(stage, sigs)
  {
    assert Stream([stage][1..], Meaning(stage, sigs)) == Meaning(stage, sigs);
  }

  lemma StreamMiddle<V, X>(pre: seq<Stage<V, X>>, mid: seq<Stage<V, X>>, post: seq<Stage<V, X>>,
                           sigs: seq<Signal<V, X>>)
    ensures Stream(pre + mid + post, sigs) == Stream(post, Stream(mid, Stream(pre, sigs)))
  {
    StreamAppend(pre + mid, post, sigs);
    StreamAppend(pre, mid, sigs);
  }

  lemma StreamTwo<V, X>(a: Stage<V, X>, b: Stage<V, X>, sigs: seq<Signal<V, X>>)
    ensures Stream([a, b], sigs) == Meaning(b, Meaning(a, sigs))
  {
    assert [a, b] == [a] + [b];
    StreamAppend([a], [b], sigs);
    StreamOne(a, sigs);
    StreamOne(b, Meaning(a, sigs));
  }

  /** Anywhere in a chain two transforms are one transform by the composed function. */
  lemma FuseTransforms<V, X>(pre: seq<Stage<V, X>>, f: V -> Outcome<V, X>, g: V -> Outcome<V, X>,
                             post: seq<Stage<V, X>>, h: Handler<V, X>, sigs: seq<Signal<V, X>>)
    ensures Log(SetAll(Build(pre + [Transform(f), Transform(g)] + post, h), sigs))
            == Log(SetAll(Build(pre + [Transform(Compose(f, g))] + post, h), sigs))
  {
    var two, one := [Transform(f), Transform(g)], [Transform(Compose(f, g))];
    ChainComputes(pre + two + post, h, sigs);
    ChainComputes(pre + one + post, h, sigs);
    StreamMiddle(pre, two, post, sigs);
    StreamMiddle(pre, one, post, sigs);
    StreamTwo(Transform(f), Transform(g), Stream(pre, sigs));
    StreamOne(Transform(Compose(f, g)), Stream(pre, sigs));
    TransformFusion(f, g, Stream(pre, sigs));
  }

  /** Anywhere in a chain two filters are one filter by the short-circuit conjunction. */
  lemma FuseFilters<V, X>(pre: seq<Stage<V, X>>, p: V -> Outcome<bool, X>, q: V -> Outcome<bool, X>,
                          post: seq<Stage<V, X>>, h: Handler<V, X>, sigs: seq<Signal<V, X>>)
    ensures Log(SetAll(Build(pre + [Filter(p), Filter(q)] + post, h), sigs))
            == Log(SetAll(Build(pre + [Filter(Both(p, q))] + post, h), sigs))
  {
    var two, one := [Filter(p), Filter(q)], [Filter(Both(p, q))];
    ChainComputes(pre + two + post, h, sigs);
    ChainComputes(pre + one + post, h, sigs);
    StreamMiddle(pre, two, post, sigs);
    StreamMiddle(pre, one, post, sigs);
    StreamTwo(Filter(p), Filter(q), Stream(pre, sigs));
    StreamOne(Filter(Both(p, q)), Stream(pre, sigs));
    FilterFusion(p, q, Stream(pre, sigs));
  }

  /** A tap anywhere in a chain, even one whose side effects throw, changes nothing downstream. */
  lemma TapTransparent<V, X>(pre: seq<Stage<V, X>>, tap: Handler<V, X>, post: seq<Stage<V, X>>,
                             h: Handler<V, X>, sigs: seq<Signal<V, X>>)
    ensures Log(SetAll(Build(pre + [Tap(tap)] + post, h), sigs)) == Log(SetAll(Build(pre + post, h), sigs))
  {
    ChainComputes(pre + [Tap(tap)] + post, h, sigs);
    ChainComputes(pre + post, h, sigs);
    StreamMiddle(pre, [Tap(tap)], post, sigs);
    StreamAppend(pre, post, sigs);
    var before := Stream(pre, sigs);
    StreamOne(Tap(tap), before);
    TapMeaning(tap, before);
    if post == [] { CallsTruncate(h, [], before); } else { MeaningTruncate(post[0], before); }
  }

  lemma {:induction false} SwitchMeaning<V, X>(selector: X -> seq<Signal<V, X>>,
                                               vs: seq<V>, x: X, rest: seq<Signal<V, X>>)
    ensures Meaning(SwitchOnError(selector), Values(vs) + [Error(x)] + rest) == Values(vs) + selector(x)
    decreases |vs|
  {
    var sigs: seq<Signal<V, X>> := Values(vs) + [Error(x)] + rest;
    if vs == [] {
      assert sigs[0] == Error(x);
    } else {
      SwitchMeaning(selector, vs[1..], x, rest);
      assert sigs[0] == Value(vs[0]) && sigs[1..] == Values(vs[1..]) + [Error(x)] + rest;
      assert Values<V, X>(vs) == [Value(vs[0])] + Values(vs[1..]);
    }
  }

  /** Anywhere in a chain switch_on_error puts what the selected sender signals in the place of the first
      error and of all that follows it, whether the error was signalled or thrown; the values before it
      stay. */
  lemma SwitchReplaces<V, X>(pre: seq<Stage<V, X>>, selector: X -> seq<Signal<V, X>>, post: seq<Stage<V, X>>,
                             h: Handler<V, X>, sigs: seq<Signal<V, X>>, vs: seq<V>, x: X, rest: seq<Signal<V, X>>)
    requires Stream(pre, sigs) == Values(vs) + [Error(x)] + rest
    ensures Log(SetAll(Build(pre + [SwitchOnError(selector)] + post, h), sigs))
            == Calls(h, [], Stream(post, Values(vs) + selector(x)))
  {
    ChainComputes(pre + [SwitchOnError(selector)] + post, h, sigs);
    StreamMiddle(pre, [SwitchOnError(selector)], post, sigs);
    StreamOne(SwitchOnError(selector), Stream(pre, sigs));
    SwitchMeaning(selector, vs, x, rest);
  }

  lemma {:induction false} ThrowMeaning<V, X>(f: V -> Outcome<V, X>, vs: seq<V>, x: X, rest: seq<Signal<V, X>>, k: nat)
    requires k < |vs| && f(vs[k]) == Thrown(x) && forall j :: 0 <= j < k ==> f(vs[j]).Returned?
    ensures Meaning(Transform(f), Values(vs) + rest) == Values(Images(f, vs, k)) + [Error(x)]
    decreases k
  {
    var sigs := Values(vs) + rest;
    if k > 0 {
      ThrowMeaning(f, vs[1..], x, rest, k - 1);
      assert sigs[1..] == Values(vs[1..]) + rest;
      assert Images(f, vs, k) == [f(vs[0]).value] + Images(f, vs[1..], k - 1);
      assert Values<V, X>(Images(f, vs, k)) == [Value(f(vs[0]).value)] + Values(Images(f, vs[1..], k - 1));
    }
  }

  /** Anywhere in a chain, a transform whose function throws first at the value `vs[k]`, followed by
      switch_on_error: the images of the values before it are passed on, then what the sender selected by
      the exception signals; all that follows is lost. */
  lemma SwitchRecovers<V, X>(pre: seq<Stage<V, X>>, f: V -> Outcome<V, X>, selector: X -> seq<Signal<V, X>>,
                             post: seq<Stage<V, X>>, h: Handler<V, X>, sigs: seq<Signal<V, X>>,
                             vs: seq<V>, x: X, rest: seq<Signal<V, X>>, k: nat)
    requires Stream(pre, sigs) == Values(vs) + rest
    requires k < |vs| && f(vs[k]) == Thrown(x) && forall j :: 0 <= j < k ==> f(vs[j]).Returned?
    ensures Log(SetAll(Build(pre + [Transform(f), SwitchOnError(selector)] + post, h), sigs))
            == Calls(h, [], Stream(post, Values(Images(f, vs, k)) + selector(x)))
  {
    ThrowMeaning(f, vs, x, rest, k);
    StreamAppend(pre, [Transform(f)], sigs);
    StreamOne(Transform(f), Stream(pre, sigs));
    assert Values<V, X>(Images(f, vs, k)) + [Error(x)] == Values(Images(f, vs, k)) + [Error(x)] + [];
    SwitchReplaces(pre + [Transform(f)], selector, post, h, sigs, Images(f, vs, k), x, []);
    assert pre + [Transform(f)] + [SwitchOnError(selector)] == pre + [Transform(f), SwitchOnError(selector)];
  }

  /** What a transform makes of the first `k` values. */
  function Images<V, X>(f: V -> Outcome<V, X>, vs: seq<V>, k: nat): seq<V>
    requires k <= |vs| && forall j :: 0 <= j < k ==> f(vs[j]).Returned?
  {
    seq(k, j requires 0 <= j < k => f(vs[j]).value)
  }

  function Values<V, X>(vs: seq<V>): seq<Signal<V, X>> {
    seq(|vs|, j requires 0 <= j < |vs| => Value(vs[j]))
  }
}
