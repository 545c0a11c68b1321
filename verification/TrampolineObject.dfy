/** The trampoline as the code runs it: the thread-local owner, the depth counter and the pending
    deque are updated in place by re-entrant submissions. Each method is proved against the
    function of module Trampoline with the same role. */
module TrampolineObject {
  import opened Trampoline

  class Thread {
    var owned: bool
    var depth: int
    var pending: seq<Task>
    var again: bool        // `repeat(pending_store)`
    var terminated: bool
    var log: seq<Task>
    var active: nat
    var peak: nat
    var deferrals: nat

    ghost function Model(): State
      reads this
    {
      State(owned, depth, pending, log, active, peak, deferrals, terminated)
    }

    constructor ()
      ensures Model() == IDLE
    {
      owned, depth, pending, again, terminated := false, 0, [], false, false;
      log, active, peak, deferrals := [], 0, 0, 0;
    }

    /** The receiver's value function: submits the children of `t` in order. */
    method Run(t: Task)
      requires owned
      modifies this
      ensures Model() == Body(t, old(Model()))
      ensures again ==> old(again)
      decreases SizeAll(pending) + Size(t), 0
    {
      ghost var start := Enter(t, Model());
      ghost var total := SizeAll(pending) + Size(t);
      log := log + [t];
      active := active + 1;
      if active > peak { peak := active; }
      var i := 0;
      assert t.subs[0..] == t.subs;
      while i < |t.subs|
        invariant 0 <= i <= |t.subs| && owned
        invariant Subs(t.subs, start) == Subs(t.subs[i..], Model())
        invariant SizeAll(pending) + SizeAll(t.subs[i..]) < total
        invariant again ==> old(again)
      {
        var sub := t.subs[i];
        assert t.subs[i..][0] == sub && t.subs[i..][1..] == t.subs[i + 1..];
        if sub.nest {
          SubmitNester(sub);
        } else {
          SubmitDelegator(sub);
        }
        i := i + 1;
      }
      active := active - 1;
    }

    /** `submit(ownordelegate_t, ...)` */
    method SubmitDelegator(t: Task)
      modifies this
      ensures Model() == if old(owned) then Delegate(t, old(Model())) else Takeover(t, old(Model()))
      ensures old(owned) && again ==> old(again)
      decreases if owned then SizeAll(pending) + Size(t) else Size(t), 2, if owned then 0 else 2
    {
      if owned {
        depth := depth + 1;
        if depth > MAX_DEPTH {
          SizeAllSnoc(pending, t);
          pending := pending + [t];
          deferrals := deferrals + 1;
        } else {
          Run(t);
        }
        depth := depth - 1;
        return;
      }
      owned, depth, pending, again := true, 0, [], false;
      SubmitNester(t);
      terminated := terminated || !owned || pending != [];
      owned := false;
    }

    /** `submit(ownornest_t, ...)` */
    method SubmitNester(t: Task)
      modifies this
      ensures Model() == if old(owned) then Nest(t, old(Model())) else Takeover(t, old(Model()))
      ensures old(owned) && again ==> old(again)
      decreases if owned then SizeAll(pending) + Size(t) else Size(t), 2, if owned then 1 else 3
    {
      if !owned {
        SubmitDelegator(t);
        return;
      }
      ghost var s := Model();
      if pending == [] {
        var go := true;
        while go
          invariant owned && (go ==> Model() == s) && (!go ==> Model() == Body(t, s))
          invariant again ==> old(again)
          decreases go
        {
          again := false;
          Run(t);
          go := again;
        }
      } else {
        SizeAllSnoc(pending, t);
        pending := pending + [t];
        deferrals := deferrals + 1;
      }
      if pending == [] {
        return;
      }
      DrainQueue();
    }

    /** Runs what was deferred, and what that defers. */
    method DrainQueue()
      requires owned
      modifies this
      ensures Model() == Drain(old(Model()))
      ensures again ==> old(again)
      decreases SizeAll(pending), 1
    {
      ghost var s := Model();
      while pending != []
        invariant owned && Drain(Model()) == Drain(s)
        invariant SizeAll(pending) <= SizeAll(s.pending)
        invariant again ==> old(again)
        decreases SizeAll(pending)
      {
        var what := pending[0];
        pending := pending[1..];
        Run(what);
      }
    }
  }
}
