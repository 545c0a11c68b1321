/** The flow as the code runs it: the producer's cursor and flags and the trampoline's depth and
    deque are updated in place by re-entrant calls. Each method is proved against the function of
    module Flow with the same role. */
module FlowObject {
  import opened Wrappers
  import T = Trampoline
  import opened Flow

  class Producer {
    const n: nat
    const consumer: Consumer
    var c: nat
    var stop: bool
    var upDone: bool
    var downDone: bool
    var depth: int
    var pending: seq<Work>
    var values: seq<nat>
    var dones: nat
    var requested: int
    var cancelledAt: Option<nat>
    var active: nat
    var peak: nat

    ghost function Model(): State
      reads this
    {
      State(c, stop, upDone, downDone, depth, pending, values, dones, requested, cancelledAt, active, peak)
    }

    constructor (n: nat, consumer: Consumer)
      ensures this.n == n && this.consumer == consumer && Model() == STARTED
    {
      this.n, this.consumer := n, consumer;
      c, stop, upDone, downDone, depth, pending := 0, false, false, false, 0, [];
      values, dones, requested, cancelledAt, active, peak := [], 0, 0, None, 1, 1;
    }

    /** `flow_receiver::done` */
    method SetDone()
      modifies `downDone, `dones
      ensures Model() == SignalDone(old(Model()))
    {
      if downDone { return; }
      downDone := true;
      dones := dones + 1;
    }

    /** The consumer's demands, in order. */
    method Demands(ds: seq<Demand>)
      requires Valid(n, Model()) && active == depth + 1
      modifies this
      ensures Model() == React(consumer, n, ds, old(Model()))
      decreases n - c, 4
    {
      ghost var s := Model();
      var i := 0;
      assert ds[0..] == ds;
      while i < |ds|
        invariant 0 <= i <= |ds|
        invariant Valid(n, Model()) && active == depth + 1 && c >= s.c
        invariant React(consumer, n, ds, s) == React(consumer, n, ds[i..], Model())
      {
        assert ds[i..][0] == ds[i] && ds[i..][1..] == ds[i + 1..];
        match ds[i] {
          case Request(m) => UpValue(m);
          case Cancel => UpDone();
        }
        i := i + 1;
      }
    }

    /** `flow_from_up::value` behind the guard of `make_receiver`. */
    method UpValue(m: int)
      requires Valid(n, Model()) && active == depth + 1
      modifies this
      ensures Model() == Ask(consumer, n, Request(m), old(Model()))
      decreases n - c, 3
    {
      if upDone { return; }
      if m < 1 { return; }
      requested := requested + m;
      SubmitWork(Pull(m));
    }

    /** `flow_from_up::done` and `error` behind the guard of `make_receiver`. */
    method UpDone()
      requires Valid(n, Model()) && active == depth + 1
      modifies this
      ensures Model() == Ask(consumer, n, Cancel, old(Model()))
      decreases n - c, 3
    {
      if upDone { return; }
      upDone := true;
      stop := true;
      cancelledAt := Some(|values|);
      SubmitWork(Finish);
    }

    method SubmitWork(w: Work)
      requires Valid(n, Model()) && active == depth + 1
      requires w.Pull? ==> w.n >= 1 && requested >= 1
      requires w.Finish? ==> upDone
      modifies this
      ensures Model() == Submit(consumer, n, w, old(Model()))
      decreases n - c, 2
    {
      depth := depth + 1;
      if depth > T.MAX_DEPTH {
        pending := pending + [w];
      } else {
        Run(w);
      }
      depth := depth - 1;
    }

    method EnterTask()
      modifies `active, `peak
      ensures Model() == Flow.Enter(old(Model()))
    {
      active := active + 1;
      if active > peak { peak := active; }
    }

    /** The body of a task. */
    method Run(w: Work)
      requires Valid(n, Model()) && active == depth
      requires w.Pull? ==> w.n >= 1 && requested >= 1
      requires w.Finish? ==> upDone
      modifies this
      ensures Model() == DoWork(consumer, n, w, old(Model()))
      decreases n - c, 1
    {
      EnterTask();
      match w {
        case Finish => SetDone();
        case Pull(m) =>
          DeliverUpTo(m);
          if c == n { SetDone(); }
      }
      active := active - 1;
    }

    method DeliverUpTo(m: int)
      requires Valid(n, Model()) && active == depth + 1 && requested >= 1
      modifies this
      ensures Model() == Loop(consumer, n, m, old(Model()))
      decreases n - c, 0, 1
    {
      ghost var e := Model();
      var remaining := m;
      while remaining > 0 && !stop && c != n
        invariant Valid(n, Model()) && active == depth + 1 && requested >= 1 && c >= e.c
        invariant Loop(consumer, n, m, e) == Loop(consumer, n, remaining, Model())
        decreases remaining
      {
        DeliverNext();
        remaining := remaining - 1;
      }
    }

    /** Moves the cursor, then calls the consumer. */
    method DeliverNext()
      requires Valid(n, Model()) && active == depth + 1 && requested >= 1 && !stop && c < n
      modifies this
      ensures var s := old(Model());
              Model() == React(consumer, n, if s.downDone then [] else consumer.onValue(s.c),
                               Flow.Deliver(s.c, s.(c := s.c + 1)))
      decreases n - c, 0, 0
    {
      var i := c;
      c := c + 1;
      var ds := if downDone then [] else consumer.onValue(i);
      if !downDone { values := values + [i]; }
      Demands(ds);
    }

    /** Runs what was deferred. */
    method DrainPending()
      requires Valid(n, Model()) && active == depth
      modifies this
      ensures Model() == Drain(consumer, n, old(Model()))
    {
      ghost var s := Model();
      while pending != []
        invariant Valid(n, Model()) && active == depth
        invariant Drain(consumer, n, Model()) == Drain(consumer, n, s)
        decreases n - c, |pending|
      {
        var w := pending[0];
        assert w in pending;
        pending := pending[1..];
        Run(w);
      }
    }

    /** The first task of the flow: `set_starting` with the demands the consumer makes there, then
        everything that was deferred. */
    method Start()
      requires Model() == STARTED
      modifies this
      ensures Model() == RunFlow(consumer, n)
    {
      Demands(consumer.onStart);
      active := active - 1;
      DrainPending();
    }
  }
}
