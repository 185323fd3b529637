/** The scrub dispatcher and its worker threads: how many workers are idle, in every interleaving. */
module ScrubWorkers {

  datatype Phase = Init | Idle | Busy

  /** A worker: the state others see, and whether it has marked itself idle without having counted
      itself as available yet. */
  datatype Worker = Worker(phase: Phase, marked: bool)

  /** Where the dispatcher is: waiting for an available worker, past the test, or past the decrement
      and looking for an idle worker at ring position `at`. */
  datatype Dispatcher = Waiting | Sure | Looking(at: nat)

  datatype State = State(w: seq<Worker>, available: int, d: Dispatcher)

  function Idles(w: seq<Worker>): nat {
    if w == [] then 0 else (if w[0].phase.Idle? then 1 else 0) + Idles(w[1..])
  }

  function Marks(w: seq<Worker>): nat {
    if w == [] then 0 else (if w[0].marked then 1 else 0) + Marks(w[1..])
  }

  function Bit(b: bool): nat { if b then 1 else 0 }

  lemma {:induction false} CountUpdate(w: seq<Worker>, i: nat, v: Worker)
    requires i < |w|
    ensures Idles(w[i := v]) + Bit(w[i].phase.Idle?) == Idles(w) + Bit(v.phase.Idle?)
    ensures Marks(w[i := v]) + Bit(w[i].marked) == Marks(w) + Bit(v.marked)
  {
    var u := w[i := v];
    if i == 0 {
      assert u[1..] == w[1..];
    } else {
      CountUpdate(w[1..], i - 1, v);
      assert u[1..] == w[1..][i - 1 := v];
    }
  }

  lemma {:induction false} SomeIdle(w: seq<Worker>) returns (i: nat)
    requires Idles(w) > 0
    ensures i < |w| && w[i].phase.Idle?
  {
    if w[0].phase.Idle? {
      i := 0;
    } else {
      var k := SomeIdle(w[1..]);
      i := k + 1;
    }
  }

  // ---------------------------------------------------------------- steps

  /** `Mark(i)`: worker `i` comes up, or finishes its job, and calls itself idle.  `Count(i)`: it adds
      itself to the available ones.  The dispatcher tests, decrements, looks at one worker after the
      other (`Miss`) and makes the first idle one busy (`Pick`). */
  datatype Step = Mark(i: nat) | Count(i: nat) | Test | Take | Miss | Pick

  ghost predicate Enabled(s: State, e: Step) {
    match e
    case Mark(i) => i < |s.w| && !s.w[i].marked && !s.w[i].phase.Idle?
    case Count(i) => i < |s.w| && s.w[i].marked
    case Test => s.d.Waiting? && s.available != 0
    case Take => s.d.Sure?
    case Miss => s.d.Looking? && s.d.at < |s.w| && !s.w[s.d.at].phase.Idle?
    case Pick => s.d.Looking? && s.d.at < |s.w| && s.w[s.d.at].phase.Idle?
  }

  ghost function Apply(s: State, e: Step): State
    requires Enabled(s, e)
  {
    match e
    case Mark(i) => s.(w := s.w[i := Worker(Idle, true)])
    case Count(i) => s.(w := s.w[i := s.w[i].(marked := false)], available := s.available + 1)
    case Test => s.(d := Sure)
    case Take => s.(d := Looking(0), available := s.available - 1)
    case Miss => s.(d := Looking((s.d.at + 1) % |s.w|))
    case Pick => s.(d := Waiting, w := s.w[s.d.at := s.w[s.d.at].(phase := Busy)])
  }

  /** Idle workers are those counted available, the one the dispatcher has reserved, and those about
      to count themselves. */
  ghost predicate Inv(s: State) {
    && Idles(s.w) == s.available + Bit(s.d.Looking?) + Marks(s.w)
    && s.available >= 0
    && (s.d.Sure? ==> s.available > 0)
    && |s.w| > 0 && (s.d.Looking? ==> s.d.at < |s.w|)
  }

  lemma StepInv(s: State, e: Step)
    requires Inv(s) && Enabled(s, e)
    ensures Inv(Apply(s, e))
  {
    hide Idles, Marks;
    match e
    case Mark(i) => CountUpdate(s.w, i, Worker(Idle, true));
    case Count(i) => CountUpdate(s.w, i, s.w[i].(marked := false));
    case Test =>
    case Take =>
    case Miss =>
    case Pick => CountUpdate(s.w, s.d.at, s.w[s.d.at].(phase := Busy));
  }

  ghost predicate Reaches(s: State, es: seq<Step>, end: State)
    decreases |es|
  {
    if es == [] then end == s else Enabled(s, es[0]) && Reaches(Apply(s, es[0]), es[1..], end)
  }

  function Fresh(threads: nat): State {
    State(seq(threads, _ => Worker(Init, false)), 0, Waiting)
  }

  lemma {:induction false} FreshCounts(w: seq<Worker>)
    requires forall i :: 0 <= i < |w| ==> w[i] == Worker(Init, false)
    ensures Idles(w) == 0 && Marks(w) == 0
  {
    if w != [] { FreshCounts(w[1..]); }
  }

  lemma {:induction false} RunInv(s: State, es: seq<Step>, end: State)
    requires Inv(s) && Reaches(s, es, end)
    ensures Inv(end)
    decreases |es|
  {
    if es != [] {
      hide Inv, Enabled, Apply;
      StepInv(s, es[0]);
      RunInv(Apply(s, es[0]), es[1..], end);
    }
  }

  /** In every run from the start the equation holds, `available` is never negative, and a looking
      dispatcher has an idle worker to find. */
  lemma IdleWorkers(threads: nat, es: seq<Step>, end: State)
    requires threads > 0 && Reaches(Fresh(threads), es, end)
    ensures Idles(end.w) == end.available + Bit(end.d.Looking?) + Marks(end.w) && end.available >= 0
    ensures end.d.Looking? ==> exists i :: 0 <= i < |end.w| && end.w[i].phase.Idle?
  {
    hide Idles, Marks, Reaches;
    FreshCounts(Fresh(threads).w);
    RunInv(Fresh(threads), es, end);
    if end.d.Looking? {
      var i := SomeIdle(end.w);
    }
  }

  // ---------------------------------------------------------------- the search ends

  function Misses(es: seq<Step>): nat {
    if es == [] then 0 else Bit(es[0].Miss?) + Misses(es[1..])
  }

  /** Steps from `at` to `i` around the ring. */
  function Around(at: nat, i: nat, n: nat): nat
    requires at < n && i < n
  {
    if at <= i then i - at else n - at + i
  }

  lemma AroundStep(at: nat, i: nat, n: nat)
    requires at < n && i < n && at != i
    ensures (at + 1) % n < n && Around((at + 1) % n, i, n) == Around(at, i, n) - 1
  {
    if at + 1 == n {
      assert (at + 1) % n == 0;
    } else {
      assert (at + 1) % n == at + 1;
    }
  }

  /** Until the dispatcher picks, an idle worker stays idle and the search comes closer to it. */
  lemma {:induction false} Closer(s: State, es: seq<Step>, end: State, i: nat)
    requires Reaches(s, es, end) && (forall k :: 0 <= k < |es| ==> !es[k].Pick?)
    requires s.d.Looking? && s.d.at < |s.w| && i < |s.w| && s.w[i].phase.Idle?
    ensures Misses(es) <= Around(s.d.at, i, |s.w|)
    decreases |es|
  {
    if es != [] {
      var s' := Apply(s, es[0]);
      if es[0].Miss? { AroundStep(s.d.at, i, |s.w|); }
      Closer(s', es[1..], end, i);
    }
  }

  /** Whatever the workers do meanwhile, a search passes fewer than all workers before it picks. */
  lemma SearchEnds(s: State, es: seq<Step>, end: State)
    requires Inv(s) && s.d.Looking? && Reaches(s, es, end) && (forall k :: 0 <= k < |es| ==> !es[k].Pick?)
    ensures Misses(es) < |s.w|
  {
    hide Reaches, Misses, Idles, Marks;
    var i := SomeIdle(s.w);
    Closer(s, es, end, i);
  }

  /** The ring search of `segread`: it finds the first idle worker. */
  method RingSearch(workers: array<Worker>) returns (t: nat)
    requires exists i :: 0 <= i < workers.Length && workers[i].phase.Idle?
    ensures t < workers.Length && workers[t].phase.Idle?
    ensures forall i :: 0 <= i < t ==> !workers[i].phase.Idle?
  {
    ghost var goal :| 0 <= goal < workers.Length && workers[goal].phase.Idle?;
    t := 0;
    while !workers[t].phase.Idle?
      invariant t <= goal && forall i :: 0 <= i < t ==> !workers[i].phase.Idle?
      decreases goal - t
    {
      AroundStep(t, goal, workers.Length);
      t := (t + 1) % workers.Length;
    }
  }
}
