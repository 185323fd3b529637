/** Runs of the deadline scheduler: the invariant everywhere, draining, and no starvation of writes. */
module DeadlineRuns {
  import opened Lists
  import opened Options
  import opened Deadline
  import opened DeadlineSteps

  /** What happens to the scheduler: a new request, a bio merged in front of a queued request, a
      queued request merged into another (after a bio closed the gap, possibly in front of the one
      that goes), or a dispatch call. */
  datatype Event =
    | New(x: Id, d: Dir, p: nat, now: int)
    | Front(x: Id, d: Dir, p: nat)
    | Merge(r: Id, n: Id, d: Dir)
    | FrontMerge(r: Id, n: Id, d: Dir, p: nat)
    | Serve(now: int)

  ghost predicate Enabled(s: State, e: Event) {
    match e
    case New(x, d, p, now) => x !in s.dir && now >= s.clock
    case Front(x, d, p) => x in HalfOf(s, d).fifo
    case Merge(r, n, d) => r in HalfOf(s, d).fifo && n in HalfOf(s, d).fifo && r != n
    case FrontMerge(r, n, d, p) => r in HalfOf(s, d).fifo && n in HalfOf(s, d).fifo && r != n
    case Serve(now) => now >= s.clock
  }

  ghost function Apply(c: Config, s: State, e: Event): State
    requires Inv(c, s) && Enabled(s, e)
  {
    match e
    case New(x, d, p, now) => Add(c, s, x, d, p, now)
    case Front(x, d, p) => FrontMerged(s, d, x, p)
    case Merge(r, n, d) => MergedInv(c, s, d, r, n); Merged(s, d, r, n)
    case FrontMerge(r, n, d, p) => FrontAbsorbedInv(c, s, d, r, n, p); FrontAbsorbed(s, d, r, n, p)
    case Serve(now) => DispatchInv(c, s, now); Dispatch(c, s, now)
  }

  lemma ApplyInv(c: Config, s: State, e: Event)
    requires Inv(c, s) && Enabled(s, e)
    ensures Inv(c, Apply(c, s, e))
  {
    hide Inv, HalfOf, Add, FrontMerged, Merged, FrontAbsorbed, Dispatch;
    match e
    case New(x, d, p, now) => AddInv(c, s, x, d, p, now);
    case Front(x, d, p) => FrontMergedInv(c, s, d, x, p);
    case Merge(r, n, d) => MergedInv(c, s, d, r, n);
    case FrontMerge(r, n, d, p) => FrontAbsorbedInv(c, s, d, r, n, p);
    case Serve(now) => DispatchInv(c, s, now);
  }

  ghost predicate Possible(c: Config, s: State, es: seq<Event>)
    requires Inv(c, s)
    decreases |es|
  {
    es == [] || (Enabled(s, es[0]) && (ApplyInv(c, s, es[0]); Possible(c, Apply(c, s, es[0]), es[1..])))
  }

  ghost function Run(c: Config, s: State, es: seq<Event>): State
    requires Inv(c, s) && Possible(c, s, es)
    decreases |es|
  {
    if es == [] then s else ApplyInv(c, s, es[0]); Run(c, Apply(c, s, es[0]), es[1..])
  }

  const Empty: State := State(map[], map[], map[], Half([], [], None), Half([], [], None), 0, 0, 0, 0, [])

  /** Every reachable state is consistent. */
  lemma {:induction false} RunInv(c: Config, s: State, es: seq<Event>)
    requires Inv(c, s) && Possible(c, s, es)
    ensures Inv(c, Run(c, s, es))
    decreases |es|
  {
    hide Inv, Enabled, Apply;
    if es != [] {
      ApplyInv(c, s, es[0]);
      RunInv(c, Apply(c, s, es[0]), es[1..]);
    }
  }

  lemma StartInv(c: Config)
    ensures Inv(c, Empty)
  {
  }

  // ---------------------------------------------------------------- draining

  /** A dispatch call moves one queued request, unless none is queued. */
  lemma DispatchMoves(c: Config, s: State, now: int)
    requires Inv(c, s) && now >= s.clock
    ensures forall d :: HalfOf(s, d).fifo != [] ==> HalfOf(s, d).fifo[0] in s.due
    ensures var s' := Dispatch(c, s, now);
            if s.sorted == 0 then s' == s.(clock := now)
            else exists x, d :: x in HalfOf(s, d).fifo && s'.out == s.out + [x] && s'.sorted == s.sorted - 1
                   && (forall y, e :: y in HalfOf(s', e).fifo <==> y in HalfOf(s, e).fifo && y != x)
  {
    hide HalfOk, Move, OutOk;
    DispatchInv(c, s, now);
    NextQueued(c, s, Read);
    NextQueued(c, s, Write);
    if s.sorted > 0 {
      var b := Batch(c, s);
      var d := if b.Some? then b.value.0 else if Choose(c, s) == Some(Read) then Read else Write;
      var x := if b.Some? then b.value.1 else Pick(s, d, now);
      var t := s.(clock := now, batching := if b.Some? then s.batching + 1 else 1,
                  starved := if b.Some? then s.starved
                             else if d.Read? then (if s.write.fifo != [] then s.starved + 1 else s.starved)
                             else 0);
      assert Dispatch(c, s, now) == Move(t, d, x);
      MoveTakes(c, s, t, d, x);
    }
  }

  lemma MoveTakes(c: Config, s: State, t: State, d: Dir, x: Id)
    requires Inv(c, s) && t.read == s.read && t.write == s.write && t.out == s.out && t.sorted == s.sorted
    requires x in HalfOf(s, d).fifo
    ensures var s' := Move(t, d, x);
            && s'.out == s.out + [x] && s'.sorted == s.sorted - 1
            && forall y, e :: y in HalfOf(s', e).fifo <==> y in HalfOf(s, e).fifo && y != x
  {
    hide SortOk, FifoOk, OutOk, Same;
    Apart(c, s, d, x);
    FifoRemove(s.due, s.dir, d, s.clock + Expire(c, d), HalfOf(s, d).fifo, x);
    hide Remove, Latter;
    var s' := Move(t, d, x);
    forall y, e ensures y in HalfOf(s', e).fifo <==> y in HalfOf(s, e).fifo && y != x {
      if e != d { assert e == Other(d); }
    }
  }

  ghost predicate IsQueued(s: State, x: Id) { x in s.read.fifo || x in s.write.fifo }

  /** Forced draining: dispatch until a call has nothing to move. */
  ghost function Drain(c: Config, s: State, now: int): State
    requires Inv(c, s) && now >= s.clock
    decreases s.sorted
  {
    if s.sorted <= 0 then s
    else
      DispatchInv(c, s, now);
      DispatchMoves(c, s, now);
      DispatchClock(c, s, now);
      Drain(c, Dispatch(c, s, now), now)
  }

  lemma DispatchClock(c: Config, s: State, now: int)
    requires forall d :: HalfOf(s, d).fifo != [] ==> HalfOf(s, d).fifo[0] in s.due
    ensures Dispatch(c, s, now).clock == now
  {
  }

  /** Draining empties the scheduler, and dispatches each queued request exactly once. */
  lemma {:induction false} DrainEmpties(c: Config, s: State, now: int)
    requires Inv(c, s) && now >= s.clock
    ensures var s' := Drain(c, s, now);
            && Inv(c, s') && s'.read.fifo == [] && s'.write.fifo == [] && s'.sorted == 0
            && s.out <= s'.out && |s'.out| == |s.out| + s.sorted
            && forall y :: y in s'.out <==> y in s.out || IsQueued(s, y)
    decreases s.sorted
  {
    hide HalfOk, OutOk, Dispatch;
    if s.sorted <= 0 {
      assert |s.read.fifo| == 0 && |s.write.fifo| == 0;
    } else {
      DispatchInv(c, s, now);
      DispatchMoves(c, s, now);
      DispatchClock(c, s, now);
      var s1 := Dispatch(c, s, now);
      DrainEmpties(c, s1, now);
      var x, d :| x in HalfOf(s, d).fifo && s1.out == s.out + [x] && s1.sorted == s.sorted - 1
                  && (forall y, e :: y in HalfOf(s1, e).fifo <==> y in HalfOf(s, e).fifo && y != x);
      forall y ensures y in s1.out || IsQueued(s1, y) <==> y in s.out || IsQueued(s, y) {
        assert y in HalfOf(s1, Read).fifo <==> y in HalfOf(s, Read).fifo && y != x;
        assert y in HalfOf(s1, Write).fifo <==> y in HalfOf(s, Write).fifo && y != x;
      }
    }
  }

  // ---------------------------------------------------------------- writes do not starve

  /** The expired write `w` is first in line. */
  ghost predicate Waiting(s: State, w: Id) {
    s.write.fifo != [] && s.write.fifo[0] == w && w in s.due && s.clock > s.due[w]
  }

  /** No merge makes `w` part of another request. */
  predicate Spares(e: Event, w: Id) {
    !(e.Merge? && e.n == w) && !(e.FrontMerge? && e.n == w)
  }

  function BatchSize(c: Config): nat { if c.fifoBatch == 0 then 1 else c.fifoBatch }

  function Rest(a: nat, b: nat): nat { if b < a then a - b else 0 }

  /** How many dispatch calls can still pass `w` by. */
  function Credit(c: Config, s: State): nat {
    Rest(c.writesStarved, s.starved) * BatchSize(c) + Rest(c.fifoBatch, s.batching)
  }

  lemma RemoveHead(s: seq<Id>, w: Id, x: Id)
    requires s != [] && s[0] == w && x != w
    ensures Remove(s, x) != [] && Remove(s, x)[0] == w
  {
  }

  /** How many requests are in front of `w`. */
  function Ahead(f: seq<Id>, w: Id): (k: nat)
    ensures w in f ==> k < |f| && f[k] == w
  {
    if f == [] || f[0] == w then 0 else 1 + Ahead(f[1..], w)
  }

  /** Taking out another request moves `w` forward, if at all; taking out the head always does. */
  lemma {:induction false} RemoveAhead(f: seq<Id>, x: Id, w: Id)
    requires w in f && x != w
    ensures w in Remove(f, x) && Ahead(Remove(f, x), w) <= Ahead(f, w)
    ensures f[0] == x ==> Ahead(Remove(f, x), w) < Ahead(f, w)
  {
    if f[0] != x && f[0] != w {
      RemoveAhead(f[1..], x, w);
      assert Remove(f, x) == [f[0]] + Remove(f[1..], x);
    }
  }

  lemma {:induction false} AppendAhead(f: seq<Id>, x: Id, w: Id)
    requires w in f
    ensures w in f + [x] && Ahead(f + [x], w) == Ahead(f, w)
  {
    if f[0] != w {
      assert (f + [x])[1..] == f[1..] + [x];
      AppendAhead(f[1..], x, w);
    }
  }

  /** `r` in the place of `n`. */
  function Replaced(g: seq<Id>, n: Id, r: Id): seq<Id> { Remove(InsertAfter(g, n, r), n) }

  lemma {:induction false} ReplacedAhead(g: seq<Id>, n: Id, r: Id, w: Id)
    requires n in g && n != w && n != r
    ensures w in g && r != w ==> w in Replaced(g, n, r) && Ahead(Replaced(g, n, r), w) <= Ahead(g, w)
    ensures w !in g && r == w ==> w in Replaced(g, n, r) && Ahead(Replaced(g, n, r), w) == Ahead(g, n)
  {
    if g[0] == n {
      assert InsertAfter(g, n, r) == [n] + ([r] + g[1..]);
      assert Replaced(g, n, r) == [r] + g[1..];
    } else {
      ReplacedAhead(g[1..], n, r, w);
      var t := InsertAfter(g[1..], n, r);
      assert InsertAfter(g, n, r) == [g[0]] + t;
      assert Replaced(g, n, r) == [g[0]] + Replaced(g[1..], n, r);
    }
  }

  lemma AheadEarlier(due: map<Id, int>, f: seq<Id>, n: Id, w: Id)
    requires (forall x :: x in f ==> x in due) && Timely(due, f) && n in f && w in f && due[n] < due[w]
    ensures Ahead(f, n) < Ahead(f, w)
  {
    var i, j := Ahead(f, n), Ahead(f, w);
    assert f[i] == n && f[j] == w;
  }

  /** `w` is an expired write that is still queued. */
  ghost predicate Expired(s: State, w: Id) {
    w in s.write.fifo && w in s.due && s.clock > s.due[w]
  }

  /** `w` has been dispatched, or it is no further back than before. */
  ghost predicate NoFurther(s: State, s': State, w: Id) {
    w in s'.out || (Expired(s', w) && Ahead(s'.write.fifo, w) <= Ahead(s.write.fifo, w))
  }

  lemma MoveWaits(s: State, d: Dir, x: Id, w: Id)
    requires Expired(s, w)
    ensures var s' := Move(s, d, x);
            && NoFurther(s, s', w) && s'.due == s.due && s'.clock == s.clock
            && s'.starved == s.starved && s'.batching == s.batching
    ensures d.Write? && x == s.write.fifo[0] ==>
              var s' := Move(s, d, x); w in s'.out || Ahead(s'.write.fifo, w) < Ahead(s.write.fifo, w)
  {
    hide Latter;
    if d.Write? && x != w { RemoveAhead(s.write.fifo, x, w); }
  }

  lemma IndexWaits(s: State, d: Dir, x: Id, p: nat, w: Id)
    requires Expired(s, w)
    ensures var s' := Index(s, d, x, p);
            && NoFurther(s, s', w) && s'.due == s.due && s'.clock == s.clock
            && s'.starved == s.starved && s'.batching == s.batching
  {
    hide Move, Insert;
    var a := Alias(s.pos, HalfOf(s, d).sort, p);
    if a.Some? { MoveWaits(s, d, a.value, w); }
  }

  lemma MergedWaits(c: Config, s: State, d: Dir, r: Id, n: Id, w: Id)
    requires r in s.due && n in s.due && r != n && Expired(s, w) && n != w
    requires FifoOk(s.due, s.dir, Write, s.clock + Expire(c, Write), s.write.fifo)
    requires d.Write? ==> r in s.write.fifo && n in s.write.fifo
    requires r == w ==> d.Write?
    ensures var s' := Merged(s, d, r, n);
            && NoFurther(s, s', w) && s'.clock == s.clock && s'.starved == s.starved && s'.batching == s.batching
  {
    hide Latter, Distinct, Remove, InsertAfter;
    if d.Write? {
      var f := s.write.fifo;
      if s.due[n] < s.due[r] {
        var g := Remove(f, r);
        RemoveAhead(f, r, n);
        if r == w {
          AheadEarlier(s.due, f, n, w);
          assert w !in g by { RemoveKeeps(f, w); }
        } else {
          RemoveAhead(f, r, w);
        }
        ReplacedAhead(g, n, r, w);
        assert Replaced(g, n, r) == Remove(InsertAfter(g, n, r), n);
      } else {
        RemoveAhead(f, n, w);
      }
    }
  }

  /** A dispatch call either serves `w` or uses up credit. */
  lemma ServeWaits(c: Config, s: State, now: int, w: Id)
    requires Inv(c, s) && now >= s.clock && Waiting(s, w)
    ensures forall d :: HalfOf(s, d).fifo != [] ==> HalfOf(s, d).fifo[0] in s.due
    ensures var s' := Dispatch(c, s, now);
            w in s'.out || (Waiting(s', w) && Credit(c, s') < Credit(c, s))
  {
    hide Inv, Credit;
    DispatchInv(c, s, now);
    var s' := Dispatch(c, s, now);
    var b := Batch(c, s);
    if b.Some? {
      if b.value.1 != w { RemoveHead(s.write.fifo, w, b.value.1); }
      CreditBatch(c, s, s');
    } else if Choose(c, s) == Some(Read) {
      CreditRead(c, s, s');
    }
  }

  lemma CreditBatch(c: Config, s: State, s': State)
    requires s.batching < c.fifoBatch && s'.batching == s.batching + 1 && s'.starved == s.starved
    ensures Credit(c, s') < Credit(c, s)
  {
  }

  lemma CreditRead(c: Config, s: State, s': State)
    requires s.starved < c.writesStarved && s'.batching == 1 && s'.starved == s.starved + 1
    ensures Credit(c, s') < Credit(c, s)
  {
    var k, f := Rest(c.writesStarved, s'.starved), BatchSize(c);
    assert Rest(c.writesStarved, s.starved) == k + 1;
    assert (k + 1) * f == k * f + f;
  }

  /** `w` still waits no further back, and nothing was charged. */
  ghost predicate StillWaits(s: State, s': State, w: Id) {
    NoFurther(s, s', w) && s'.starved == s.starved && s'.batching == s.batching
  }

  lemma AddWaits(c: Config, s: State, x: Id, d: Dir, p: nat, now: int, w: Id)
    requires Expired(s, w) && x != w && now >= s.clock
    ensures StillWaits(s, Add(c, s, x, d, p, now), w)
  {
    hide Index;
    var s1 := s.(pos := s.pos[x := p], dir := s.dir[x := d], sorted := s.sorted + 1, clock := now);
    IndexWaits(s1, d, x, p, w);
    var s2 := Index(s1, d, x, p);
    if w in s2.write.fifo { AppendAhead(s2.write.fifo, x, w); }
  }

  lemma FrontWaits(s: State, d: Dir, x: Id, p: nat, w: Id)
    requires Expired(s, w)
    ensures StillWaits(s, FrontMerged(s, d, x, p), w)
  {
    hide Index, Remove;
    var h := HalfOf(s, d);
    IndexWaits(WithHalf(s, d, h.(sort := Remove(h.sort, x))).(pos := s.pos[x := p]), d, x, p, w);
  }

  /** The head has expired if any write has. */
  lemma HeadWaits(c: Config, s: State, w: Id)
    requires Inv(c, s) && Expired(s, w)
    ensures Waiting(s, s.write.fifo[0])
  {
    WriteFifo(c, s, w);
    var k := Ahead(s.write.fifo, w);
    assert k > 0 ==> s.due[s.write.fifo[0]] <= s.due[s.write.fifo[k]];
  }

  /** A dispatch call moves `w` out or forward, or uses up credit. */
  lemma ServeAdvances(c: Config, s: State, now: int, w: Id)
    requires Inv(c, s) && now >= s.clock && Expired(s, w)
    ensures forall d :: HalfOf(s, d).fifo != [] ==> HalfOf(s, d).fifo[0] in s.due
    ensures var s' := Dispatch(c, s, now);
            && NoFurther(s, s', w)
            && (w in s'.out || Ahead(s'.write.fifo, w) < Ahead(s.write.fifo, w) || Credit(c, s') < Credit(c, s))
  {
    hide Inv, Credit, Move, Waiting, NoFurther, Ahead;
    DispatchInv(c, s, now);
    HeadWaits(c, s, w);
    NextInFifo(c, s, Read);
    NextInFifo(c, s, Write);
    var h := s.write.fifo[0];
    ServeWaits(c, s, now, h);
    var s' := Dispatch(c, s, now);
    assert h in s'.out || Credit(c, s') < Credit(c, s);
    var b := Batch(c, s);
    var t := s.(clock := now);
    if b.Some? {
      ServedHead(c, s, s', t.(batching := s.batching + 1), b.value.0, b.value.1, w);
    } else if Choose(c, s) == Some(Read) {
      ServedHead(c, s, s', t.(batching := 1, starved := if s.write.fifo != [] then s.starved + 1 else s.starved), Read,
                 Pick(s, Read, now), w);
    } else {
      ServedHead(c, s, s', t.(batching := 1, starved := 0), Write, Pick(s, Write, now), w);
    }
  }

  lemma NextInFifo(c: Config, s: State, d: Dir)
    requires Inv(c, s)
    ensures HalfOf(s, d).next.Some? ==> HalfOf(s, d).next.value in HalfOf(s, d).fifo
  {
    hide SortOk, FifoOk, OutOk;
    assert HalfOk(c, s, d);
  }

  /** If the head is out, everything behind it has come forward. */
  lemma ServedHead(c: Config, s: State, s': State, t: State, d: Dir, x: Id, w: Id)
    requires Inv(c, s) && Expired(s, w) && t.clock >= s.clock && s' == Move(t, d, x)
    requires t.read == s.read && t.write == s.write && t.due == s.due && t.out == s.out && x in HalfOf(s, d).fifo
    ensures NoFurther(s, s', w)
    ensures s.write.fifo[0] in s'.out ==> w in s'.out || Ahead(s'.write.fifo, w) < Ahead(s.write.fifo, w)
  {
    hide HalfOk, Move, Ahead;
    var h := s.write.fifo[0];
    MoveWaits(t, d, x, w);
    MoveOut(t, d, x);
    assert h !in s.out;
    WrongSide(c, s, d, x, h);
  }

  lemma StepWaits(c: Config, s: State, e: Event, w: Id)
    requires Inv(c, s) && Enabled(s, e) && Expired(s, w) && Spares(e, w)
    ensures var s' := Apply(c, s, e);
            && NoFurther(s, s', w)
            && (w in s'.out
                || (if e.Serve? then Ahead(s'.write.fifo, w) < Ahead(s.write.fifo, w) || Credit(c, s') < Credit(c, s)
                    else Credit(c, s') == Credit(c, s)))
  {
    hide Inv, Add, FrontMerged, Merged, Dispatch, NoFurther, Ahead;
    WriteFifo(c, s, w);
    match e
    case New(x, d, p, now) => AddWaits(c, s, x, d, p, now, w);
    case Front(x, d, p) => FrontWaits(s, d, x, p, w);
    case Merge(r, n, d) =>
      MergedInv(c, s, d, r, n);
      WrongSide(c, s, d, r, w);
      MergedWaits(c, s, d, r, n, w);
    case FrontMerge(r, n, d, p) =>
      FrontAbsorbedInv(c, s, d, r, n, p);
      WrongSide(c, s, d, r, w);
      var t := s.(pos := s.pos[n := p]);
      MergedWaits(c, t, d, r, n, w);
      SameFifo(s, t, Merged(t, d, r, n), w);
    case Serve(now) => ServeAdvances(c, s, now, w);
  }

  lemma SameFifo(s: State, t: State, s': State, w: Id)
    requires NoFurther(t, s', w) && t.write == s.write
    ensures NoFurther(s, s', w)
  {
  }

  lemma WriteFifo(c: Config, s: State, w: Id)
    requires Inv(c, s) && w in s.write.fifo
    ensures w in s.dir && FifoOk(s.due, s.dir, Write, s.clock + Expire(c, Write), s.write.fifo)
  {
    hide SortOk, OutOk, Same, Distinct, Timely;
    assert HalfOk(c, s, Write);
  }

  lemma WrongSide(c: Config, s: State, d: Dir, r: Id, w: Id)
    requires Inv(c, s) && r in HalfOf(s, d).fifo && w in s.write.fifo
    ensures r == w ==> d.Write?
  {
    hide Inv, HalfOk;
    Apart(c, s, d, r);
  }

  function Serves(es: seq<Event>): nat {
    if es == [] then 0 else (if es[0].Serve? then 1 else 0) + Serves(es[1..])
  }

  lemma IndexOut(s: State, d: Dir, x: Id, p: nat)
    ensures s.out <= Index(s, d, x, p).out
  {
    hide Remove, Latter, Insert, Alias;
  }

  lemma MergedOut(s: State, d: Dir, r: Id, n: Id)
    requires r in s.due && n in s.due
    ensures Merged(s, d, r, n).out == s.out
  {
    hide Remove, Latter, InsertAfter;
  }

  lemma DispatchOut(c: Config, s: State, now: int)
    requires forall d :: HalfOf(s, d).fifo != [] ==> HalfOf(s, d).fifo[0] in s.due
    ensures s.out <= Dispatch(c, s, now).out
  {
    hide Move, Pick;
    var t := s.(clock := now);
    var b := Batch(c, s);
    if b.Some? {
      MoveOut(t.(batching := s.batching + 1), b.value.0, b.value.1);
    } else if Choose(c, s) == Some(Read) {
      MoveOut(t.(batching := 1, starved := if s.write.fifo != [] then s.starved + 1 else s.starved), Read,
              Pick(s, Read, now));
    } else if Choose(c, s) == Some(Write) {
      MoveOut(t.(batching := 1, starved := 0), Write, Pick(s, Write, now));
    }
  }

  lemma MoveOut(s: State, d: Dir, x: Id)
    ensures Move(s, d, x).out == s.out + [x]
  {
    hide Remove, Latter;
  }

  lemma OutGrows(c: Config, s: State, e: Event)
    requires Inv(c, s) && Enabled(s, e)
    ensures s.out <= Apply(c, s, e).out
  {
    hide Inv, Index, Merged, Dispatch, Remove;
    match e
    case New(x, d, p, now) =>
      IndexOut(s.(pos := s.pos[x := p], dir := s.dir[x := d], sorted := s.sorted + 1, clock := now), d, x, p);
    case Front(x, d, p) =>
      IndexOut(WithHalf(s, d, HalfOf(s, d).(sort := Remove(HalfOf(s, d).sort, x))).(pos := s.pos[x := p]), d, x, p);
    case Merge(r, n, d) => MergedInv(c, s, d, r, n); MergedOut(s, d, r, n);
    case FrontMerge(r, n, d, p) => FrontAbsorbedInv(c, s, d, r, n, p); MergedOut(s.(pos := s.pos[n := p]), d, r, n);
    case Serve(now) => DispatchInv(c, s, now); DispatchOut(c, s, now);
  }

  lemma {:induction false} RunOutGrows(c: Config, s: State, es: seq<Event>, w: Id)
    requires Inv(c, s) && Possible(c, s, es) && w in s.out
    ensures w in Run(c, s, es).out
    decreases |es|
  {
    hide Inv, Enabled, Apply;
    if es != [] {
      ApplyInv(c, s, es[0]);
      OutGrows(c, s, es[0]);
      RunOutGrows(c, Apply(c, s, es[0]), es[1..], w);
    }
  }

  lemma MulGrows(a: nat, b: nat, f: nat)
    requires a <= b
    ensures a * f <= b * f && (b + 1) * f == b * f + f
  {
    assert b * f == a * f + (b - a) * f;
  }

  /** The number of calls that may pass a write by for each place it has to advance. */
  function Round(c: Config): nat { (c.writesStarved + 1) * BatchSize(c) + 1 }

  lemma CreditBound(c: Config, s: State)
    ensures Credit(c, s) < Round(c)
  {
    MulGrows(Rest(c.writesStarved, s.starved), c.writesStarved, BatchSize(c));
  }

  /** How many dispatch calls can still pass `w` by, wherever it stands. */
  function Patience(c: Config, s: State, w: Id): nat {
    Ahead(s.write.fifo, w) * Round(c) + Credit(c, s)
  }

  lemma PatienceFalls(c: Config, s: State, s': State, w: Id)
    requires Ahead(s'.write.fifo, w) <= Ahead(s.write.fifo, w)
    ensures Credit(c, s') <= Credit(c, s) ==> Patience(c, s', w) <= Patience(c, s, w)
    ensures Ahead(s'.write.fifo, w) < Ahead(s.write.fifo, w) || Credit(c, s') < Credit(c, s) ==>
              Patience(c, s', w) < Patience(c, s, w)
  {
    hide Ahead, Credit, Round;
    var k, k' := Ahead(s.write.fifo, w), Ahead(s'.write.fifo, w);
    CreditBound(c, s');
    MulGrows(k', k, Round(c));
    if k' < k { MulGrows(k' + 1, k, Round(c)); MulGrows(k', k', Round(c)); }
  }

  lemma {:induction false} WaitEnds(c: Config, s: State, es: seq<Event>, w: Id)
    requires Inv(c, s) && Possible(c, s, es) && Expired(s, w)
    requires (forall i :: 0 <= i < |es| ==> Spares(es[i], w)) && Serves(es) > Patience(c, s, w)
    ensures w in Run(c, s, es).out
    decreases |es|
  {
    hide Inv, Enabled, Apply, Expired, Credit, Spares, Patience, Ahead;
    ApplyInv(c, s, es[0]);
    StepWaits(c, s, es[0], w);
    var s' := Apply(c, s, es[0]);
    if w in s'.out {
      RunOutGrows(c, s', es[1..], w);
    } else {
      PatienceFalls(c, s, s', w);
      WaitEnds(c, s', es[1..], w);
    }
  }

  /** An expired write with `k` writes in front of it in its FIFO is dispatched within
      `(k + 1) * ((writes_starved + 1) * max(1, fifo_batch) + 1)` dispatch calls, whatever else is
      added, merged or served meanwhile. */
  lemma WritesNotStarved(c: Config, s: State, es: seq<Event>, w: Id)
    requires Inv(c, s) && Possible(c, s, es) && Expired(s, w) && forall i :: 0 <= i < |es| ==> Spares(es[i], w)
    requires Serves(es) >= (Ahead(s.write.fifo, w) + 1) * ((c.writesStarved + 1) * BatchSize(c) + 1)
    ensures w in Run(c, s, es).out
  {
    hide Inv, Enabled, Apply, Expired, Run, Possible, Credit, Serves, Ahead;
    CreditBound(c, s);
    MulGrows(Ahead(s.write.fifo, w), Ahead(s.write.fifo, w), Round(c));
    WaitEnds(c, s, es, w);
  }
}
