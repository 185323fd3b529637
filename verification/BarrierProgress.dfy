/** A barrier in progress does not get stuck: something is at the driver, or the head of the dispatch
    list may be issued.  Two things can spoil this while an empty barrier waits for the drain without
    a proxy on the list, and both are shown to do so in `BarrierLimits`. */
module BarrierProgress {
  import opened Options
  import opened BarrierModel
  import opened BarrierStructure
  import opened BarrierColors
  import opened BarrierUsers
  import opened BarrierDrain
  import opened BarrierRuns
  import opened BarrierSafety

  ghost predicate Base(s: State) { Structure(s) && Sound(s) && Coloring(s) }

  // ---------------------------------------------------------------- the order of the list, in every mode

  /** `a` may stand before `b`: no proxy and no older request stands behind a barrier, and no younger
      request before it. */
  predicate InLine(rq: Requests, a: Id, b: Id)
    requires a in rq && b in rq
  {
    && (UserBarrier(a, rq[a]) ==> b.User? && (UserFs(b, rq[b]) ==> rq[a].epoch < rq[b].epoch))
    && (UserFs(a, rq[a]) && UserBarrier(b, rq[b]) ==> rq[a].epoch <= rq[b].epoch)
  }

  ghost predicate Line(rq: Requests, list: seq<Id>)
    requires forall x :: x in list ==> x in rq
  {
    forall i, j :: 0 <= i < j < |list| ==> InLine(rq, list[i], list[j])
  }

  /** The epochs a filesystem request may have, depending on where it is. */
  predicate Bound(lo: nat, ended: nat, hepoch: nat, active: bool, id: Id, r: Request) {
    UserFs(id, r) ==>
      && (r.place == Sched ==> r.epoch == hepoch)
      && ((r.place == Listed || r.place == Driver) && r.started ==> r.epoch <= lo)
      && (active && r.place == Listed && !r.soft ==> ended < r.epoch)
  }

  ghost predicate Bounds(s: State) {
    forall id :: id in s.rq ==> Bound(Lo(s), s.h.ended, s.h.epoch, s.orig.Some?, id, s.rq[id])
  }

  ghost predicate Lined(s: State)
    requires Sound(s)
  {
    Line(s.rq, s.list) && Bounds(s)
  }

  lemma LineInsert(rq: Requests, list: seq<Id>, i: nat, id: Id, r: Request)
    requires forall x :: x in list ==> x in rq
    requires Line(rq, list) && id !in list && i <= |list|
    requires forall k :: 0 <= k < i ==> InLine(rq[id := r], list[k], id)
    requires forall k :: i <= k < |list| ==> InLine(rq[id := r], id, list[k])
    ensures Line(rq[id := r], Insert(list, i, id))
  {
    var rq', list' := rq[id := r], Insert(list, i, id);
    forall a, b | 0 <= a < b < |list'| ensures InLine(rq', list'[a], list'[b]) {
      var a' := if a < i then a else a - 1;
      var b' := if b < i then b else b - 1;
      if a != i && b != i {
        assert list'[a] == list[a'] && list'[b] == list[b'];
        assert InLine(rq, list[a'], list[b']);
      }
    }
  }

  lemma LineRemove(rq: Requests, list: seq<Id>, i: nat, r: Request)
    requires forall x :: x in list ==> x in rq
    requires Line(rq, list) && i < |list| && list[i] !in Remove(list, i)
    ensures Line(rq[list[i] := r], Remove(list, i))
  {
    var rq', list' := rq[list[i] := r], Remove(list, i);
    forall a, b | 0 <= a < b < |list'| ensures InLine(rq', list'[a], list'[b]) {
      var a' := if a < i then a else a + 1;
      var b' := if b < i then b else b + 1;
      assert list'[a] == list[a'] && list'[b] == list[b'] && list'[a] in list' && list'[b] in list';
      assert InLine(rq, list[a'], list[b']);
    }
  }

  lemma LineKeep(rq: Requests, list: seq<Id>, id: Id, r: Request)
    requires forall x :: x in list ==> x in rq
    requires Line(rq, list)
    requires id in list ==> SameRequest(rq[id], r)
    ensures Line(rq[id := r], list)
  {
    var rq' := rq[id := r];
    forall a, b | 0 <= a < b < |list| ensures InLine(rq', list[a], list[b]) {
      assert InLine(rq, list[a], list[b]) && list[a] in list && list[b] in list;
    }
  }

  lemma LineFront(rq: Requests, list: seq<Id>, id: Id, r: Request, wanted: bool)
    requires forall x :: x in list ==> x in rq
    requires Line(rq, list) && id !in list && !id.User?
    ensures Line(rq[id := r], Front(wanted, id, list))
  {
    hide Line;
    if wanted {
      LineInsert(rq, list, 0, id, r);
      assert Insert(list, 0, id) == [id] + list;
    } else {
      LineKeep(rq, list, id, r);
    }
  }

  lemma InLineAt(s: State, i: nat, j: nat)
    requires Sound(s) && Lined(s) && i < j < |s.list|
    ensures InLine(s.rq, s.list[i], s.list[j])
  {
  }

  lemma BoundOf(s: State, id: Id)
    requires Bounds(s) && id in s.rq
    ensures Bound(Lo(s), s.h.ended, s.h.epoch, s.orig.Some?, id, s.rq[id])
  {
  }

  lemma BoundsUpdate(s: State, s': State, id: Id)
    requires Bounds(s) && id in s'.rq && s'.rq == s.rq[id := s'.rq[id]]
    requires s'.h.ended == s.h.ended && s'.orig == s.orig && s'.h.epoch == s.h.epoch
    requires Bound(Lo(s), s.h.ended, s.h.epoch, s.orig.Some?, id, s'.rq[id])
    ensures Bounds(s')
  {
    hide Bound;
  }

  // ---------------------------------------------------------------- every step keeps it

  lemma AddBounds(s: State, n: nat, r: Request, where: Where)
    requires Sound(s) && Bounds(s) && AddOk(s, n, r, where)
    ensures Bounds(Add(s, n, r, where))
  {
    hide Joined;
    var s' := Add(s, n, r, where);
    forall x | x in s'.rq ensures Bound(Lo(s'), s'.h.ended, s'.h.epoch, s'.orig.Some?, x, s'.rq[x]) {
      if x != User(n) { BoundOf(s, x); }
    }
  }

  lemma AddLined(s: State, n: nat, r: Request, where: Where)
    requires Base(s) && Lined(s) && AddOk(s, n, r, where)
    ensures var s' := Add(s, n, r, where); Sound(s') ==> Lined(s')
  {
    hide Structure, Line, Bounds, Colors, BarrierQueue;
    var s' := Add(s, n, r, where);
    var id := User(n);
    NewRequest(s, n, r, where);
    AddBounds(s, n, r, where);
    match Placement(r, where)
    case AtFront =>
      LineInsert(s.rq, s.list, 0, id, s'.rq[id]);
      assert Insert(s.list, 0, id) == s'.list;
    case AtBack =>
      forall k | 0 <= k < |s.list| ensures InLine(s'.rq, s.list[k], id) {
        assert s.list[k] in s.list;
        ColorsOf(s, s.list[k]);
      }
      LineInsert(s.rq, s.list, |s.list|, id, s'.rq[id]);
      assert Insert(s.list, |s.list|, id) == s'.list;
    case _ =>
      LineKeep(s.rq, s.list, id, s'.rq[id]);
  }

  lemma DispatchLined(s: State, id: Id, i: nat)
    requires Base(s) && Lined(s) && Enabled(s, LDispatch(id, i))
    ensures var s' := Dispatch(s, id, i); Sound(s') ==> Lined(s')
  {
    hide Structure, Coloring, Line, Bounds;
    var s' := Dispatch(s, id, i);
    NotListed(s, id);
    ShapeOf(s, id);
    BoundOf(s, id);
    forall k | 0 <= k < i ensures InLine(s'.rq, s.list[k], id) {
      assert s.list[k] in s.list;
      ColorsOf(s, s.list[k]);
    }
    forall k | i <= k < |s.list| ensures InLine(s'.rq, id, s.list[k]) {
      assert s.list[k] in s.list && !Stops(s.rq[s.list[k]]);
    }
    LineInsert(s.rq, s.list, i, id, s'.rq[id]);
    if s.orig.Some? { OrigEpoch(s); }
    BoundsUpdate(s, s', id);
  }

  lemma StartLined(s: State, i: nat)
    requires Base(s) && Lined(s) && Enabled(s, LStart(i))
    ensures var s' := Start(s, i); Sound(s') ==> Lined(s')
  {
    hide Structure, Coloring, Line, Bounds, ListOk;
    var s' := Start(s, i);
    var id := s.list[i];
    StructureParts(s);
    OnList(s, id);
    BoundOf(s, id);
    ListRemove(s.rq, s.list, i, s'.rq[id]);
    LineRemove(s.rq, s.list, i, s'.rq[id]);
    BoundsUpdate(s, s', id);
  }

  /** A filesystem request at the head is not younger than the first listed barrier. */
  lemma HeadLo(s: State)
    requires Base(s) && Lined(s) && s.list != [] && UserFs(s.list[0], s.rq[s.list[0]])
    ensures s.rq[s.list[0]].epoch <= Lo(s)
  {
    hide Structure, Colors, Bounds, Line;
    ColorsOf(s, s.list[0]);
    if Lo(s) < s.h.epoch {
      var j := BarrierAt(s.rq, s.list, Lo(s), s.h.epoch, Lo(s));
      if j > 0 { InLineAt(s, 0, j); }
    }
  }

  lemma MarkLined(s: State)
    requires Base(s) && Lined(s) && s.list != []
    ensures var s' := MarkHead(s); Sound(s') ==> Lined(s')
  {
    hide Structure, Coloring, Line, Bounds;
    var id := s.list[0];
    var s' := MarkHead(s);
    BoundOf(s, id);
    if UserFs(id, s.rq[id]) { HeadLo(s); }
    LineKeep(s.rq, s.list, id, s'.rq[id]);
    BoundsUpdate(s, s', id);
  }

  /** No barrier stands among requests whose turn is before `DONE`: the next barrier has the other
      colour, and comes first. */
  lemma NoBarrierPassed(s: State, i: nat, k: nat)
    requires Base(s) && s.orig.Some? && k < i <= |s.list|
    requires forall m :: 0 <= m < i ==> ReqSeq(OrigColor(s), s.list[m], s.rq[s.list[m]]) < DONE
    ensures !UserBarrier(s.list[k], s.rq[s.list[k]])
  {
    hide Structure, Colors;
    if UserBarrier(s.list[k], s.rq[s.list[k]]) {
      var lo := Lo(s);
      assert s.list[k] in s.list;
      var j := BarrierAt(s.rq, s.list, lo, s.h.epoch, lo);
      ColorsOf(s, s.list[j]);
      ColorsOf(s, User(s.orig.value));
      ParityNext(s.h.ended);
    }
  }

  lemma RequeueSpotLine(s: State, id: Id, i: nat)
    requires Base(s) && Lined(s) && Enabled(s, LRequeue(id)) && i <= |s.list| && id !in s.list
    requires s.orig.None? ==> i == 0
    requires s.orig.Some? ==> forall m :: 0 <= m < i ==> ReqSeq(OrigColor(s), s.list[m], s.rq[s.list[m]]) < DONE
    ensures var rq' := s.rq[id := s.rq[id].(started := false, soft := true, place := Listed)];
            && (forall k :: 0 <= k < i ==> InLine(rq', s.list[k], id))
            && (forall k :: i <= k < |s.list| ==> InLine(rq', id, s.list[k]))
  {
    hide Structure, Colors, Line, Bounds;
    var rq' := s.rq[id := s.rq[id].(started := false, soft := true, place := Listed)];
    ShapeOf(s, id);
    BoundOf(s, id);
    forall k | 0 <= k < i ensures InLine(rq', s.list[k], id) {
      assert s.list[k] in s.list;
      NoBarrierPassed(s, i, k);
    }
    forall k | i <= k < |s.list| ensures InLine(rq', id, s.list[k]) {
      assert s.list[k] in s.list;
    }
  }

  lemma RequeueLined(s: State, id: Id)
    requires Base(s) && Lined(s) && Enabled(s, LRequeue(id))
    ensures var s' := Requeue(s, id); Sound(s') ==> Lined(s')
  {
    hide Structure, Coloring, Line, Bounds;
    var s' := Requeue(s, id);
    var r' := s'.rq[id];
    NotListed(s, id);
    var i := if s.ordseq == SEQ_NONE then 0
             else RequeueSpot(s.rq, s.list, OrigColor(s), ReqSeq(OrigColor(s), id, r'));
    RequeueSpotLine(s, id, i);
    LineInsert(s.rq, s.list, i, id, r');
    BoundsUpdate(s, s', id);
  }

  /** Completing stages, of a state that need not be consistent yet. */
  lemma CompleteSeqLined(s: State, bits: OrdSeq, error: int)
    requires s.orig.Some? && User(s.orig.value) in s.rq && User(s.orig.value) !in s.list
    requires (forall x :: x in s.list ==> x in s.rq) && Line(s.rq, s.list) && Bounds(s)
    ensures var s' := CompleteSeq(s, bits, error); Sound(s') ==> Lined(s')
  {
    hide CurSeq, Or, Line;
    var s' := CompleteSeq(s, bits, error);
    var n := User(s.orig.value);
    LineKeep(s.rq, s.list, n, s.rq[n].(place := Free));
    forall x | x in s'.rq ensures Bound(Lo(s'), s'.h.ended, s'.h.epoch, s'.orig.Some?, x, s'.rq[x]) {
      BoundOf(s, x);
    }
  }

  lemma ReleaseLined(s: State, id: Id, error: int)
    requires Base(s) && Lined(s) && Enabled(s, LComplete(id, error))
    ensures Sound(Release(s, id, error)) && Lined(Release(s, id, error))
  {
    hide Structure, Coloring, Line, Bounds;
    var s' := Release(s, id, error);
    ReleaseSound(s, id, error);
    NotListed(s, id);
    LineKeep(s.rq, s.list, id, s'.rq[id]);
    BoundsUpdate(s, s', id);
  }

  lemma CompleteLined(s: State, id: Id, error: int)
    requires Base(s) && Lined(s) && Enabled(s, LComplete(id, error))
    ensures var s' := Complete(s, id, error); Sound(s') ==> Lined(s')
  {
    hide Structure, Coloring, Line, CompleteSeq, Release, Bounds;
    var s1 := Release(s, id, error);
    ReleaseSound(s, id, error);
    ReleaseLined(s, id, error);
    if s.orig.Some? {
      ShapeOf(s, User(s.orig.value));
      NotListed(s, User(s.orig.value));
    }
    if id.User? {
      if Drained(s1) { CompleteSeqLined(s1, SEQ_DRAIN, 0); }
    } else {
      ProxyNotDrained(s, id);
      var s2 := s1.(h := s1.h.(errs := s1.h.errs + [error]));
      assert Bounds(s2) by { BoundsErrs(s1, s2); }
      CompleteSeqLined(s2, StageBit(id), error);
    }
  }

  lemma BoundsErrs(s: State, s': State)
    requires Bounds(s) && s' == s.(h := s.h.(errs := s'.h.errs))
    ensures Bounds(s')
  {
    hide Bound;
  }

  lemma ExpandLine(s: State)
    requires Base(s) && Lined(s) && s.list != [] && s.ordseq == SEQ_NONE && IsBarrier(s.rq[s.list[0]])
    ensures var x := Expand(s); (forall y :: y in x.list ==> y in x.rq) && Line(x.rq, x.list)
    ensures s.list[0] !in Expand(s).list
  {
    hide Structure, Coloring, Line, Bounds, ListOk, EffectiveOrder;
    StructureParts(s);
    ProxiesFree(s);
    var e := Expand(s);
    var n := s.list[0];
    var o := e.ordered;
    var rq1 := s.rq[n := e.rq[n]];
    var rq2 := rq1[Post := e.rq[Post]];
    var rq3 := rq2[Bar := e.rq[Bar]];
    ListRemove(s.rq, s.list, 0, e.rq[n]);
    var tail := Remove(s.list, 0);
    assert tail == s.list[1..];
    LineRemove(s.rq, s.list, 0, e.rq[n]);
    assert Pre !in s.list && Bar !in s.list && Post !in s.list by {
      NotListed(s, Pre);
      NotListed(s, Bar);
      NotListed(s, Post);
    }
    LineFront(rq1, tail, Post, e.rq[Post], o.doPost);
    LineFront(rq2, Front(o.doPost, Post, tail), Bar, e.rq[Bar], o.doBar);
    LineFront(rq3, Front(o.doBar, Bar, Front(o.doPost, Post, tail)), Pre, e.rq[Pre], o.doPre);
    assert e.rq == rq3[Pre := e.rq[Pre]];
  }

  lemma ExpandBounds(s: State)
    requires Base(s) && Lined(s) && s.list != [] && s.ordseq == SEQ_NONE && IsBarrier(s.rq[s.list[0]])
    ensures Bounds(Expand(s))
  {
    hide Structure, Line, Colors, EffectiveOrder, BarrierQueue;
    ProxiesFree(s);
    var e := Expand(s);
    HeadBarrier(s.rq, s.list, Lo(s), s.h.epoch);
    forall y | y in e.rq ensures Bound(Lo(e), e.h.ended, e.h.epoch, e.orig.Some?, y, e.rq[y]) {
      if y.User? && y != s.list[0] {
        BoundOf(s, y);
        if s.rq[y].place == Listed {
          InList(s, y);
          var k :| 0 <= k < |s.list| && s.list[k] == y;
          InLineAt(s, 0, k);
        }
      }
    }
  }

  lemma PeekLined(s: State)
    requires Base(s) && Lined(s) && s.list != []
    ensures var s' := Peek(s); Sound(s') ==> Lined(s')
  {
    hide Structure, Coloring, Line, Bounds, CompleteSeq, Expand, MarkHead, Refuse, Sound;
    var (t, v) := DoOrdered(s);
    HeadFacts(s);
    if s.ordseq == SEQ_NONE && IsBarrier(s.rq[s.list[0]]) {
      if s.mode != ORDERED_NONE {
        ExpandLine(s);
        ExpandBounds(s);
        ExpandOrig(s);
        StartOrderedColoring(s);
        var x := Expand(s);
        assert User(x.orig.value) in x.rq by { ExpandKeeps(s); }
        CompleteSeqLined(x, Skipped(x.ordered, MustWait(x)), 0);
        if v == Issue { StartOrderedHead(s); MarkLined(t); }
      } else {
        RefuseLined(s);
      }
    } else if v == Issue {
      MarkLined(s);
    }
  }

  lemma RefuseLined(s: State)
    requires Base(s) && Lined(s) && s.list != [] && s.ordseq == SEQ_NONE && IsBarrier(s.rq[s.list[0]])
    ensures var s' := Refuse(s); Sound(s') ==> Lined(s')
  {
    hide Structure, Coloring, Line, ListOk;
    StructureParts(s);
    ProxiesFree(s);
    var s' := Refuse(s);
    ListRemove(s.rq, s.list, 0, s'.rq[s.list[0]]);
    LineRemove(s.rq, s.list, 0, s'.rq[s.list[0]]);
    assert Remove(s.list, 0) == s'.list;
    forall y | y in s'.rq ensures Bound(Lo(s'), s'.h.ended, s'.h.epoch, s'.orig.Some?, y, s'.rq[y]) {
      BoundOf(s, y);
    }
  }

  lemma StepLined(s: State, l: Label)
    requires Base(s) && Lined(s) && Enabled(s, l)
    ensures Sound(Apply(s, l)) ==> Lined(Apply(s, l))
  {
    hide Structure, Coloring, Lined, Add, Dispatch, Peek, Start, Complete, Requeue;
    match l
    case LAdd(n, r, where) => AddLined(s, n, r, where);
    case LDispatch(id, i) => DispatchLined(s, id, i);
    case LPeek => PeekLined(s);
    case LStart(i) => StartLined(s, i);
    case LComplete(id, error) => CompleteLined(s, id, error);
    case LRequeue(id) => RequeueLined(s, id);
  }

  // ---------------------------------------------------------------- waiting for the drain

  ghost predicate Busy(s: State) { exists id :: id in s.rq && s.rq[id].place == Driver }

  predicate Draining(s: State) { s.orig.Some? && !s.ordseq.drain }

  /** While a barrier waits for the drain, its proxies wait on the list, and something is at the driver
      or the head of the list is part of what has to drain. */
  ghost predicate Unstuck(s: State)
    requires Sound(s)
  {
    Draining(s) ==>
      && (forall p: Id :: Wanted(s.ordered, p) ==> p in s.rq && s.rq[p].place == Listed)
      && (Busy(s) || (s.list != [] && ReqSeq(OrigColor(s), s.list[0], s.rq[s.list[0]]) <= DRAIN))
  }

  predicate Queued(r: Request) { r.place == Sched || r.place == Listed }

  /** No request can overtake a request that is not a filesystem request. */
  ghost predicate Marked(s: State) {
    forall id :: id in s.rq && id.User? && s.rq[id].kind != Fs && Queued(s.rq[id]) ==> s.rq[id].soft || s.rq[id].hard
  }

  /** Every barrier that drains has a proxy on the list, or nothing there can be overtaken. */
  ghost predicate Guarded(s: State) { s.mode.doPre || s.mode == ORDERED_NONE || NoEmpty(s) || Marked(s) }

  lemma UsersLeft(s: State)
    requires s.inFlight == |Accounted(s.scrub, s.rq)| && s.inFlight != 0
    ensures Busy(s)
  {
    var a := Accounted(s.scrub, s.rq);
    assert a != {};
    var id :| id in a;
  }

  /** What `elv_completed_request` leaves when it finds the queue not drained. */
  lemma NotDrained(s: State)
    requires Sound(s) && s.inFlight == |Accounted(s.scrub, s.rq)| && !Drained(s) && Draining(s) && s.ordseq.started
    ensures Busy(s) || (s.list != [] && ReqSeq(OrigColor(s), s.list[0], s.rq[s.list[0]]) <= DRAIN)
  {
    hide Accounted;
    if s.inFlight != 0 { UsersLeft(s); }
  }

  lemma AddUnstuck(s: State, n: nat, r: Request, where: Where)
    requires Base(s) && Unstuck(s) && AddOk(s, n, r, where)
    ensures var s' := Add(s, n, r, where); Sound(s') ==> Unstuck(s')
  {
    hide Structure, Coloring;
    NewRequest(s, n, r, where);
    var s' := Add(s, n, r, where);
    if Draining(s) && Busy(s) {
      var id :| id in s.rq && s.rq[id].place == Driver;
      assert id in s'.rq && s'.rq[id].place == Driver;
    }
  }

  lemma StartUnstuck(s: State, i: nat)
    requires Base(s) && Unstuck(s) && Enabled(s, LStart(i))
    ensures var s' := Start(s, i); Sound(s') ==> Unstuck(s')
  {
    hide Coloring, ListOk, Shapes, Accounted, Mask;
    var s' := Start(s, i);
    var id := s.list[i];
    assert s'.rq[id].place == Driver;
    StructureParts(s);
    OnList(s, id);
    if !id.User? && Draining(s) { ProxyBeforeDrain(s, id); }
  }

  /** Nothing is put in front of a list whose head has to drain. */
  lemma HeadStays(s: State, id: Id)
    requires Base(s) && Lined(s) && Guarded(s) && Unstuck(s) && Draining(s) && Enabled(s, LDispatch(id, 0))
    requires s.list != []
    ensures ReqSeq(OrigColor(s), s.list[0], s.rq[s.list[0]]) > DRAIN
  {
    hide ListOk, Accounted, Colors, Line, Bounds, NoEmpty, Marked;
    var x := s.list[0];
    OnList(s, x);
    assert !Stops(s.rq[x]);
    ShapeOf(s, x);
    if ReqSeq(OrigColor(s), x, s.rq[x]) <= DRAIN {
      NoProxyWanted(s, id);
      BareGuard(s);
      if s.rq[x].kind == Fs { BareHead(s, id); }
      MarkedOf(s, x);
      assert false;
    }
  }

  /** A proxy on the list cannot be passed. */
  lemma NoProxyWanted(s: State, id: Id)
    requires Base(s) && Unstuck(s) && Draining(s) && Enabled(s, LDispatch(id, 0))
    ensures forall p: Id :: !Wanted(s.ordered, p)
  {
    hide Coloring, Accounted, Mask, Stages;
    forall p: Id ensures !Wanted(s.ordered, p) {
      if Wanted(s.ordered, p) {
        InList(s, p);
        ShapeOf(s, p);
      }
    }
  }

  /** Without a proxy the barrier is empty and the mode has no pre-flush. */
  lemma BareGuard(s: State)
    requires Base(s) && Guarded(s) && Draining(s) && forall p: Id :: !Wanted(s.ordered, p)
    ensures Marked(s)
  {
    hide ListOk, Accounted, Coloring, Stages, Marked;
    assert !Wanted(s.ordered, Pre) && !Wanted(s.ordered, Bar);
    ShapeOf(s, User(s.orig.value));
  }

  lemma MarkedOf(s: State, x: Id)
    requires Marked(s) && x in s.rq && x.User? && s.rq[x].kind != Fs && s.rq[x].place == Listed
    ensures s.rq[x].soft || s.rq[x].hard
  {
  }

  /** A filesystem request that can be passed is younger than the barrier, and no other barrier is
      listed then, so it has the other colour. */
  lemma BareHead(s: State, id: Id)
    requires Base(s) && Lined(s) && Draining(s) && Enabled(s, LDispatch(id, 0)) && s.list != []
    requires UserFs(s.list[0], s.rq[s.list[0]])
    ensures s.rq[s.list[0]].color != OrigColor(s)
  {
    hide Structure, Colors, Line, Bounds, ListOk;
    var x := s.list[0];
    StructureParts(s);
    OnList(s, x);
    BoundOf(s, x);
    ColorsOf(s, x);
    ColorsOf(s, User(s.orig.value));
    ParityNext(s.h.ended);
    assert !Stops(s.rq[x]);
    if Lo(s) < s.h.epoch {
      var _ := BarrierAt(s.rq, s.list, Lo(s), s.h.epoch, Lo(s));
    }
  }

  lemma DispatchUnstuck(s: State, id: Id, i: nat)
    requires Base(s) && Lined(s) && Guarded(s) && Unstuck(s) && Enabled(s, LDispatch(id, i))
    ensures var s' := Dispatch(s, id, i); Sound(s') ==> Unstuck(s')
  {
    hide Structure, Coloring, Lined, Guarded;
    var s' := Dispatch(s, id, i);
    NotListed(s, id);
    ShapeOf(s, id);
    if Draining(s) {
      ShapeOf(s, User(s.orig.value));
      if Busy(s) {
        var x :| x in s.rq && s.rq[x].place == Driver;
        assert s'.rq[x].place == Driver;
      } else if i == 0 {
        HeadStays(s, id);
      } else {
        assert s'.list[0] == s.list[0] && s.list[0] != id;
      }
    }
  }

  lemma RequeueUnstuck(s: State, id: Id)
    requires Base(s) && Unstuck(s) && Enabled(s, LRequeue(id)) && !Astray(s, LRequeue(id))
    ensures var s' := Requeue(s, id); Sound(s') ==> Unstuck(s')
  {
    hide Structure, Coloring, RequeueSpot, Insert;
    var s' := Requeue(s, id);
    if Draining(s) {
      assert id != User(s.orig.value) by { ShapeOf(s, User(s.orig.value)); }
      assert id.User? by { if !id.User? { ProxyNotDrained(s, id); } }
      assert ReqSeq(OrigColor(s), id, s'.rq[id]) == DRAIN;
      assert s'.list[0] == id;
    }
  }

  lemma ReleasePlaces(s: State, id: Id, error: int)
    requires id in s.rq && id.User?
    ensures var s1 := Release(s, id, error);
            && s1.ordered == s.ordered && s1.scrub == s.scrub
            && forall p: Id :: !p.User? && p in s.rq ==> p in s1.rq && s1.rq[p] == s.rq[p]
  {
  }

  lemma UserCompleteUnstuck(s: State, id: Id, error: int)
    requires Base(s) && Unstuck(s) && Enabled(s, LComplete(id, error)) && id.User?
    ensures var s' := ElvCompleted(s, id, error); Sound(s') ==> Unstuck(s')
  {
    hide Structure, Coloring, Accounted, Release, ReqSeq;
    var s1 := Release(s, id, error);
    ReleaseSound(s, id, error);
    ReleaseStructure(s, id, error);
    ReleasePlaces(s, id, error);
    if Draining(s) {
      ActiveStarted(s);
      if !Drained(s1) { NotDrained(s1); }
    }
  }

  lemma ProxyCompleteUnstuck(s: State, id: Id, error: int)
    requires Base(s) && Enabled(s, LComplete(id, error)) && !id.User?
    ensures var s' := Complete(s, id, error); !Draining(s')
  {
    hide Structure, Coloring;
    ReleaseSound(s, id, error);
    ProxyNotDrained(s, id);
  }

  lemma StartOrderedUnstuck(s: State)
    requires Base(s) && s.list != [] && s.ordseq == SEQ_NONE && IsBarrier(s.rq[s.list[0]]) && s.mode != ORDERED_NONE
    ensures var (t, v) := StartOrdered(s); Sound(t) ==> Unstuck(t) && (v == Issue ==> !Draining(t))
  {
    hide Structure, Coloring, ReqSeq, Expand, Wanted, Accounted;
    var x := Expand(s);
    ExpandShapes(s);
    ExpandOrig(s);
    ExpandKeeps(s);
    if MustWait(x) { UsersLeft(x); }
    forall p: Id | Wanted(x.ordered, p) ensures p in x.rq && x.rq[p].place == Listed { ExpandPlaces(s, p); }
  }

  lemma ExpandPlaces(s: State, p: Id)
    requires Sound(s) && s.list != [] && s.list[0].User? && Wanted(Expand(s).ordered, p)
    ensures p in Expand(s).rq && Expand(s).rq[p].place == Listed
  {
    hide EffectiveOrder;
  }

  lemma PeekUnstuck(s: State)
    requires Base(s) && Unstuck(s) && s.list != []
    ensures var s' := Peek(s); Sound(s') ==> Unstuck(s')
  {
    hide Structure, Coloring, StartOrdered, Sound;
    var (t, v) := DoOrdered(s);
    HeadFacts(s);
    if s.ordseq == SEQ_NONE && IsBarrier(s.rq[s.list[0]]) && s.mode != ORDERED_NONE {
      StartOrderedColoring(s);
      StartOrderedUnstuck(s);
    } else if s.ordseq == SEQ_NONE {
      ProxiesFree(s);
      assert Peek(s).orig == None;
      NoDrain(Peek(s));
    } else if v == Issue {
      MarkUnstuck(s);
    }
  }

  lemma MarkUnstuck(s: State)
    requires Base(s) && Unstuck(s) && s.list != []
    ensures var s' := MarkHead(s); Sound(s') ==> Unstuck(s')
  {
    hide Structure, Coloring;
    var s' := MarkHead(s);
    if Draining(s) && Busy(s) {
      var x :| x in s.rq && s.rq[x].place == Driver;
      assert s'.rq[x].place == Driver;
    }
  }

  /** A request that does not belong to the barrier that is draining is put back. */
  predicate Astray(s: State, l: Label)
    requires Sound(s)
  {
    l.LRequeue? && Draining(s) && l.id in s.rq && UserFs(l.id, s.rq[l.id]) && s.rq[l.id].color != OrigColor(s)
  }

  lemma StepUnstuck(s: State, l: Label)
    requires Base(s) && Lined(s) && Guarded(s) && Unstuck(s) && Enabled(s, l) && !Astray(s, l)
    ensures Sound(Apply(s, l)) ==> Unstuck(Apply(s, l))
  {
    hide Structure, Coloring, Lined, Guarded, Unstuck, Add, Dispatch, Peek, Start, Complete, Requeue;
    match l
    case LAdd(n, r, where) => AddUnstuck(s, n, r, where);
    case LDispatch(id, i) => DispatchUnstuck(s, id, i);
    case LPeek => PeekUnstuck(s);
    case LStart(i) => StartUnstuck(s, i);
    case LComplete(id, error) =>
      if id.User? {
        UserCompleteUnstuck(s, id, error);
        CompleteUser(s, id, error);
      } else {
        ProxyCompleteUnstuck(s, id, error);
        NoDrain(Complete(s, id, error));
      }
    case LRequeue(id) => RequeueUnstuck(s, id);
  }

  lemma CompleteUser(s: State, id: Id, error: int)
    requires Sound(s) && id in s.rq && id.User?
    ensures Complete(s, id, error) == ElvCompleted(s, id, error)
  {
  }

  lemma NoDrain(s: State)
    requires !Draining(s)
    ensures Sound(s) ==> Unstuck(s)
  {
  }

  // ---------------------------------------------------------------- what submissions decide

  /** A SCSI command that may be overtaken on the dispatch list. */
  predicate Passable(l: Label) { l.LAdd? && l.where == InVerify && !l.r.soft && !l.r.hard }

  lemma StepMarked(s: State, l: Label)
    requires Sound(s) && Enabled(s, l) && Marked(s) && !Passable(l)
    ensures Marked(Apply(s, l))
  {
    hide Peek, Complete, Requeue, Dispatch, Start;
    if !l.LAdd? {
      StepUsers(s, l);
      assert Marked(Apply(s, l)) by { KindredMarked(s, Apply(s, l)); }
    }
  }

  lemma KindredMarked(s: State, s': State)
    requires Marked(s) && UsersKept(s, s')
    ensures Marked(s')
  {
  }

  // ---------------------------------------------------------------- no stall

  /** Something is at the driver, or the driver is given something when it asks. */
  ghost predicate NoStall(s: State)
    requires Sound(s)
  {
    s.orig.Some? ==> Busy(s) || (s.list != [] && DoOrdered(s).1 == Issue)
  }

  lemma DrainingMoves(s: State)
    requires Base(s) && Unstuck(s) && Draining(s)
    ensures NoStall(s)
  {
    hide ListOk, Shapes, Accounted, Stages, Coloring, StartOrdered, Refuse;
    ActiveStarted(s);
  }

  /** After the drain a stage is left, and so is its proxy. */
  lemma StageProxy(s: State) returns (p: Id)
    requires Structure(s) && s.orig.Some? && s.ordseq.drain
    ensures p in s.rq && !p.User? && Stage(p) == CurSeq(s.ordseq)
    ensures (s.rq[p].place == Listed || s.rq[p].place == Driver)
  {
    hide ListOk, Shape, Accounted;
    p := if !s.ordseq.pre then Pre else if !s.ordseq.bar then Bar else Post;
  }

  lemma TagMoves(s: State)
    requires Base(s) && Lined(s) && s.orig.Some? && s.ordered.byTag && s.ordseq.drain
    ensures NoStall(s)
  {
    hide Structure, Coloring, StartOrdered, Refuse, Line, Bounds;
    var p := StageProxy(s);
    if s.rq[p].place == Listed {
      InList(s, p);
      var k :| 0 <= k < |s.list| && s.list[k] == p;
      if k > 0 { InLineAt(s, 0, k); }
      ShapeOf(s, s.list[0]);
    }
  }

  lemma StagesMove(s: State)
    requires Inv(s) && s.orig.Some? && !s.ordered.byTag && s.ordseq.drain
    ensures NoStall(s)
  {
    hide Structure, Coloring, StartOrdered, Refuse, DrainOrder, Turns, DrainMode;
    var p := StageProxy(s);
    if s.rq[p].place == Listed {
      InList(s, p);
      var k :| 0 <= k < |s.list| && s.list[k] == p;
      var x := s.list[0];
      if k > 0 {
        BeforeOf(s, 0, k);
        if UserFs(x, s.rq[x]) { ListedAfter(s, x); }
        if !x.User? { EarlierStage(s, x, p); }
      }
    }
  }

  lemma EarlierStage(s: State, x: Id, p: Id)
    requires Structure(s) && x in s.list && !x.User? && Stage(p) == CurSeq(s.ordseq)
    ensures Stage(x) >= Stage(p)
  {
    hide Shapes, Accounted;
    assert s.rq[x].place == Listed;
  }

  /** Where nothing drains by tag, a finished drain finishes an empty barrier. */
  lemma BareDone(s: State)
    requires Structure(s) && s.orig.Some? && !s.ordered.byTag && s.ordseq.drain
    ensures DrainMode(s.mode)
  {
    hide ListOk, Shapes, Accounted;
  }

  // ---------------------------------------------------------------- whole runs

  /** A barrier that drains has a proxy, or nothing on the list can be overtaken: the mode has a
      pre-flush or no ordering, or no barrier is empty, or no command is submitted that others may pass. */
  ghost predicate Tame(mode: Ordered, labels: seq<Label>) {
    || mode.doPre || mode == ORDERED_NONE
    || (forall k :: 0 <= k < |labels| ==> !EmptyBarrier(labels[k]))
    || (forall k :: 0 <= k < |labels| ==> !Passable(labels[k]))
  }

  /** The one mode that mixes tags and draining relies on the device to complete requests in tag order:
      none submitted before an earlier barrier is put back while a barrier drains. */
  ghost predicate InTagOrder(states: seq<State>, labels: seq<Label>)
    requires Run(states, labels)
  {
    states[0].mode == ORDERED_TAG ==> forall k :: 0 <= k < |labels| ==> !Astray(states[k], labels[k])
  }

  lemma {:induction false} RunMarked(states: seq<State>, labels: seq<Label>, i: nat)
    requires Run(states, labels) && i < |states| && forall k :: 0 <= k < |labels| ==> !Passable(labels[k])
    ensures Marked(states[i])
  {
    hide Marked, Apply, Passable;
    if i == 0 {
      InitMarked(states[0]);
    } else {
      RunMarked(states, labels, i - 1);
      StepMarked(states[i - 1], labels[i - 1]);
    }
  }

  lemma InitMarked(s: State)
    requires Init(s)
    ensures Marked(s)
  {
  }

  lemma RunGuarded(states: seq<State>, labels: seq<Label>, i: nat)
    requires Run(states, labels) && (forall k :: 0 <= k < |labels| ==> FsBarriersOnly(labels[k])) && i < |states|
    requires Tame(states[0].mode, labels)
    ensures Guarded(states[i])
  {
    hide Marked, NoEmpty, Run, FsBarriersOnly, Passable, EmptyBarrier;
    if states[0].mode.doPre || states[0].mode == ORDERED_NONE {
      RunAllModes(states, labels, i);
    } else if forall k :: 0 <= k < |labels| ==> !EmptyBarrier(labels[k]) {
      RunNoEmpty(states, labels, i);
    } else {
      RunMarked(states, labels, i);
    }
  }

  /** Under ordering by draining the driver only holds what has to drain. */
  lemma DrainsInOrder(s: State, l: Label)
    requires Inv(s) && Enabled(s, l)
    ensures !Astray(s, l)
  {
    hide Structure, Coloring, Drains;
    if Astray(s, l) {
      DriverRequest(s, l.id);
    }
  }

  lemma {:induction false} RunProgress(states: seq<State>, labels: seq<Label>, i: nat)
    requires Run(states, labels) && (forall k :: 0 <= k < |labels| ==> FsBarriersOnly(labels[k])) && i < |states|
    requires Tame(states[0].mode, labels) && InTagOrder(states, labels)
    ensures Base(states[i]) && Lined(states[i]) && Unstuck(states[i])
  {
    hide Structure, Coloring, Lined, Unstuck, Apply, Init, Tame, Guarded, Astray;
    if i == 0 {
      RunAllModes(states, labels, 0);
      InitProgress(states[0]);
    } else {
      var s, l := states[i - 1], labels[i - 1];
      RunProgress(states, labels, i - 1);
      RunGuarded(states, labels, i - 1);
      assert FsBarriersOnly(l);
      if DrainMode(states[0].mode) {
        RunDrains(states, labels, i - 1);
        DrainsInOrder(s, l);
      } else if states[0].mode != ORDERED_TAG {
        RunAllModes(states, labels, i - 1);
        assert !Astray(s, l) by { NeverDraining(s); Together(s, l); }
      }
      StepAllModes(s, l);
      StepLined(s, l);
      StepUnstuck(s, l);
    }
  }

  /** With tags and a pre-flush there is always a command to carry the tag. */
  lemma NeverDraining(s: State)
    requires Structure(s) && !DrainMode(s.mode) && s.mode != ORDERED_TAG
    ensures !Draining(s)
  {
    hide ListOk, Shapes, Accounted, Stages;
  }

  lemma Together(s: State, l: Label)
    requires Sound(s) && !Draining(s)
    ensures !Astray(s, l)
  {
  }

  lemma InitProgress(s: State)
    requires Init(s) && Sound(s)
    ensures Lined(s) && Unstuck(s)
  {
  }

  /** No run gets stuck: while a barrier is in progress, something is at the driver or the driver is
      given something when it asks.  Without ordering no barrier ever is in progress. */
  lemma NeverStalls(states: seq<State>, labels: seq<Label>, i: nat)
    requires Run(states, labels) && i < |states|
    requires states[0].mode == ORDERED_NONE || forall k :: 0 <= k < |labels| ==> FsBarriersOnly(labels[k])
    requires Tame(states[0].mode, labels) && InTagOrder(states, labels)
    ensures Sound(states[i]) && NoStall(states[i])
  {
    hide Structure, Coloring, Lined, Unstuck, NoStall, Run, Tame, DrainMode, InTagOrder, FsBarriersOnly, Steady,
         EmptyBarrier;
    var s := states[i];
    if states[0].mode == ORDERED_NONE {
      RunSteady(states, labels, i);
      SteadyParts(s);
      Unordered(s);
    } else {
      RunProgress(states, labels, i);
      if s.orig.None? {
        Idle(s);
      } else if Draining(s) {
        DrainingMoves(s);
      } else if s.ordered.byTag {
        TagMoves(s);
      } else {
        BareDone(s);
        RunAllModes(states, labels, i);
        RunDrains(states, labels, i);
        StagesMove(s);
      }
    }
  }

  lemma Unordered(s: State)
    requires Structure(s) && Sound(s) && s.mode == ORDERED_NONE
    ensures NoStall(s)
  {
    hide ListOk, Shapes, Accounted, Stages;
  }

  lemma Idle(s: State)
    requires Sound(s) && s.orig.None?
    ensures NoStall(s)
  {
  }
}
