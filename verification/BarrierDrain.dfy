/** Ordering by draining: the dispatch list never lets a request overtake a barrier, and what the
    driver holds always belongs to the epoch that is being served. */
module BarrierDrain {
  import opened Options
  import opened BarrierModel
  import opened BarrierStructure
  import opened BarrierColors

  predicate UserFs(id: Id, r: Request) { id.User? && r.kind == Fs }

  /** `a` may stand before `b` on the dispatch list while the barrier of epoch `e` is due. */
  predicate Before(rq: Requests, e: nat, a: Id, b: Id)
    requires a in rq && b in rq
  {
    && (UserFs(a, rq[a]) && UserFs(b, rq[b]) ==>
          rq[a].epoch <= rq[b].epoch && (rq[a].hard ==> rq[a].epoch < rq[b].epoch))
    && (UserFs(a, rq[a]) && !b.User? ==> rq[a].epoch <= e)
    && (!a.User? && UserFs(b, rq[b]) ==> e < rq[b].epoch)
    && (!a.User? && !b.User? ==> Stage(a) < Stage(b))
  }

  ghost predicate DrainOrder(rq: Requests, list: seq<Id>, e: nat)
    requires forall x :: x in list ==> x in rq
  {
    forall i, j :: 0 <= i < j < |list| ==> Before(rq, e, list[i], list[j])
  }

  /** What a request may be doing while the barrier of epoch `e` is due and `o` are the stages
      completed so far. */
  predicate Turn(e: nat, hepoch: nat, o: OrdSeq, id: Id, r: Request) {
    && (UserFs(id, r) && r.place != Free ==>
          && e <= r.epoch
          && (r.place == Sched ==> r.epoch == hepoch)
          && (r.started || r.place == Driver ==> r.epoch == e)
          && (!IsBarrier(r) && (r.place == Listed || r.place == Driver) && o.drain ==> e < r.epoch)
          && (r.place == Listed && o.started && r.epoch == e ==> r.soft))
    && (!id.User? && r.place != Free && r.started ==> Stage(id) == CurSeq(o))
  }

  ghost predicate Turns(s: State) {
    forall id :: id in s.rq ==> Turn(s.h.ended, s.h.epoch, s.ordseq, id, s.rq[id])
  }

  ghost predicate Drains(s: State)
    requires Sound(s)
  {
    DrainMode(s.mode) && DrainOrder(s.rq, s.list, s.h.ended) && Turns(s)
  }

  // ---------------------------------------------------------------- the order of the list

  lemma OrderInsert(rq: Requests, list: seq<Id>, e: nat, i: nat, id: Id, r: Request)
    requires forall x :: x in list ==> x in rq
    requires DrainOrder(rq, list, e) && id !in list && i <= |list|
    requires forall k :: 0 <= k < i ==> Before(rq[id := r], e, list[k], id)
    requires forall k :: i <= k < |list| ==> Before(rq[id := r], e, id, list[k])
    ensures DrainOrder(rq[id := r], Insert(list, i, id), e)
  {
    var rq', list' := rq[id := r], Insert(list, i, id);
    forall a, b | 0 <= a < b < |list'| ensures Before(rq', e, list'[a], list'[b]) {
      var a' := if a < i then a else a - 1;
      var b' := if b < i then b else b - 1;
      if a != i && b != i {
        assert list'[a] == list[a'] && list'[b] == list[b'];
        assert Before(rq, e, list[a'], list[b']);
      }
    }
  }

  lemma OrderRemove(rq: Requests, list: seq<Id>, e: nat, i: nat, r: Request)
    requires forall x :: x in list ==> x in rq
    requires DrainOrder(rq, list, e) && i < |list| && list[i] !in Remove(list, i)
    ensures DrainOrder(rq[list[i] := r], Remove(list, i), e)
  {
    var rq', list' := rq[list[i] := r], Remove(list, i);
    forall a, b | 0 <= a < b < |list'| ensures Before(rq', e, list'[a], list'[b]) {
      var a' := if a < i then a else a + 1;
      var b' := if b < i then b else b + 1;
      assert list'[a] == list[a'] && list'[b] == list[b'] && list'[a] in list' && list'[b] in list';
      assert Before(rq, e, list[a'], list[b']);
    }
  }

  lemma OrderKeep(rq: Requests, list: seq<Id>, e: nat, id: Id, r: Request)
    requires forall x :: x in list ==> x in rq
    requires DrainOrder(rq, list, e)
    requires id in list ==> SameRequest(rq[id], r)
    ensures DrainOrder(rq[id := r], list, e)
  {
    var rq' := rq[id := r];
    forall a, b | 0 <= a < b < |list| ensures Before(rq', e, list[a], list[b]) {
      assert Before(rq, e, list[a], list[b]) && list[a] in list && list[b] in list;
    }
  }

  /** Without proxies the order does not depend on which barrier is due. */
  lemma OrderLift(rq: Requests, list: seq<Id>, e: nat, e': nat)
    requires forall x :: x in list ==> x in rq && x.User?
    requires DrainOrder(rq, list, e)
    ensures DrainOrder(rq, list, e')
  {
    forall a, b | 0 <= a < b < |list| ensures Before(rq, e', list[a], list[b]) {
      assert Before(rq, e, list[a], list[b]) && list[a] in list && list[b] in list;
    }
  }

  /** Where the barrier of epoch `k` stands, relative to position `i`. */
  lemma BarrierAt(rq: Requests, list: seq<Id>, lo: nat, hi: nat, k: nat) returns (j: nat)
    requires forall x :: x in list ==> x in rq
    requires BarrierQueue(rq, list, lo, hi) && lo <= k < hi
    ensures j < |list| && UserBarrier(list[j], rq[list[j]]) && rq[list[j]].epoch == k
  {
    assert HasBarrier(rq, list, k);
    var id :| id in list && id in rq && UserBarrier(id, rq[id]) && rq[id].epoch == k;
    j :| 0 <= j < |list| && list[j] == id;
  }

  /** A filesystem request at the head is not younger than the first listed barrier. */
  lemma HeadEpoch(rq: Requests, list: seq<Id>, e: nat, lo: nat, hi: nat)
    requires forall x :: x in list ==> x in rq
    requires BarrierQueue(rq, list, lo, hi) && DrainOrder(rq, list, e)
    requires list != [] && UserFs(list[0], rq[list[0]]) && rq[list[0]].epoch <= hi && lo <= hi
    ensures rq[list[0]].epoch <= lo
  {
    if lo < hi {
      var j := BarrierAt(rq, list, lo, hi, lo);
      assert j > 0 ==> Before(rq, e, list[0], list[j]);
    }
  }

  /** Behind the last stop mark every filesystem request belongs to the newest epoch. */
  lemma TailEpoch(rq: Requests, list: seq<Id>, e: nat, lo: nat, hi: nat, i: nat, k: nat)
    requires forall x :: x in list ==> x in rq
    requires BarrierQueue(rq, list, lo, hi) && DrainOrder(rq, list, e)
    requires i <= k < |list| && forall m :: i <= m < |list| ==> !Stops(rq[list[m]])
    requires UserFs(list[k], rq[list[k]]) && lo <= rq[list[k]].epoch
    ensures hi <= rq[list[k]].epoch
  {
    if rq[list[k]].epoch < hi {
      var j := BarrierAt(rq, list, lo, hi, rq[list[k]].epoch);
    }
  }

  lemma TurnOf(s: State, id: Id)
    requires Turns(s) && id in s.rq
    ensures Turn(s.h.ended, s.h.epoch, s.ordseq, id, s.rq[id])
  {
  }

  lemma TurnsUpdate(s: State, s': State, id: Id)
    requires Turns(s) && id in s'.rq && s'.rq == s.rq[id := s'.rq[id]]
    requires s'.h.ended == s.h.ended && s'.ordseq == s.ordseq && s'.h.epoch == s.h.epoch
    requires Turn(s.h.ended, s.h.epoch, s.ordseq, id, s'.rq[id])
    ensures Turns(s')
  {
    hide Turn;
  }

  lemma InitDrains(s: State)
    requires Init(s) && Sound(s) && DrainMode(s.mode)
    ensures Drains(s)
  {
  }

  // ---------------------------------------------------------------- adding and dispatching

  ghost predicate Inv(s: State) {
    Structure(s) && Sound(s) && Coloring(s) && Drains(s)
  }

  lemma AddTurns(s: State, n: nat, r: Request, where: Where)
    requires Sound(s) && Coloring(s) && Turns(s) && AddOk(s, n, r, where)
    ensures Turns(Add(s, n, r, where))
  {
    hide BarrierQueue, Colors;
    var s' := Add(s, n, r, where);
    forall id | id in s'.rq ensures Turn(s'.h.ended, s'.h.epoch, s'.ordseq, id, s'.rq[id]) {
      if id != User(n) {
        TurnOf(s, id);
      } else if s.orig.Some? {
        assert s.h.ended < s.h.epoch;
      }
    }
  }

  /** A filesystem request of the newest epoch may go to the end of the list. */
  lemma NewestLast(s: State, id: Id, r: Request, k: nat)
    requires Sound(s) && Coloring(s) && k < |s.list| && id.User? && s.list[k] != id
    requires r.epoch == s.h.epoch
    requires !s.list[k].User? ==> s.orig.Some?
    ensures Before(s.rq[id := r], s.h.ended, s.list[k], id)
  {
    hide BarrierQueue;
    ColorsOf(s, s.list[k]);
  }

  lemma ProxyActive(s: State, id: Id)
    requires Structure(s) && Sound(s) && id in s.rq && !id.User? && s.rq[id].place != Free
    ensures s.orig.Some? && !Bit(s.ordseq, id)
  {
    hide ListOk, Shapes, Mask, Accounted;
  }

  lemma AddDrains(s: State, n: nat, r: Request, where: Where)
    requires Inv(s) && AddOk(s, n, r, where)
    ensures var s' := Add(s, n, r, where); Sound(s') ==> Drains(s')
  {
    hide Structure, Coloring, DrainOrder, Turns, DrainMode;
    var s' := Add(s, n, r, where);
    var id := User(n);
    var r' := s'.rq[id];
    NewRequest(s, n, r, where);
    AddTurns(s, n, r, where);
    var e := s.h.ended;
    match Placement(r, where)
    case AtFront =>
      OrderInsert(s.rq, s.list, e, 0, id, r');
      assert Insert(s.list, 0, id) == s'.list;
    case AtBack =>
      forall k | 0 <= k < |s.list| ensures Before(s'.rq, e, s.list[k], id) {
        assert s.list[k] in s.list;
        if !s.list[k].User? {
          assert s.rq[s.list[k]].place == Listed by { StructureParts(s); OnList(s, s.list[k]); }
          ProxyActive(s, s.list[k]);
        }
        NewestLast(s, id, r', k);
      }
      OrderInsert(s.rq, s.list, e, |s.list|, id, r');
      assert Insert(s.list, |s.list|, id) == s'.list;
    case _ =>
      OrderKeep(s.rq, s.list, e, id, r');
  }

  lemma ActiveStarted(s: State)
    requires Structure(s)
    ensures s.orig.Some? <==> s.ordseq.started
    ensures s.orig.Some? ==>
              CurSeq(s.ordseq) < DONE && s.ordered == EffectiveOrder(s.mode, s.rq[User(s.orig.value)].sectors == 0)
  {
    hide ListOk, Shapes, Accounted, Stages;
  }

  lemma DispatchBehind(s: State, id: Id, i: nat, k: nat)
    requires Inv(s) && Enabled(s, LDispatch(id, i)) && i <= k < |s.list|
    ensures Before(s.rq[id := s.rq[id].(place := Listed)], s.h.ended, id, s.list[k])
  {
    hide ListOk, Accounted, Mask, Stages, BarrierQueue, DrainOrder, Turns, Colors;
    var x := s.list[k];
    ShapeOf(s, id);
    OnList(s, x);
    ShapeOf(s, x);
    TurnOf(s, id);
    TurnOf(s, x);
    assert x != id && x.User?;
    if UserFs(id, s.rq[id]) && UserFs(x, s.rq[x]) {
      assert s.orig.Some? ==> s.ordseq.started by { ActiveStarted(s); }
      assert !s.rq[x].soft;
      TailEpoch(s.rq, s.list, s.h.ended, Lo(s), s.h.epoch, i, k);
    }
  }

  lemma DispatchDrains(s: State, id: Id, i: nat)
    requires Inv(s) && Enabled(s, LDispatch(id, i))
    ensures var s' := Dispatch(s, id, i); Sound(s') ==> Drains(s')
  {
    hide Structure, Coloring, DrainOrder, Turns, DrainMode;
    var s' := Dispatch(s, id, i);
    var e := s.h.ended;
    NotListed(s, id);
    ShapeOf(s, id);
    TurnOf(s, id);
    forall k | 0 <= k < i ensures Before(s'.rq, e, s.list[k], id) {
      assert s.list[k] in s.list;
      if !s.list[k].User? { StructureParts(s); OnList(s, s.list[k]); ProxyActive(s, s.list[k]); }
      if UserFs(id, s.rq[id]) { NewestLast(s, id, s'.rq[id], k); }
    }
    forall k | i <= k < |s.list| ensures Before(s'.rq, e, id, s.list[k]) {
      DispatchBehind(s, id, i, k);
    }
    OrderInsert(s.rq, s.list, e, i, id, s'.rq[id]);
    assert Turn(e, s.h.epoch, s.ordseq, id, s'.rq[id]) by { NewestTurn(s, id); }
    TurnsUpdate(s, s', id);
  }

  lemma NewestTurn(s: State, id: Id)
    requires Sound(s) && Coloring(s) && Turns(s) && id in s.rq && s.rq[id].place == Sched && id.User?
    requires !s.rq[id].started
    ensures Turn(s.h.ended, s.h.epoch, s.ordseq, id, s.rq[id].(place := Listed))
  {
    hide BarrierQueue, Colors;
    TurnOf(s, id);
  }

  // ---------------------------------------------------------------- starting and requeueing

  lemma StartDrains(s: State, i: nat)
    requires Inv(s) && Enabled(s, LStart(i))
    ensures var s' := Start(s, i); Sound(s') ==> Drains(s')
  {
    hide Structure, Coloring, DrainOrder, Turns, DrainMode, ListOk;
    var s' := Start(s, i);
    var id := s.list[i];
    StructureParts(s);
    OnList(s, id);
    ShapeOf(s, id);
    TurnOf(s, id);
    ListRemove(s.rq, s.list, i, s'.rq[id]);
    OrderRemove(s.rq, s.list, s.h.ended, i, s'.rq[id]);
    TurnsUpdate(s, s', id);
  }

  /** A filesystem request with the driver belongs to the barrier that is due. */
  lemma DriverRequest(s: State, id: Id)
    requires Inv(s) && Enabled(s, LRequeue(id)) && UserFs(id, s.rq[id])
    ensures s.rq[id].epoch == s.h.ended && !s.rq[id].hard && !s.ordseq.drain
    ensures s.orig.Some? ==> ReqSeq(OrigColor(s), id, s.rq[id]) == DRAIN
  {
    hide ListOk, Accounted, Mask, Stages, BarrierQueue, DrainOrder, Turns, DrainMode, Colors;
    ShapeOf(s, id);
    TurnOf(s, id);
    if s.orig.Some? {
      ColorsOf(s, id);
      ColorsOf(s, User(s.orig.value));
    }
  }

  lemma RequeueUserOrder(s: State, id: Id, k: nat)
    requires Inv(s) && Enabled(s, LRequeue(id)) && id.User? && k < |s.list|
    ensures Before(s.rq[id := s.rq[id].(started := false, soft := true, place := Listed)], s.h.ended, id, s.list[k])
  {
    hide Structure, Coloring, DrainOrder, Turns, DrainMode, ListOk;
    var x := s.list[k];
    StructureParts(s);
    OnList(s, x);
    if UserFs(id, s.rq[id]) {
      DriverRequest(s, id);
      TurnOf(s, x);
    }
  }

  /** User requests are requeued at the very front. */
  lemma RequeueUserSpot(s: State, id: Id)
    requires Inv(s) && Enabled(s, LRequeue(id)) && id.User? && s.orig.Some?
    ensures RequeueSpot(s.rq, s.list, OrigColor(s), ReqSeq(OrigColor(s), id, s.rq[id])) == 0
  {
    hide Structure, Coloring, Drains;
    if UserFs(id, s.rq[id]) {
      DriverRequest(s, id);
    }
  }

  lemma RequeueUserDrains(s: State, id: Id)
    requires Inv(s) && Enabled(s, LRequeue(id)) && id.User?
    ensures var s' := Requeue(s, id); Sound(s') ==> Drains(s')
  {
    hide Structure, Coloring, DrainOrder, Turns, DrainMode;
    var s' := Requeue(s, id);
    var r' := s.rq[id].(started := false, soft := true, place := Listed);
    NotListed(s, id);
    if s.orig.Some? { RequeueUserSpot(s, id); }
    forall k | 0 <= k < |s.list| ensures Before(s.rq[id := r'], s.h.ended, id, s.list[k]) {
      RequeueUserOrder(s, id, k);
    }
    OrderInsert(s.rq, s.list, s.h.ended, 0, id, r');
    TurnOf(s, id);
    TurnsUpdate(s, s', id);
  }

  /** With the drain over, every listed filesystem request comes after the current barrier. */
  lemma ListedAfter(s: State, x: Id)
    requires Inv(s) && s.ordseq.drain && x in s.list && UserFs(x, s.rq[x])
    ensures s.h.ended < s.rq[x].epoch
  {
    hide ListOk, Accounted, Mask, Stages, DrainOrder, Turns, DrainMode, Colors;
    OnList(s, x);
    TurnOf(s, x);
    if IsBarrier(s.rq[x]) {
      assert Lo(s) <= s.rq[x].epoch;
    }
  }

  lemma ListedEpoch(s: State, x: Id)
    requires Inv(s) && x in s.list && UserFs(x, s.rq[x])
    ensures s.h.ended <= s.rq[x].epoch <= s.h.epoch
    ensures IsBarrier(s.rq[x]) ==> Lo(s) <= s.rq[x].epoch
  {
    hide Accounted, Mask, Stages, DrainOrder, Turns, DrainMode;
    OnList(s, x);
    TurnOf(s, x);
    ColorsOf(s, x);
  }

  /** The requests a requeued proxy passes are not filesystem requests. */
  lemma PassedByProxy(s: State, id: Id, i: nat, k: nat)
    requires Inv(s) && s.ordseq.drain && s.orig.Some? && k < i <= |s.list|
    requires forall m :: 0 <= m < i ==> ReqSeq(OrigColor(s), s.list[m], s.rq[s.list[m]]) < DONE
    ensures !UserFs(s.list[k], s.rq[s.list[k]])
  {
    hide Structure, DrainOrder, Turns, DrainMode, Colors, BarrierQueue;
    var x := s.list[k];
    if UserFs(x, s.rq[x]) {
      ListedAfter(s, x);
      ListedEpoch(s, x);
      ColorsOf(s, x);
      ColorsOf(s, User(s.orig.value));
      assert ReqSeq(OrigColor(s), x, s.rq[x]) < DONE;
      assert s.h.ended + 1 < s.rq[x].epoch by { ParityGap(s.h.ended, s.rq[x].epoch); }
      var j := BarrierAt(s.rq, s.list, Lo(s), s.h.epoch, s.h.ended + 1);
      ColorsOf(s, s.list[j]);
      ParityNext(s.h.ended);
      if j >= k { BeforeOf(s, k, j); }
    }
  }

  lemma ParityGap(a: nat, b: nat)
    requires a < b && Parity(a) == Parity(b)
    ensures a + 1 < b
  {
  }

  lemma ParityNext(a: nat)
    ensures Parity(a + 1) != Parity(a)
  {
  }

  lemma BeforeOf(s: State, i: nat, j: nat)
    requires Sound(s) && Drains(s) && i <= j < |s.list|
    ensures i < j ==> Before(s.rq, s.h.ended, s.list[i], s.list[j])
  {
  }

  lemma RequeueProxyOrder(s: State, id: Id, i: nat)
    requires Inv(s) && Enabled(s, LRequeue(id)) && !id.User? && s.orig.Some? && i <= |s.list|
    requires forall m :: 0 <= m < i ==> ReqSeq(OrigColor(s), s.list[m], s.rq[s.list[m]]) < Stage(id)
    requires s.ordseq.drain && CurSeq(s.ordseq) == Stage(id) && id !in s.list
    ensures var rq' := s.rq[id := s.rq[id].(started := false, soft := true, place := Listed)];
            && (forall k :: 0 <= k < i ==> Before(rq', s.h.ended, s.list[k], id))
            && (forall k :: i <= k < |s.list| ==> Before(rq', s.h.ended, id, s.list[k]))
  {
    hide Structure, Coloring, Drains, ListOk;
    var rq' := s.rq[id := s.rq[id].(started := false, soft := true, place := Listed)];
    forall k | 0 <= k < i ensures Before(rq', s.h.ended, s.list[k], id) {
      PassedByProxy(s, id, i, k);
      assert ReqSeq(OrigColor(s), s.list[k], s.rq[s.list[k]]) < Stage(id);
    }
    forall k | i <= k < |s.list| ensures Before(rq', s.h.ended, id, s.list[k]) {
      var x := s.list[k];
      assert x in s.list && x != id;
      if UserFs(x, s.rq[x]) {
        ListedAfter(s, x);
      } else if !x.User? {
        StructureParts(s);
        OnList(s, x);
        ProxyActive(s, x);
        LaterStage(s.ordseq, id, x);
      }
    }
  }

  lemma LaterStage(o: OrdSeq, id: Id, x: Id)
    requires !id.User? && !x.User? && x != id && CurSeq(o) == Stage(id) && !Bit(o, x)
    ensures Stage(id) < Stage(x)
  {
  }

  /** A proxy with the driver is the stage whose turn it is. */
  lemma DriverProxy(s: State, id: Id)
    requires Inv(s) && Enabled(s, LRequeue(id)) && !id.User?
    ensures s.orig.Some? && s.ordseq.drain && CurSeq(s.ordseq) == Stage(id) && id !in s.list
  {
    hide Coloring, DrainOrder, Turns, DrainMode, ListOk, Shapes, Accounted, Stages, Mask;
    NotListed(s, id);
    ShapeOf(s, id);
    TurnOf(s, id);
    ProxyNotDrained(s, id);
  }

  lemma RequeueProxyDrains(s: State, id: Id)
    requires Inv(s) && Enabled(s, LRequeue(id)) && !id.User?
    ensures var s' := Requeue(s, id); Sound(s') ==> Drains(s')
  {
    hide Structure, Coloring, DrainOrder, Turns, DrainMode;
    var s' := Requeue(s, id);
    var r' := s.rq[id].(started := false, soft := true, place := Listed);
    DriverProxy(s, id);
    var i := RequeueSpot(s.rq, s.list, OrigColor(s), ReqSeq(OrigColor(s), id, r'));
    RequeueProxyOrder(s, id, i);
    OrderInsert(s.rq, s.list, s.h.ended, i, id, r');
    TurnsUpdate(s, s', id);
  }

  // ---------------------------------------------------------------- completing

  lemma ReleaseDrains(s: State, id: Id, error: int)
    requires Inv(s) && Enabled(s, LComplete(id, error))
    ensures Sound(Release(s, id, error)) && Drains(Release(s, id, error))
  {
    hide Structure, Coloring, DrainOrder, Turns, DrainMode;
    var s' := Release(s, id, error);
    NotListed(s, id);
    ReleaseSound(s, id, error);
    OrderKeep(s.rq, s.list, s.h.ended, id, s'.rq[id]);
    TurnsUpdate(s, s', id);
  }

  /** An empty in-flight count means that the driver holds no filesystem request. */
  lemma NothingInFlight(s: State, id: Id)
    requires s.inFlight == |Accounted(s.scrub, s.rq)| && s.inFlight == 0 && Shapes(s.rq, s.orig)
    requires id in s.rq && id.User? && s.rq[id].kind == Fs
    ensures s.rq[id].place != Driver
  {
    assert Accounted(s.scrub, s.rq) == {};
    assert Shape(s.orig, id, s.rq[id]);
    assert id !in Accounted(s.scrub, s.rq);
  }

  /** The test of `elv_completed_request` looks at the head of the list only; that is enough. */
  lemma DrainedIsQuiet(s: State, id: Id)
    requires Inv(s) && Drained(s)
    requires id in s.rq && UserFs(id, s.rq[id]) && !IsBarrier(s.rq[id])
    requires (s.rq[id].place == Listed || s.rq[id].place == Driver)
    ensures s.h.ended < s.rq[id].epoch
  {
    hide Mask, Stages, DrainOrder, Turns, DrainMode, Coloring, ListOk;
    NothingInFlight(s, id);
    assert id in s.list by { InList(s, id); }
    var k :| 0 <= k < |s.list| && s.list[k] == id;
    var x := s.list[0];
    if UserFs(x, s.rq[x]) {
      ListedEpoch(s, x);
      ColorsOf(s, x);
      ColorsOf(s, User(s.orig.value));
      assert s.rq[x].epoch != s.h.ended by { OrigEpoch(s); }
    }
    BeforeOf(s, 0, k);
  }

  lemma InList(s: State, id: Id)
    requires Structure(s) && id in s.rq && s.rq[id].place == Listed
    ensures id in s.list
  {
    hide Shapes, Mask, Stages, Accounted;
  }

  lemma OrigEpoch(s: State)
    requires Sound(s) && Coloring(s) && s.orig.Some?
    ensures s.rq[User(s.orig.value)].epoch == s.h.ended < s.h.epoch
  {
    hide BarrierQueue, Colors;
  }

  /** Every request is in turn once `bits` are set. */
  ghost predicate TurnsAfter(s: State, bits: OrdSeq) {
    forall id :: id in s.rq ==> Turn(s.h.ended, s.h.epoch, Or(s.ordseq, bits), id, s.rq[id])
  }

  lemma FinishedTurn(s: State, bits: OrdSeq, error: int, id: Id)
    requires Ready(s, bits, error) && Sound(s) && Coloring(s) && TurnsAfter(s, bits)
    requires CurSeq(Or(s.ordseq, bits)) == DONE && id in s.rq && id != User(s.orig.value)
    ensures Turn(s.h.ended + 1, s.h.epoch, SEQ_NONE, id, s.rq[id])
    ensures !id.User? ==> s.rq[id].place == Free
  {
    hide Accounted, ValidMode, EffectiveOrder, FirstError, Colors;
    assert Shape(s.orig, id, s.rq[id]);
    assert Turn(s.h.ended, s.h.epoch, Or(s.ordseq, bits), id, s.rq[id]);
    if UserFs(id, s.rq[id]) && IsBarrier(s.rq[id]) && s.rq[id].place == Listed {
      assert id in s.list;
      assert Lo(s) <= s.rq[id].epoch;
    }
  }

  lemma CompleteSeqDrains(s: State, bits: OrdSeq, error: int)
    requires Ready(s, bits, error) && Sound(s) && Coloring(s) && TurnsAfter(s, bits)
    requires DrainMode(s.mode) && DrainOrder(s.rq, s.list, s.h.ended)
    requires s.orig.Some? && User(s.orig.value) !in s.list
    ensures var s' := CompleteSeq(s, bits, error); Sound(s') ==> Drains(s')
  {
    hide Ready, Coloring, DrainOrder, DrainMode, Turn;
    var s' := CompleteSeq(s, bits, error);
    if CurSeq(Or(s.ordseq, bits)) == DONE {
      var n := User(s.orig.value);
      forall id | id in s'.rq ensures Turn(s'.h.ended, s'.h.epoch, SEQ_NONE, id, s'.rq[id]) {
        if id != n {
          FinishedTurn(s, bits, error, id);
        } else {
          FreeTurn(s'.h.ended, s'.h.epoch, SEQ_NONE, n, s'.rq[n]);
        }
      }
      forall x | x in s.list ensures x in s'.rq && x.User? {
        FinishedTurn(s, bits, error, x);
        if !x.User? { ReadyListed(s, bits, error, x); }
      }
      OrderKeep(s.rq, s.list, s.h.ended, n, s'.rq[n]);
      OrderLift(s'.rq, s.list, s.h.ended, s'.h.ended);
    }
  }

  lemma FreeTurn(e: nat, hepoch: nat, o: OrdSeq, id: Id, r: Request)
    requires r.place == Free
    ensures Turn(e, hepoch, o, id, r)
  {
  }

  lemma ReadyListed(s: State, bits: OrdSeq, error: int, x: Id)
    requires Ready(s, bits, error) && x in s.list
    ensures x in s.rq && s.rq[x].place == Listed
  {
    hide Shapes, Stages, Accounted;
  }

  lemma ReleaseInv(s: State, id: Id, error: int)
    requires Inv(s) && Enabled(s, LComplete(id, error)) && id.User?
    ensures Inv(Release(s, id, error))
  {
    hide ListOk, Accounted, Mask, Stages, Coloring, Drains;
    ReleaseStructure(s, id, error);
    ShapeOf(s, id);
    Moved(s, Release(s, id, error), id);
    ReleaseDrains(s, id, error);
    ReleaseColoring(s, id, error);
  }

  lemma DrainedReady(s: State)
    requires Inv(s) && Drained(s)
    ensures Ready(s, SEQ_DRAIN, 0) && User(s.orig.value) !in s.list
  {
    hide ListOk, Accounted, ValidMode, EffectiveOrder, FirstError, Coloring, Drains, Stages;
    StagesAfterDrain(s.rq, s.ordseq, s.ordered);
    ShapeOf(s, User(s.orig.value));
    NotListed(s, User(s.orig.value));
  }

  lemma DrainedTurns(s: State)
    requires Inv(s) && Drained(s)
    ensures TurnsAfter(s, SEQ_DRAIN)
  {
    hide Structure, Coloring, DrainOrder, DrainMode, Turns;
    forall id | id in s.rq ensures Turn(s.h.ended, s.h.epoch, Or(s.ordseq, SEQ_DRAIN), id, s.rq[id]) {
      TurnOf(s, id);
      if id.User? {
        if UserFs(id, s.rq[id]) && !IsBarrier(s.rq[id]) && (s.rq[id].place == Listed || s.rq[id].place == Driver) {
          DrainedIsQuiet(s, id);
        }
        assert s.ordseq.started by { ActiveStarted(s); }
      } else {
        ProxyBeforeDrain(s, id);
      }
    }
  }

  lemma ProxyBeforeDrain(s: State, id: Id)
    requires Structure(s) && id in s.rq && !id.User? && !s.ordseq.drain
    ensures s.rq[id].place != Free ==> !s.rq[id].started
  {
    hide ListOk, Shapes, Mask, Accounted;
  }

  lemma UserCompleteDrains(s: State, id: Id, error: int)
    requires Inv(s) && Enabled(s, LComplete(id, error)) && id.User?
    ensures var s' := ElvCompleted(s, id, error); Sound(s') ==> Drains(s')
  {
    hide Structure, Coloring, Release, DrainOrder, DrainMode, Turns;
    var s1 := Release(s, id, error);
    ReleaseInv(s, id, error);
    if Drained(s1) {
      DrainedReady(s1);
      DrainedTurns(s1);
      CompleteSeqDrains(s1, SEQ_DRAIN, 0);
    }
  }

  lemma ProxyCompleteTurns(s: State, id: Id, error: int)
    requires Inv(s) && Enabled(s, LComplete(id, error)) && !id.User?
    ensures TurnsAfter(Release(s, id, error), StageBit(id))
  {
    hide Structure, Coloring, DrainOrder, DrainMode, Turns;
    DriverProxy(s, id);
    var s1 := Release(s, id, error);
    assert s.ordseq.started by { ActiveStarted(s); }
    forall x | x in s1.rq ensures Turn(s1.h.ended, s1.h.epoch, Or(s1.ordseq, StageBit(id)), x, s1.rq[x]) {
      TurnOf(s, x);
    }
  }

  lemma ProxyCompleteDrains(s: State, id: Id, error: int)
    requires Inv(s) && Enabled(s, LComplete(id, error)) && !id.User?
    ensures var s' := Complete(s, id, error); Sound(s') ==> Drains(s')
  {
    hide Structure, Coloring, DrainOrder, DrainMode, Turns, Turn, Ready, CompleteSeq;
    var s1 := Release(s, id, error);
    var s2 := s1.(h := s1.h.(errs := s1.h.errs + [error]));
    ReleaseSound(s, id, error);
    ReleaseColoring(s, id, error);
    ReleaseDrains(s, id, error);
    ProxyReady(s, id, error);
    ProxyCompleteTurns(s, id, error);
    DriverProxy(s, id);
    assert Coloring(s2) by { ColoringErrs(s1, s2); }
    ShapeOf(s, User(s.orig.value));
    NotListed(s, User(s.orig.value));
    CompleteSeqDrains(s2, StageBit(id), error);
  }

  lemma ColoringErrs(s: State, s': State)
    requires Sound(s) && Sound(s') && Coloring(s) && s' == s.(h := s.h.(errs := s'.h.errs))
    ensures Coloring(s')
  {
    hide BarrierQueue, Colors;
  }

  // ---------------------------------------------------------------- starting a sequence

  lemma OrderFront(rq: Requests, list: seq<Id>, e: nat, id: Id, r: Request, wanted: bool)
    requires forall x :: x in list ==> x in rq
    requires DrainOrder(rq, list, e) && id !in list
    requires forall k :: 0 <= k < |list| ==> Before(rq[id := r], e, id, list[k])
    ensures DrainOrder(rq[id := r], Front(wanted, id, list), e)
  {
    hide DrainOrder;
    if wanted {
      OrderInsert(rq, list, e, 0, id, r);
      assert Insert(list, 0, id) == [id] + list;
    } else {
      OrderKeep(rq, list, e, id, r);
    }
  }

  lemma AfterHead(s: State, k: nat)
    requires Inv(s) && s.ordseq == SEQ_NONE && 0 < k < |s.list| && UserBarrier(s.list[0], s.rq[s.list[0]])
    ensures UserFs(s.list[k], s.rq[s.list[k]]) ==> s.h.ended < s.rq[s.list[k]].epoch
    ensures s.list[k].User?
  {
    hide Structure, DrainMode, Turns, DrainOrder, Colors, BarrierQueue, ListOk;
    HeadBarrier(s.rq, s.list, Lo(s), s.h.epoch);
    BeforeOf(s, 0, k);
    StructureParts(s);
    OnList(s, s.list[k]);
    ProxiesFree(s);
  }

  /** Proxies stacked in front of a list of younger requests. */
  predicate Younger(rq: Requests, list: seq<Id>, e: nat)
    requires forall x :: x in list ==> x in rq
  {
    forall x :: x in list ==> x.User? && (UserFs(x, rq[x]) ==> e < rq[x].epoch)
  }

  lemma StackOrder(rq: Requests, list: seq<Id>, e: nat, o: Ordered, post: Request, bar: Request, pre: Request)
    requires forall x :: x in list ==> x in rq
    requires DrainOrder(rq, list, e) && Younger(rq, list, e)
    ensures DrainOrder(rq[Post := post][Bar := bar][Pre := pre],
                       Front(o.doPre, Pre, Front(o.doBar, Bar, Front(o.doPost, Post, list))), e)
  {
    hide DrainOrder;
    var l2 := Front(o.doPost, Post, list);
    var l3 := Front(o.doBar, Bar, l2);
    OrderFront(rq, list, e, Post, post, o.doPost);
    OrderFront(rq[Post := post], l2, e, Bar, bar, o.doBar);
    OrderFront(rq[Post := post][Bar := bar], l3, e, Pre, pre, o.doPre);
  }

  lemma TailYounger(s: State, y: Id)
    requires Inv(s) && s.ordseq == SEQ_NONE && s.list != [] && UserBarrier(s.list[0], s.rq[s.list[0]])
    requires y in s.list && y != s.list[0]
    ensures y.User? && (UserFs(y, s.rq[y]) ==> s.h.ended < s.rq[y].epoch)
  {
    hide Structure, Coloring, Drains;
    var k :| 0 <= k < |s.list| && s.list[k] == y;
    AfterHead(s, k);
  }

  lemma TailOrder(s: State, r: Request)
    requires Inv(s) && s.ordseq == SEQ_NONE && s.list != [] && UserBarrier(s.list[0], s.rq[s.list[0]])
    requires r.place != Listed
    ensures var rq1, l1 := s.rq[s.list[0] := r], Remove(s.list, 0);
            DrainOrder(rq1, l1, s.h.ended) && Younger(rq1, l1, s.h.ended)
  {
    hide Structure, Coloring, DrainMode, Turns, DrainOrder, ListOk, Before;
    assert ListOk(s.rq, s.list) by { StructureParts(s); }
    ListRemove(s.rq, s.list, 0, r);
    OrderRemove(s.rq, s.list, s.h.ended, 0, r);
    var l1 := Remove(s.list, 0);
    forall y | y in l1 ensures y.User? && y != s.list[0] && (UserFs(y, s.rq[y]) ==> s.h.ended < s.rq[y].epoch) {
      TailYounger(s, y);
    }
  }

  lemma ExpandOrder(s: State)
    requires Inv(s) && s.ordseq == SEQ_NONE && s.list != [] && UserBarrier(s.list[0], s.rq[s.list[0]])
    ensures var x := Expand(s); (forall k :: k in x.list ==> k in x.rq) && DrainOrder(x.rq, x.list, s.h.ended)
  {
    hide Structure, Coloring, Drains, DrainOrder, EffectiveOrder, Younger, Front;
    var x := Expand(s);
    var n := s.list[0];
    ExpandColoring(s);
    TailOrder(s, x.rq[n]);
    assert Remove(s.list, 0) == s.list[1..];
    StackOrder(s.rq[n := x.rq[n]], s.list[1..], s.h.ended, x.ordered, x.rq[Post], x.rq[Bar], x.rq[Pre]);
  }

  lemma ExpandTurn(s: State, id: Id)
    requires Inv(s) && s.ordseq == SEQ_NONE && s.list != [] && UserBarrier(s.list[0], s.rq[s.list[0]])
    requires id in s.rq && id.User? && id != s.list[0]
    ensures var x := Expand(s); x.rq[id] == s.rq[id]
                                && Turn(s.h.ended, s.h.epoch, Or(x.ordseq, Skipped(x.ordered, MustWait(x))), id,
                                        s.rq[id])
  {
    hide Coloring, DrainMode, Turns, DrainOrder, EffectiveOrder, Accounted, Mask, Stages, ListOk, ValidMode;
    var x := Expand(s);
    TurnOf(s, id);
    ShapeOf(s, id);
    if UserFs(id, s.rq[id]) {
      if s.rq[id].place == Listed {
        InList(s, id);
        var k :| 0 <= k < |s.list| && s.list[k] == id;
        AfterHead(s, k);
      }
      if s.rq[id].place == Driver && s.inFlight == 0 {
        NothingInFlight(s, id);
      }
      assert x.inFlight == s.inFlight by { ShapeOf(s, s.list[0]); }
      if s.rq[id].place == Driver {
        assert s.inFlight != 0;
        assert MustWait(x) by { DrainModeWaits(s.mode, s.rq[s.list[0]].sectors == 0); }
      }
    }
  }

  lemma DrainModeWaits(m: Ordered, empty: bool)
    requires DrainMode(m)
    ensures EffectiveOrder(m, empty).byDrain && !EffectiveOrder(m, empty).byTag
    ensures EffectiveOrder(m, empty).doPre == m.doPre
  {
  }

  lemma ExpandTurns(s: State)
    requires Inv(s) && s.ordseq == SEQ_NONE && s.list != [] && UserBarrier(s.list[0], s.rq[s.list[0]])
    ensures var x := Expand(s); TurnsAfter(x, Skipped(x.ordered, MustWait(x)))
  {
    hide Structure, Coloring, DrainMode, Turns, DrainOrder, EffectiveOrder;
    var x := Expand(s);
    var bits := Skipped(x.ordered, MustWait(x));
    forall id | id in x.rq ensures Turn(x.h.ended, x.h.epoch, Or(x.ordseq, bits), id, x.rq[id]) {
      if id.User? && id != s.list[0] {
        ExpandTurn(s, id);
      } else if id.User? {
        TurnOf(s, id);
        ShapeOf(s, id);
        OnListI(s, id);
      }
    }
  }

  lemma OnListI(s: State, id: Id)
    requires Structure(s) && id in s.list
    ensures id in s.rq && s.rq[id].place == Listed
  {
    hide Accounted, Mask, Stages, Shapes;
  }

  lemma ExpandReady(s: State)
    requires Structure(s) && Sound(s) && s.list != [] && s.ordseq == SEQ_NONE
    requires IsBarrier(s.rq[s.list[0]]) && s.mode != ORDERED_NONE
    ensures var x := Expand(s); Ready(x, Skipped(x.ordered, MustWait(x)), 0)
  {
    hide ListOk, Accounted, Shapes, Stages, EffectiveOrder, ValidMode;
    ExpandList(s);
    ExpandShapes(s);
    ExpandStages(s);
    assert Expand(s).h.errs == [];
  }

  lemma StartOrderedDrains(s: State)
    requires Inv(s) && s.ordseq == SEQ_NONE && s.list != [] && UserBarrier(s.list[0], s.rq[s.list[0]])
    ensures var s' := StartOrdered(s).0; Sound(s') ==> Drains(s')
  {
    hide Structure, Coloring, Turns, DrainOrder, EffectiveOrder, Turn, Ready, Expand, CompleteSeq;
    ExpandColoring(s);
    ExpandOrder(s);
    ExpandTurns(s);
    ExpandReady(s);
    var x := Expand(s);
    assert x.orig == Some(s.list[0].n) && x.mode == s.mode && x.h.ended == s.h.ended by {
      ExpandOrig(s);
      ExpandSame(s);
    }
    CompleteSeqDrains(x, Skipped(x.ordered, MustWait(x)), 0);
  }

  lemma ExpandSame(s: State)
    requires Sound(s) && s.list != [] && s.list[0].User?
    ensures Expand(s).mode == s.mode && Expand(s).h.ended == s.h.ended && Expand(s).h.log == s.h.log
  {
  }

  // ---------------------------------------------------------------- peeking

  /** A filesystem request that is issued belongs to the barrier that is due, and the drain is
      not over; a proxy is issued in its own turn. */
  lemma IssuedHead(s: State)
    requires Inv(s) && s.list != [] && DoOrdered(s).1 == Issue
    requires s.ordseq == SEQ_NONE ==> !IsBarrier(s.rq[s.list[0]])
    ensures var id := s.list[0];
            && (UserFs(id, s.rq[id]) ==> s.rq[id].epoch == s.h.ended && !s.ordseq.drain)
            && (!id.User? ==> Stage(id) == CurSeq(s.ordseq))
  {
    hide Structure, Colors, BarrierQueue, Turns, DrainOrder, StartOrdered, Refuse, EffectiveOrder, DrainMode;
    var id := s.list[0];
    if UserFs(id, s.rq[id]) {
      ListedEpoch(s, id);
      HeadEpoch(s.rq, s.list, s.h.ended, Lo(s), s.h.epoch);
      if s.orig.Some? {
        assert !s.ordered.byTag by { NotByTag(s); }
        ActiveStarted(s);
        ColorsOf(s, id);
        ColorsOf(s, User(s.orig.value));
        ParityNext(s.h.ended);
      }
      if s.ordseq.drain {
        ListedAfter(s, id);
      }
    } else if !id.User? {
      OnListI(s, id);
      ProxyActive(s, id);
      ShapeOf(s, id);
      ActiveStarted(s);
      assert !s.ordered.byTag by { NotByTag(s); }
      StageTurn(s.ordseq, id);
    }
  }

  lemma StageTurn(o: OrdSeq, id: Id)
    requires !id.User? && o.started && !Bit(o, id) && Stage(id) <= CurSeq(o)
    ensures Stage(id) == CurSeq(o)
  {
  }

  lemma NotByTag(s: State)
    requires Structure(s) && DrainMode(s.mode) && s.orig.Some? && User(s.orig.value) in s.rq
    ensures !s.ordered.byTag && s.ordered.byDrain
  {
    hide ListOk, Shapes, Accounted, Stages, EffectiveOrder, DrainMode;
    DrainModeWaits(s.mode, s.rq[User(s.orig.value)].sectors == 0);
  }

  lemma MarkHeadDrains(s: State)
    requires Sound(s) && Drains(s) && s.list != [] && s.rq[s.list[0]].place == Listed
    requires var id := s.list[0];
             && (UserFs(id, s.rq[id]) ==> s.rq[id].epoch == s.h.ended && !s.ordseq.drain)
             && (!id.User? ==> Stage(id) == CurSeq(s.ordseq))
    ensures var s' := MarkHead(s); Sound(s') ==> Drains(s')
  {
    hide Turns, DrainOrder, DrainMode;
    var s' := MarkHead(s);
    var id := s.list[0];
    TurnOf(s, id);
    OrderKeep(s.rq, s.list, s.h.ended, id, s'.rq[id]);
    TurnsUpdate(s, s', id);
  }

  lemma PeekDrains(s: State)
    requires Inv(s) && s.list != []
    ensures var s' := Peek(s); Sound(s') ==> Drains(s')
  {
    hide Structure, Coloring, Turns, DrainOrder, StartOrdered, Refuse, MarkHead;
    var (t, v) := DoOrdered(s);
    if s.ordseq == SEQ_NONE && IsBarrier(s.rq[s.list[0]]) {
      StartOrderedDrains(s);
      StartOrderedColoring(s);
      if v == Issue {
        StartOrderedHead(s);
        StartOrderedTurn(s);
        OnListI(t, t.list[0]);
        MarkHeadDrains(t);
      }
    } else if v == Issue {
      IssuedHead(s);
      OnListI(s, s.list[0]);
      MarkHeadDrains(s);
    }
  }

  lemma StartOrderedTurn(s: State)
    requires Sound(s) && s.list != [] && s.list[0].User? && s.ordseq == SEQ_NONE && StartOrdered(s).1 == Issue
    ensures var t := StartOrdered(s).0; t.list != [] && !t.list[0].User? && Stage(t.list[0]) == CurSeq(t.ordseq)
  {
    var e := Expand(s);
    var o := e.ordered;
    assert e.list[0] == if o.doPre then Pre else if o.doBar then Bar else Post;
  }

  // ---------------------------------------------------------------- every step

  lemma StepDrains(s: State, l: Label)
    requires Inv(s) && Enabled(s, l) && FsBarriersOnly(l)
    ensures Inv(Apply(s, l))
  {
    hide Structure, Coloring, Drains, Add, Dispatch, Peek, Start, Complete, Requeue;
    StepAllModes(s, l);
    match l
    case LAdd(n, r, where) => AddDrains(s, n, r, where);
    case LDispatch(id, i) => DispatchDrains(s, id, i);
    case LPeek => PeekDrains(s);
    case LStart(i) => StartDrains(s, i);
    case LComplete(id, error) =>
      if id.User? {
        UserCompleteDrains(s, id, error);
        assert Complete(s, id, error) == ElvCompleted(s, id, error) by { CompleteUser(s, id, error); }
      } else {
        ProxyCompleteDrains(s, id, error);
      }
    case LRequeue(id) =>
      if id.User? {
        RequeueUserDrains(s, id);
      } else {
        RequeueProxyDrains(s, id);
      }
  }

  lemma CompleteUser(s: State, id: Id, error: int)
    requires Sound(s) && id in s.rq && id.User?
    ensures Complete(s, id, error) == ElvCompleted(s, id, error)
  {
    hide ElvCompleted;
  }
}
