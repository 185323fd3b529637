/** What every step of the barrier protocol keeps, whatever the ordering mode. */
module BarrierStructure {
  import opened Options
  import opened BarrierModel

  type Requests = map<Id, Request>

  /** The dispatch list holds exactly the listed requests, once each. */
  ghost predicate ListOk(rq: Requests, list: seq<Id>) {
    && (forall i, j :: 0 <= i < j < |list| ==> list[i] != list[j])
    && (forall id :: id in list ==> id in rq && rq[id].place == Listed)
    && (forall id :: id in rq && rq[id].place == Listed ==> id in list)
  }

  predicate UserBarrier(id: Id, r: Request) { id.User? && IsBarrier(r) }

  predicate Shape(orig: Option<nat>, id: Id, r: Request) {
    && (r.place == Sched ==> id.User? && !r.started && !IsBarrier(r))
    && (r.place == Driver ==> r.started)
    && (r.place == Stashed <==> id.User? && orig == Some(id.n))
    && (UserBarrier(id, r) ==> !r.started && r.place != Driver)
    && (r.place == Stashed ==> IsBarrier(r))
    && (!id.User? ==> r.soft && (id == Bar <==> r.kind == Fs))
  }

  ghost predicate Shapes(rq: Requests, orig: Option<nat>) {
    && Pre in rq && Bar in rq && Post in rq
    && (orig.Some? ==> User(orig.value) in rq)
    && (forall id :: id in rq ==> Shape(orig, id, rq[id]))
  }

  predicate Wanted(o: Ordered, id: Id) {
    match id
    case Pre => o.doPre
    case Bar => o.doBar
    case Post => o.doPost
    case User(_) => false
  }

  predicate Bit(o: OrdSeq, id: Id) { Overlap(o, StageBit(id)) }

  /** A proxy is around exactly while its stage is wanted and its bit is clear, and it is not shown
      to the driver before the drain bit is set. */
  predicate StageOk(active: bool, o: OrdSeq, ordered: Ordered, id: Id, r: Request) {
    && ((active && !Bit(o, id)) <==> r.place != Free)
    && (active && !Wanted(ordered, id) ==> Bit(o, id))
    && (r.place != Free ==> r.place == Listed || r.place == Driver)
    && (r.place != Free && r.started ==> o.drain)
  }

  predicate Stages(rq: Requests, active: bool, o: OrdSeq, ordered: Ordered)
    requires Pre in rq && Bar in rq && Post in rq
  {
    && StageOk(active, o, ordered, Pre, rq[Pre])
    && StageOk(active, o, ordered, Bar, rq[Bar])
    && StageOk(active, o, ordered, Post, rq[Post])
  }

  predicate Mask(s: State)
    requires s.orig.Some? ==> User(s.orig.value) in s.rq
  {
    && s.flushKind != Fs && ValidMode(s.mode)
    && (s.ordseq != SEQ_NONE <==> s.orig.Some?)
    && (s.orig.Some? ==>
          && s.ordseq.started && CurSeq(s.ordseq) < DONE && s.mode != ORDERED_NONE
          && s.ordered == EffectiveOrder(s.mode, s.rq[User(s.orig.value)].sectors == 0)
          && (s.ordered.byTag ==> s.ordseq.drain)
          && s.orderr == FirstError(s.h.errs))
  }

  ghost function Accounted(scrub: bool, rq: Requests): set<Id> {
    set id | id in rq && rq[id].place == Driver && Account(scrub, rq[id])
  }

  /** The error to report is the first one a stage reported. */
  function FirstError(errs: seq<int>): int {
    if errs == [] then 0 else if errs[0] != 0 then errs[0] else FirstError(errs[1..])
  }

  ghost predicate Structure(s: State) {
    && ListOk(s.rq, s.list)
    && Shapes(s.rq, s.orig)
    && Stages(s.rq, s.orig.Some?, s.ordseq, s.ordered)
    && Mask(s)
    && s.inFlight == |Accounted(s.scrub, s.rq)|
  }

  lemma StructureSound(s: State)
    requires Structure(s)
    ensures Sound(s)
  {
    assert s.list != [] ==> s.rq[s.list[0]].place == Listed;
  }

  lemma InitStructure(s: State)
    requires Init(s)
    ensures Structure(s)
  {
    assert Accounted(s.scrub, s.rq) == {};
  }

  // ---------------------------------------------------------------- moving one request

  lemma ListInsert(rq: Requests, list: seq<Id>, id: Id, r: Request, i: nat)
    requires ListOk(rq, list) && i <= |list| && r.place == Listed
    requires id in rq ==> rq[id].place != Listed
    ensures ListOk(rq[id := r], Insert(list, i, id))
  {
  }

  lemma ListRemove(rq: Requests, list: seq<Id>, i: nat, r: Request)
    requires ListOk(rq, list) && i < |list| && r.place != Listed
    ensures ListOk(rq[list[i] := r], Remove(list, i))
    ensures list[i] !in Remove(list, i)
  {
  }

  lemma ListKeep(rq: Requests, list: seq<Id>, id: Id, r: Request)
    requires ListOk(rq, list)
    requires r.place == Listed <==> id in rq && rq[id].place == Listed
    ensures ListOk(rq[id := r], list)
  {
  }

  lemma ShapeUpdate(rq: Requests, orig: Option<nat>, id: Id, r: Request)
    requires Shapes(rq, orig) && Shape(orig, id, r)
    ensures Shapes(rq[id := r], orig)
  {
  }

  lemma CountKeep(scrub: bool, rq: Requests, id: Id, r: Request)
    requires id in rq ==> rq[id].place != Driver
    requires r.place != Driver
    ensures Accounted(scrub, rq[id := r]) == Accounted(scrub, rq)
  {
  }

  lemma CountEnter(scrub: bool, rq: Requests, id: Id, r: Request)
    requires id in rq && rq[id].place != Driver && r.place == Driver
    ensures |Accounted(scrub, rq[id := r])| == |Accounted(scrub, rq)| + Weight(scrub, r)
  {
    var a := Accounted(scrub, rq);
    assert Accounted(scrub, rq[id := r]) == if Account(scrub, r) then a + {id} else a;
  }

  lemma CountLeave(scrub: bool, rq: Requests, id: Id, r: Request)
    requires id in rq && rq[id].place == Driver && r.place != Driver
    ensures |Accounted(scrub, rq[id := r])| == |Accounted(scrub, rq)| - Weight(scrub, rq[id])
  {
    CountEnter(scrub, rq[id := r], id, rq[id]);
    assert rq[id := r][id := rq[id]] == rq;
  }

  /** A step that gives one request a new record, away from the sequence machinery. */
  lemma Moved(s: State, s': State, id: Id)
    requires Structure(s) && id in s'.rq
    requires s' == s.(list := s'.list, rq := s.rq[id := s'.rq[id]], inFlight := s'.inFlight,
                      ordcolor := s'.ordcolor, h := s'.h)
    requires s'.h.errs == s.h.errs
    requires ListOk(s'.rq, s'.list) && Shape(s.orig, id, s'.rq[id])
    requires s'.inFlight == |Accounted(s.scrub, s'.rq)|
    requires !id.User? ==> StageOk(s.orig.Some?, s.ordseq, s.ordered, id, s'.rq[id])
    requires id in s.rq ==> s'.rq[id].sectors == s.rq[id].sectors
    ensures Structure(s')
  {
    hide ListOk, Accounted, ValidMode, EffectiveOrder, FirstError, StageOk, Shape, CurSeq;
    ShapeUpdate(s.rq, s.orig, id, s'.rq[id]);
  }

  lemma OnList(s: State, id: Id)
    requires ListOk(s.rq, s.list) && id in s.list
    ensures id in s.rq && s.rq[id].place == Listed
  {
  }

  // ---------------------------------------------------------------- adding and dispatching

  lemma AddStructure(s: State, n: nat, r: Request, where: Where)
    requires Structure(s) && AddOk(s, n, r, where)
    ensures Structure(Add(s, n, r, where))
  {
    hide ListOk, Accounted, Mask, Stages, Structure;
    var s' := Add(s, n, r, where);
    var r' := s'.rq[User(n)];
    assert ListOk(s.rq, s.list) && Shapes(s.rq, s.orig) && s.inFlight == |Accounted(s.scrub, s.rq)| by {
      StructureParts(s);
    }
    assert s.orig != Some(n);
    CountKeep(s.scrub, s.rq, User(n), r');
    match Placement(r, where) {
      case AtFront =>
        ListInsert(s.rq, s.list, User(n), r', 0);
        assert Insert(s.list, 0, User(n)) == s'.list;
      case AtBack =>
        ListInsert(s.rq, s.list, User(n), r', |s.list|);
        assert Insert(s.list, |s.list|, User(n)) == s'.list;
      case _ => ListKeep(s.rq, s.list, User(n), r');
    }
    Moved(s, s', User(n));
  }

  lemma StructureParts(s: State)
    requires Structure(s)
    ensures ListOk(s.rq, s.list) && Shapes(s.rq, s.orig) && Stages(s.rq, s.orig.Some?, s.ordseq, s.ordered)
    ensures Mask(s) && s.inFlight == |Accounted(s.scrub, s.rq)|
  {
    hide ListOk, Accounted, Mask, Stages, Shapes;
  }

  lemma DispatchStructure(s: State, id: Id, i: nat)
    requires Structure(s) && Sound(s) && Enabled(s, LDispatch(id, i))
    ensures Structure(Dispatch(s, id, i))
  {
    hide ListOk, Accounted, Mask, Stages;
    var s' := Dispatch(s, id, i);
    assert Shape(s.orig, id, s.rq[id]);
    CountKeep(s.scrub, s.rq, id, s'.rq[id]);
    ListInsert(s.rq, s.list, id, s'.rq[id], i);
    Moved(s, s', id);
  }

  // ---------------------------------------------------------------- starting and requeueing

  lemma StartStructure(s: State, i: nat)
    requires Structure(s) && Sound(s) && Enabled(s, LStart(i))
    ensures Structure(Start(s, i))
  {
    hide ListOk, Accounted, Mask;
    var s' := Start(s, i);
    var id := s.list[i];
    OnList(s, id);
    assert Shape(s.orig, id, s.rq[id]);
    CountEnter(s.scrub, s.rq, id, s'.rq[id]);
    ListRemove(s.rq, s.list, i, s'.rq[id]);
    Moved(s, s', id);
  }

  lemma RequeueStructure(s: State, id: Id)
    requires Structure(s) && Sound(s) && Enabled(s, LRequeue(id))
    ensures Structure(Requeue(s, id))
  {
    hide ListOk, Accounted, Mask;
    var s' := Requeue(s, id);
    var r' := s'.rq[id];
    assert Shape(s.orig, id, s.rq[id]);
    CountLeave(s.scrub, s.rq, id, r');
    var i := if s.ordseq == SEQ_NONE then 0
             else RequeueSpot(s.rq, s.list, OrigColor(s), ReqSeq(OrigColor(s), id, r'));
    ListInsert(s.rq, s.list, id, r', i);
    Moved(s, s', id);
  }

  // ---------------------------------------------------------------- completing

  /** Ready for `blk_ordered_complete_seq`: consistent once `bits` are set. */
  ghost predicate Ready(s: State, bits: OrdSeq, error: int) {
    && ListOk(s.rq, s.list)
    && Shapes(s.rq, s.orig)
    && s.orig.Some?
    && s.inFlight == |Accounted(s.scrub, s.rq)|
    && s.flushKind != Fs && ValidMode(s.mode) && s.mode != ORDERED_NONE
    && s.ordseq.started
    && s.ordered == EffectiveOrder(s.mode, s.rq[User(s.orig.value)].sectors == 0)
    && (s.ordered.byTag ==> Or(s.ordseq, bits).drain)
    && Stages(s.rq, true, Or(s.ordseq, bits), s.ordered)
    && (if error != 0 && s.orderr == 0 then error else s.orderr) == FirstError(s.h.errs)
  }

  lemma Unstash(rq: Requests, n: nat)
    requires Shapes(rq, Some(n))
    ensures Shapes(rq[User(n) := rq[User(n)].(place := Free)], None)
  {
    assert Shape(Some(n), User(n), rq[User(n)]);
  }

  lemma CompleteSeqStructure(s: State, bits: OrdSeq, error: int)
    requires Ready(s, bits, error)
    ensures Structure(CompleteSeq(s, bits, error))
  {
    hide ListOk, Accounted, ValidMode, EffectiveOrder, FirstError;
    var o := Or(s.ordseq, bits);
    if CurSeq(o) == DONE {
      var n := s.orig.value;
      assert Shape(s.orig, User(n), s.rq[User(n)]);
      var r' := s.rq[User(n)].(place := Free);
      Unstash(s.rq, n);
      ListKeep(s.rq, s.list, User(n), r');
      CountKeep(s.scrub, s.rq, User(n), r');
    } else {
      hide Shapes, StageOk;
    }
  }

  lemma FirstErrorAppend(errs: seq<int>, e: int)
    ensures FirstError(errs + [e]) == if FirstError(errs) == 0 then e else FirstError(errs)
  {
    if errs != [] {
      assert (errs + [e])[1..] == errs[1..] + [e];
    }
  }

  lemma ReleaseStructure(s: State, id: Id, error: int)
    requires Structure(s) && Sound(s) && Enabled(s, LComplete(id, error))
    ensures ListOk(Release(s, id, error).rq, s.list) && Shapes(Release(s, id, error).rq, s.orig)
    ensures Release(s, id, error).inFlight == |Accounted(s.scrub, Release(s, id, error).rq)|
  {
    hide ListOk, Accounted, Mask, Stages;
    var s' := Release(s, id, error);
    assert Shape(s.orig, id, s.rq[id]);
    ShapeUpdate(s.rq, s.orig, id, s'.rq[id]);
    CountLeave(s.scrub, s.rq, id, s'.rq[id]);
    ListKeep(s.rq, s.list, id, s'.rq[id]);
  }

  lemma StagesAfterDrain(rq: Requests, o: OrdSeq, ordered: Ordered)
    requires Pre in rq && Bar in rq && Post in rq && Stages(rq, true, o, ordered)
    ensures Stages(rq, true, Or(o, SEQ_DRAIN), ordered)
  {
  }

  lemma StagesAfterProxy(rq: Requests, o: OrdSeq, ordered: Ordered, id: Id, r: Request)
    requires Pre in rq && Bar in rq && Post in rq && Stages(rq, true, o, ordered)
    requires !id.User? && r.place == Free
    ensures Stages(rq[id := r], true, Or(o, StageBit(id)), ordered)
  {
  }

  lemma ElvCompletedStructure(s: State, id: Id, error: int)
    requires Structure(s) && Sound(s) && Enabled(s, LComplete(id, error)) && id.User?
    ensures Structure(ElvCompleted(s, id, error))
  {
    hide ListOk, Accounted, ValidMode, EffectiveOrder, FirstError, Stages;
    var s1 := Release(s, id, error);
    ReleaseStructure(s, id, error);
    assert Shape(s.orig, id, s.rq[id]);
    Moved(s, s1, id);
    if Drained(s1) {
      hide Shape;
      StagesAfterDrain(s1.rq, s1.ordseq, s1.ordered);
      CompleteSeqStructure(s1, SEQ_DRAIN, 0);
    }
  }

  /** A proxy never completes the drain. */
  lemma ProxyNotDrained(s: State, id: Id)
    requires Structure(s) && Sound(s) && Enabled(s, LRequeue(id)) && !id.User?
    ensures s.orig.Some? && s.ordseq.drain && !Bit(s.ordseq, id)
    ensures CurSeq(s.ordseq) > DRAIN
  {
    hide ListOk, Accounted, ValidMode, EffectiveOrder, FirstError;
    assert Shape(s.orig, id, s.rq[id]);
  }

  lemma ProxyReady(s: State, id: Id, error: int)
    requires Structure(s) && Sound(s) && Enabled(s, LComplete(id, error)) && !id.User?
    ensures var s1 := Release(s, id, error); Ready(s1.(h := s1.h.(errs := s1.h.errs + [error])), StageBit(id), error)
  {
    hide ListOk, Accounted, ValidMode, EffectiveOrder, FirstError, Stages, Shapes;
    StructureParts(s);
    ReleaseStructure(s, id, error);
    ProxyNotDrained(s, id);
    FirstErrorAppend(s.h.errs, error);
    StagesAfterProxy(s.rq, s.ordseq, s.ordered, id, s.rq[id].(place := Free));
  }

  lemma ProxyCompleteStructure(s: State, id: Id, error: int)
    requires Structure(s) && Sound(s) && Enabled(s, LComplete(id, error)) && !id.User?
    ensures Structure(Complete(s, id, error))
  {
    hide Structure, Ready;
    ProxyReady(s, id, error);
    ProxyNotDrained(s, id);
    var s1 := Release(s, id, error);
    CompleteSeqStructure(s1.(h := s1.h.(errs := s1.h.errs + [error])), StageBit(id), error);
  }

  // ---------------------------------------------------------------- peeking

  lemma MarkHeadStructure(s: State)
    requires Structure(s) && s.list != [] && s.list[0] in s.rq
    requires !UserBarrier(s.list[0], s.rq[s.list[0]])
    requires !s.list[0].User? ==> s.ordseq.drain
    ensures Structure(MarkHead(s))
  {
    hide ListOk, Accounted, Mask;
    var id := s.list[0];
    OnList(s, id);
    var s' := MarkHead(s);
    assert Shape(s.orig, id, s.rq[id]);
    CountKeep(s.scrub, s.rq, id, s'.rq[id]);
    ListKeep(s.rq, s.list, id, s'.rq[id]);
    Moved(s, s', id);
  }

  lemma ListFront(rq: Requests, list: seq<Id>, id: Id, r: Request, wanted: bool)
    requires ListOk(rq, list) && r.place == InUse(wanted)
    requires id in rq ==> rq[id].place != Listed
    ensures ListOk(rq[id := r], Front(wanted, id, list))
  {
    hide ListOk;
    if wanted {
      ListInsert(rq, list, id, r, 0);
      assert Insert(list, 0, id) == [id] + list;
    } else {
      ListKeep(rq, list, id, r);
    }
  }

  /** While no sequence is in progress the proxies are unused. */
  lemma ProxiesFree(s: State)
    requires Structure(s) && s.ordseq == SEQ_NONE
    ensures s.rq[Pre].place == s.rq[Bar].place == s.rq[Post].place == Free
    ensures s.orig == None
  {
    hide ListOk, Shapes, Accounted, ValidMode;
  }

  lemma ExpandList(s: State)
    requires Structure(s) && Sound(s) && s.list != [] && s.ordseq == SEQ_NONE
    ensures var e := Expand(s); ListOk(e.rq, e.list)
  {
    hide ListOk, Accounted, Mask, Stages, Shapes, EffectiveOrder;
    ProxiesFree(s);
    var e := Expand(s);
    var n := User(s.list[0].n);
    var o := e.ordered;
    var rq1 := s.rq[n := e.rq[n]];
    var rq2 := rq1[Post := e.rq[Post]];
    var rq3 := rq2[Bar := e.rq[Bar]];
    ListRemove(s.rq, s.list, 0, e.rq[n]);
    assert Remove(s.list, 0) == s.list[1..];
    ListFront(rq1, s.list[1..], Post, e.rq[Post], o.doPost);
    ListFront(rq2, Front(o.doPost, Post, s.list[1..]), Bar, e.rq[Bar], o.doBar);
    ListFront(rq3, Front(o.doBar, Bar, Front(o.doPost, Post, s.list[1..])), Pre, e.rq[Pre], o.doPre);
    assert e.rq == rq3[Pre := e.rq[Pre]];
  }

  lemma Stash(rq: Requests, n: nat)
    requires Shapes(rq, None) && User(n) in rq && IsBarrier(rq[User(n)])
    ensures Shapes(rq[User(n) := rq[User(n)].(place := Stashed)], Some(n))
  {
    assert Shape(None, User(n), rq[User(n)]);
  }

  lemma ExpandShapes(s: State)
    requires Structure(s) && Sound(s) && s.list != [] && s.ordseq == SEQ_NONE && IsBarrier(s.rq[s.list[0]])
    ensures var e := Expand(s); Shapes(e.rq, e.orig) && e.inFlight == |Accounted(e.scrub, e.rq)|
  {
    hide ListOk, Accounted, Shapes, EffectiveOrder;
    ProxiesFree(s);
    OnList(s, s.list[0]);
    var e := Expand(s);
    var n := s.list[0].n;
    var rq1 := s.rq[User(n) := e.rq[User(n)]];
    var rq2 := rq1[Post := e.rq[Post]];
    var rq3 := rq2[Bar := e.rq[Bar]];
    assert !s.rq[User(n)].started by { ShapeOf(s, User(n)); }
    Stash(s.rq, n);
    ShapeUpdate(rq1, e.orig, Post, e.rq[Post]);
    ShapeUpdate(rq2, e.orig, Bar, e.rq[Bar]);
    ShapeUpdate(rq3, e.orig, Pre, e.rq[Pre]);
    CountKeep(s.scrub, s.rq, User(n), e.rq[User(n)]);
    CountKeep(s.scrub, rq1, Post, e.rq[Post]);
    CountKeep(s.scrub, rq2, Bar, e.rq[Bar]);
    CountKeep(s.scrub, rq3, Pre, e.rq[Pre]);
  }

  lemma ShapeOf(s: State, id: Id)
    requires Structure(s) && id in s.rq
    ensures Shape(s.orig, id, s.rq[id])
  {
    hide ListOk, Accounted, Mask, Stages;
  }

  lemma ExpandStages(s: State)
    requires Sound(s) && s.list != [] && s.list[0].User? && s.ordseq == SEQ_NONE && ValidMode(s.mode)
    ensures var e := Expand(s); var bits := Skipped(e.ordered, MustWait(e));
            && Stages(e.rq, true, Or(e.ordseq, bits), e.ordered)
            && (e.ordered.byTag ==> Or(e.ordseq, bits).drain)
  {
  }

  lemma StartOrderedStructure(s: State)
    requires Structure(s) && Sound(s) && s.list != [] && s.ordseq == SEQ_NONE
    requires IsBarrier(s.rq[s.list[0]]) && s.mode != ORDERED_NONE
    ensures Structure(StartOrdered(s).0)
  {
    hide ListOk, Accounted, Shapes, Stages, EffectiveOrder, ValidMode;
    ExpandList(s);
    ExpandShapes(s);
    ExpandStages(s);
    var e := Expand(s);
    assert e.h.errs == [];
    CompleteSeqStructure(e, Skipped(e.ordered, MustWait(e)), 0);
  }

  lemma RefuseStructure(s: State)
    requires Structure(s) && Sound(s) && s.list != [] && s.ordseq == SEQ_NONE && IsBarrier(s.rq[s.list[0]])
    ensures Structure(Refuse(s))
  {
    hide ListOk, Accounted, Mask;
    var s' := Refuse(s);
    var id := s.list[0];
    OnList(s, id);
    ShapeOf(s, id);
    CountKeep(s.scrub, s.rq, id, s'.rq[id]);
    ListRemove(s.rq, s.list, 0, s'.rq[id]);
    assert Remove(s.list, 0) == s'.list;
    Moved(s, s', id);
  }
}
