/** What the steps of the barrier protocol do to the requests submitted from outside. */
module BarrierUsers {
  import opened Options
  import opened BarrierModel
  import opened BarrierStructure
  import opened BarrierColors

  /** What a step may change about a request from outside. */
  predicate Kindred(r: Request, r': Request) {
    && r'.kind == r.kind && r'.hard == r.hard && r'.sectors == r.sectors && r'.epoch == r.epoch && (r.soft ==> r'.soft)
    && (r'.place == Sched ==> r.place == Sched)
    && (r'.place == Listed ==> r.place == Listed || r.place == Sched || r'.soft)
  }

  ghost predicate UsersKept(s: State, s': State) {
    && s'.mode == s.mode && s'.h.epoch == s.h.epoch
    && forall id :: id in s'.rq && id.User? ==> id in s.rq && Kindred(s.rq[id], s'.rq[id])
  }

  lemma CompleteSeqUsers(s: State, bits: OrdSeq, error: int)
    requires s.orig.Some? && User(s.orig.value) in s.rq
    ensures UsersKept(s, CompleteSeq(s, bits, error))
  {
    hide CurSeq, Or;
  }

  lemma KeptTrans(a: State, b: State, c: State)
    requires UsersKept(a, b) && UsersKept(b, c)
    ensures UsersKept(a, c)
  {
  }

  lemma CompleteUsers(s: State, id: Id, error: int)
    requires Sound(s) && id in s.rq
    ensures UsersKept(s, Complete(s, id, error))
  {
    hide CompleteSeq, Drained;
    var s1 := Release(s, id, error);
    ReleaseSound(s, id, error);
    assert UsersKept(s, s1);
    var s2 := ElvCompleted(s, id, error);
    if Drained(s1) {
      DrainedOrig(s1);
      CompleteSeqUsers(s1, SEQ_DRAIN, 0);
      KeptTrans(s, s1, s2);
    }
    if !id.User? && s2.orig.Some? {
      assert User(s2.orig.value) in s2.rq by { if Drained(s1) { OrigKept(s1, SEQ_DRAIN, 0); } }
      var s3 := s2.(h := s2.h.(errs := s2.h.errs + [error]));
      CompleteSeqUsers(s3, StageBit(id), error);
      KeptTrans(s, s2, CompleteSeq(s3, StageBit(id), error));
    }
  }

  lemma OrigKept(s: State, bits: OrdSeq, error: int)
    requires s.orig.Some? && User(s.orig.value) in s.rq
    ensures var s' := CompleteSeq(s, bits, error); s'.orig.Some? ==> User(s'.orig.value) in s'.rq
  {
    hide CurSeq, Or;
  }

  lemma ExpandUsers(s: State)
    requires Sound(s) && s.list != [] && s.list[0].User?
    ensures UsersKept(s, Expand(s))
  {
    hide EffectiveOrder, FlushRequest, BodyRequest, InUse, Front, Weight;
  }

  lemma MarkUsers(s: State)
    requires s.list != [] && s.list[0] in s.rq
    ensures UsersKept(s, MarkHead(s))
  {
  }

  lemma RefuseUsers(s: State)
    requires Sound(s) && s.list != [] && s.list[0].User?
    ensures UsersKept(s, Refuse(s))
  {
  }

  lemma PeekUsers(s: State)
    requires Sound(s) && s.list != []
    ensures UsersKept(s, Peek(s))
  {
    hide CompleteSeq, ReqSeq, CurSeq, Expand, Refuse, MarkHead, UsersKept, Sound;
    var (t, v) := DoOrdered(s);
    HeadFacts(s);
    assert UsersKept(s, s) by { SameAsSelf(s); }
    if s.ordseq == SEQ_NONE && IsBarrier(s.rq[s.list[0]]) {
      if s.mode != ORDERED_NONE {
        var x := Expand(s);
        ExpandUsers(s);
        ExpandOrig(s);
        ExpandKeeps(s);
        CompleteSeqUsers(x, Skipped(x.ordered, MustWait(x)), 0);
        KeptTrans(s, x, t);
      } else {
        RefuseUsers(s);
      }
    }
    if v == Issue && t.list != [] && t.list[0] in t.rq {
      MarkUsers(t);
      KeptTrans(s, t, MarkHead(t));
    }
  }

  lemma SameAsSelf(s: State)
    ensures UsersKept(s, s)
  {
  }

  lemma StepUsers(s: State, l: Label)
    requires Sound(s) && Enabled(s, l) && !l.LAdd?
    ensures UsersKept(s, Apply(s, l))
  {
    hide Peek, Complete, Requeue, Dispatch, Start, UsersKept;
    match l
    case LDispatch(id, i) => MoveUsers(s, Dispatch(s, id, i), id) by { DispatchFacts(s, id, i); }
    case LPeek => PeekUsers(s);
    case LStart(i) => MoveUsers(s, Start(s, i), s.list[i]) by { StartFacts(s, i); }
    case LComplete(id, error) => CompleteUsers(s, id, error);
    case LRequeue(id) => MoveUsers(s, Requeue(s, id), id) by { RequeueFacts(s, id); }
  }

  ghost predicate MovesOne(s: State, s': State, id: Id) {
    && s'.mode == s.mode && s'.h.epoch == s.h.epoch && id in s.rq && id in s'.rq
    && s'.rq == s.rq[id := s'.rq[id]] && Kindred(s.rq[id], s'.rq[id])
  }

  lemma MoveUsers(s: State, s': State, id: Id)
    requires MovesOne(s, s', id)
    ensures UsersKept(s, s')
  {
  }

  lemma DispatchFacts(s: State, id: Id, i: nat)
    requires Sound(s) && Enabled(s, LDispatch(id, i))
    ensures var s' := Dispatch(s, id, i);
            MovesOne(s, s', id)
  {
  }

  lemma StartFacts(s: State, i: nat)
    requires Sound(s) && Enabled(s, LStart(i))
    ensures var s', id := Start(s, i), s.list[i];
            MovesOne(s, s', id)
  {
    hide Remove, Weight;
  }

  lemma RequeueFacts(s: State, id: Id)
    requires Sound(s) && Enabled(s, LRequeue(id))
    ensures var s' := Requeue(s, id);
            MovesOne(s, s', id)
  {
    hide RequeueSpot, Insert, ReqSeq, Weight;
  }

  lemma ExpandKeeps(s: State)
    requires Sound(s) && s.list != [] && s.list[0].User?
    ensures s.list[0] in Expand(s).rq
  {
  }

  // ---------------------------------------------------------------- epochs and empty barriers

  /** Every request was submitted in an epoch that has begun, every barrier in one that is over. */
  predicate InPast(hepoch: nat, id: Id, r: Request) {
    id.User? ==> r.epoch <= hepoch && (IsBarrier(r) ==> r.epoch < hepoch)
  }

  ghost predicate Epochs(s: State) {
    forall id :: id in s.rq ==> InPast(s.h.epoch, id, s.rq[id])
  }

  lemma StepEpochs(s: State, l: Label)
    requires Sound(s) && Enabled(s, l) && Epochs(s)
    ensures Epochs(Apply(s, l))
  {
    hide Peek, Complete, Requeue, Dispatch, Start;
    if !l.LAdd? {
      StepUsers(s, l);
      assert Epochs(Apply(s, l)) by { KindredEpochs(s, Apply(s, l)); }
    }
  }

  lemma KindredEpochs(s: State, s': State)
    requires Epochs(s) && UsersKept(s, s')
    ensures Epochs(s')
  {
  }

  lemma ColoringEpochs(s: State)
    requires Sound(s) && Coloring(s)
    ensures Epochs(s)
  {
    forall id | id in s.rq ensures InPast(s.h.epoch, id, s.rq[id]) { ColorsOf(s, id); }
  }

  predicate EmptyBarrier(l: Label) { l.LAdd? && IsBarrier(l.r) && l.r.sectors == 0 }

  ghost predicate NoEmpty(s: State) {
    forall id :: id in s.rq && UserBarrier(id, s.rq[id]) ==> s.rq[id].sectors != 0
  }

  lemma StepNoEmpty(s: State, l: Label)
    requires Sound(s) && Enabled(s, l) && NoEmpty(s) && !EmptyBarrier(l)
    ensures NoEmpty(Apply(s, l))
  {
    hide Peek, Complete, Requeue, Dispatch, Start;
    if !l.LAdd? {
      StepUsers(s, l);
      assert NoEmpty(Apply(s, l)) by { KindredNoEmpty(s, Apply(s, l)); }
    }
  }

  lemma KindredNoEmpty(s: State, s': State)
    requires NoEmpty(s) && UsersKept(s, s')
    ensures NoEmpty(s')
  {
  }

  // ---------------------------------------------------------------- sequences that never drain

  /** Only the draining modes, and the one that mixes tags with draining, ever wait for a drain. */
  predicate NeverDrains(m: Ordered) { m == ORDERED_NONE || m == ORDERED_TAG_FLUSH || m == ORDERED_TAG_FUA }

  lemma AlwaysTagged(s: State)
    requires Structure(s) && (NeverDrains(s.mode) || (s.mode == ORDERED_TAG && NoEmpty(s)))
    ensures TagOnly(s)
  {
    hide ListOk, Accounted, Stages;
    if s.orig.Some? { ShapeOf(s, User(s.orig.value)); }
  }
}
