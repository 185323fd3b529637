/** The barrier protocol over whole runs. */
module BarrierRuns {
  import opened Options
  import opened BarrierModel
  import opened BarrierStructure
  import opened BarrierColors
  import opened BarrierUsers
  import opened BarrierDrain
  import opened BarrierLog

  // ---------------------------------------------------------------- the log in every mode

  /** What holds whatever is submitted, as long as barriers are told apart. */
  ghost predicate Steady(s: State) {
    Structure(s) && Sound(s) && Epochs(s) && Logged(s) && OnceLog(s.mode, s.h.log)
  }

  ghost predicate AllModes(s: State) { Steady(s) && Coloring(s) }

  /** One request changes owner, with an event that finishes nothing. */
  lemma LoggedEvent(s: State, s': State, id: Id, ev: Event)
    requires Logged(s) && OnceLog(s.mode, s.h.log) && id in s.rq && id in s'.rq
    requires s'.rq == s.rq[id := s'.rq[id]] && SameSubmission(s.rq[id], s'.rq[id])
    requires s'.rq[id].place != Free && (id.User? ==> s.rq[id].place != Free)
    requires s'.h.log == s.h.log + [ev] && (ev.Issued? || ev.Requeued?) && OnceEvent(s.mode, s.h.log, ev)
    requires s'.orig == s.orig && s'.ordseq == s.ordseq && s'.ordered == s.ordered && s'.h.errs == s.h.errs
    requires s'.mode == s.mode
    ensures Logged(s') && OnceLog(s'.mode, s'.h.log)
  {
    hide SubmitLog, FinishLog, StageLog, OnceLog, OnceEvent;
    SubmitLogKeep(s.rq, s'.rq, s.h.log, ev);
    FinishLogUpdate(s.rq, s.h.log, ev, id, s'.rq[id]);
    StageLogKeep(s.rq, s.h.log, s.orig, s.ordseq, s.ordered, s.h.errs, ev, id, s'.rq[id]);
    OnceLogAppend(s.mode, s.h.log, ev);
  }

  /** One request changes, and nothing is logged. */
  lemma LoggedQuiet(s: State, s': State, id: Id)
    requires Logged(s) && id in s.rq && id in s'.rq
    requires s'.rq == s.rq[id := s'.rq[id]] && SameSubmission(s.rq[id], s'.rq[id])
    requires s'.rq[id].place == Free <==> s.rq[id].place == Free
    requires s'.h.log == s.h.log
    requires s'.orig == s.orig && s'.ordseq == s.ordseq && s'.ordered == s.ordered && s'.h.errs == s.h.errs
    ensures Logged(s')
  {
    hide SubmitLog;
    SubmitLogSame(s.rq, s'.rq, s.h.log);
  }

  lemma AddLogged(s: State, n: nat, r: Request, where: Where)
    requires Sound(s) && Epochs(s) && Logged(s) && AddOk(s, n, r, where) && OnceLog(s.mode, s.h.log)
    ensures var s' := Add(s, n, r, where); Logged(s') && OnceLog(s'.mode, s'.h.log)
  {
    hide SubmitLog, FinishLog, StageLog, OnceLog, AddOk;
    var s' := Add(s, n, r, where);
    var id := User(n);
    NewRequest(s, n, r, where);
    var ev := Submitted(n, r.kind == Fs, IsBarrier(r), r.sectors == 0);
    SubmitLogAdd(s.rq, s.h.log, n, s'.rq[id], s.h.epoch) by {
      assert forall x :: x in s.rq ==> InPast(s.h.epoch, x, s.rq[x]);
    }
    FinishLogUpdate(s.rq, s.h.log, ev, id, s'.rq[id]);
    StageLogKeep(s.rq, s.h.log, s.orig, s.ordseq, s.ordered, s.h.errs, ev, id, s'.rq[id]);
    OnceLogAppend(s.mode, s.h.log, ev);
  }

  lemma ReleaseUserLogged(s: State, id: Id, error: int)
    requires Structure(s) && Sound(s) && Logged(s) && Enabled(s, LComplete(id, error)) && id.User?
    requires OnceLog(s.mode, s.h.log)
    ensures var s' := Release(s, id, error); Logged(s') && OnceLog(s'.mode, s'.h.log)
  {
    hide SubmitLog, FinishLog, StageLog, OnceLog, ListOk, Stages, Mask, Accounted;
    var s' := Release(s, id, error);
    var ev := Completed(id, None, error);
    ShapeOf(s, id);
    SubmitLogKeep(s.rq, s'.rq, s.h.log, ev);
    assert Completed(User(id.n), None, error) in s'.h.log;
    FinishLogUpdate(s.rq, s.h.log, ev, id, s'.rq[id]);
    StageLogKeep(s.rq, s.h.log, s.orig, s.ordseq, s.ordered, s.h.errs, ev, id, s'.rq[id]);
    OnceLogAppend(s.mode, s.h.log, ev);
  }

  /** The log is consistent once `bits` are set. */
  ghost predicate ReadyLog(s: State, bits: OrdSeq) {
    && SubmitLog(s.rq, s.h.log)
    && FinishLog(s.rq, s.h.log)
    && StageLog(s.rq, s.h.log, s.orig, Or(s.ordseq, bits), s.ordered, s.h.errs)
    && OnceLog(s.mode, s.h.log)
  }

  lemma EndedOnce(s: State, bits: OrdSeq, error: int)
    requires Ready(s, bits, error) && ReadyLog(s, bits) && CurSeq(Or(s.ordseq, bits)) == DONE
    ensures OnceEvent(s.mode, s.h.log, Ended(s.orig.value, FirstError(s.h.errs)))
  {
    hide ListOk, Stages, Accounted, ValidMode, EffectiveOrder, FirstError, OnceLog;
    var n := s.orig.value;
    assert Shape(s.orig, User(n), s.rq[User(n)]);
    var empty := s.rq[User(n)].sectors == 0;
    assert Submitted(n, true, true, empty) in s.h.log;
    forall id: Id | Wanted(EffectiveOrder(s.mode, empty), id) ensures StageCompleted(s.h.log, id, n) {
      assert Bit(Or(s.ordseq, bits), id);
    }
  }

  lemma EndLogged(s: State, bits: OrdSeq, error: int)
    requires Ready(s, bits, error) && ReadyLog(s, bits) && CurSeq(Or(s.ordseq, bits)) == DONE
    ensures var s' := CompleteSeq(s, bits, error); Logged(s') && OnceLog(s'.mode, s'.h.log)
  {
    hide ListOk, Stages, Accounted, ValidMode, EffectiveOrder, FirstError, SubmitLog, FinishLog, OnceLog, OnceEvent;
    var s' := CompleteSeq(s, bits, error);
    var n := s.orig.value;
    var id := User(n);
    var ev := Ended(n, FirstError(s.h.errs));
    assert Shape(s.orig, id, s.rq[id]);
    EndedOnce(s, bits, error);
    OnceLogAppend(s.mode, s.h.log, ev);
    SubmitLogKeep(s.rq, s'.rq, s.h.log, ev);
    assert ev in s.h.log + [ev];
    FinishLogUpdate(s.rq, s.h.log, ev, id, s'.rq[id]);
    assert forall x :: x in s'.h.log <==> x in s.h.log || x == ev;
  }

  lemma CompleteSeqLogged(s: State, bits: OrdSeq, error: int)
    requires Ready(s, bits, error) && ReadyLog(s, bits)
    ensures var s' := CompleteSeq(s, bits, error); Logged(s') && OnceLog(s'.mode, s'.h.log)
  {
    if CurSeq(Or(s.ordseq, bits)) == DONE {
      EndLogged(s, bits, error);
    } else {
      hide Ready, SubmitLog, FinishLog, StageLog, OnceLog;
      assert s.orig.Some? && User(s.orig.value) in s.rq by { ReadyOrig(s, bits, error); }
    }
  }

  lemma ReadyOrig(s: State, bits: OrdSeq, error: int)
    requires Ready(s, bits, error)
    ensures s.orig.Some? && User(s.orig.value) in s.rq
  {
  }

  lemma DrainedLog(s: State)
    requires Sound(s) && Logged(s) && OnceLog(s.mode, s.h.log) && Drained(s)
    ensures ReadyLog(s, SEQ_DRAIN)
  {
    hide SubmitLog, FinishLog, OnceLog;
  }

  /** The completion of a stage is new, and is logged for the current barrier. */
  lemma ProxyReadyLog(s: State, id: Id, error: int)
    requires Structure(s) && Sound(s) && Logged(s) && OnceLog(s.mode, s.h.log) && Enabled(s, LComplete(id, error))
    requires !id.User?
    ensures var s1 := Release(s, id, error); ReadyLog(s1.(h := s1.h.(errs := s1.h.errs + [error])), StageBit(id))
  {
    hide SubmitLog, FinishLog, OnceLog, ListOk, Mask, Accounted, StageLog;
    ProxyNotDrained(s, id);
    var s1 := Release(s, id, error);
    var b := s.orig.value;
    var ev := Completed(id, Some(b), error);
    SubmitLogKeep(s.rq, s1.rq, s.h.log, ev);
    FinishLogUpdate(s.rq, s.h.log, ev, id, s1.rq[id]);
    ProxyOnce(s, id, error);
    OnceLogAppend(s.mode, s.h.log, ev);
    ProxyStageLog(s.rq, s.h.log, b, s.ordseq, s.ordered, s.h.errs, id, s1.rq[id], error);
  }

  lemma ProxyOnce(s: State, id: Id, error: int)
    requires Structure(s) && Sound(s) && Logged(s) && Enabled(s, LComplete(id, error)) && !id.User? && s.orig.Some?
    ensures OnceEvent(s.mode, s.h.log, Completed(id, s.orig, error))
  {
    hide SubmitLog, OnceLog, ListOk, Mask, Accounted, Stages;
    ProxyNotDrained(s, id);
    ShapeOf(s, User(s.orig.value));
  }

  lemma ProxyStageLog(rq: Requests, log: seq<Event>, b: nat, o: OrdSeq, ordered: Ordered, errs: seq<int>, id: Id,
                      r: Request, error: int)
    requires StageLog(rq, log, Some(b), o, ordered, errs) && !id.User? && User(b) in rq
    ensures StageLog(rq[id := r], log + [Completed(id, Some(b), error)], Some(b), Or(o, StageBit(id)), ordered,
            errs + [error])
  {
    var ev := Completed(id, Some(b), error);
    var l := log + [ev];
    var o' := Or(o, StageBit(id));
    assert forall x :: x in l <==> x in log || x == ev;
    StageErrorsAppend(log, ev, b);
    forall x: Id | Wanted(ordered, x) && Bit(o', x) ensures StageCompleted(l, x, b) {
      if x == id {
        assert Completed(id, Some(b), error) in l;
      } else {
        assert Bit(o, x);
        StageCompletedAppend(log, ev, x, b);
      }
    }
    forall x | x in log && x.Completed? && x.forBarrier == Some(b) && !x.id.User? && Bit(o, x.id)
      ensures Bit(o', x.id)
    {
    }
  }

  /** A new sequence starts with a clean record for its barrier. */
  lemma ExpandReadyLog(s: State)
    requires Structure(s) && Sound(s) && Logged(s) && OnceLog(s.mode, s.h.log)
    requires s.list != [] && s.ordseq == SEQ_NONE && IsBarrier(s.rq[s.list[0]])
    ensures var x := Expand(s); ReadyLog(x, Skipped(x.ordered, MustWait(x)))
  {
    hide OnceLog, ListOk, Mask, Accounted, Stages, EffectiveOrder, SubmitLog, FinishLog, Front, Weight;
    var x := Expand(s);
    var n := s.list[0].n;
    OnListI(s, s.list[0]);
    ProxiesFree(s);
    assert SubmitLog(x.rq, x.h.log) by { SubmitLogSame(s.rq, x.rq, s.h.log); }
    assert FinishLog(x.rq, x.h.log) by { ExpandFinishLog(s); }
    StageErrorsEmpty(s.h.log, n);
  }

  lemma ExpandFinishLog(s: State)
    requires Structure(s) && Sound(s) && FinishLog(s.rq, s.h.log) && s.list != [] && s.list[0].User?
    ensures FinishLog(Expand(s).rq, s.h.log)
  {
    hide ListOk, Mask, Accounted, Stages, EffectiveOrder, Finished;
    OnListI(s, s.list[0]);
  }

  lemma StartOrderedLogged(s: State)
    requires Steady(s) && s.list != [] && s.ordseq == SEQ_NONE && IsBarrier(s.rq[s.list[0]]) && s.mode != ORDERED_NONE
    ensures var s' := StartOrdered(s).0; Logged(s') && OnceLog(s'.mode, s'.h.log)
  {
    hide Structure, Coloring, Logged, OnceLog, Expand, Ready, ReadyLog;
    ExpandReady(s);
    ExpandReadyLog(s);
    CompleteSeqLogged(Expand(s), Skipped(Expand(s).ordered, MustWait(Expand(s))), 0);
  }

  lemma RefuseLogged(s: State)
    requires Steady(s) && s.list != [] && s.ordseq == SEQ_NONE && IsBarrier(s.rq[s.list[0]]) && s.mode == ORDERED_NONE
    ensures var s' := Refuse(s); Logged(s') && OnceLog(s'.mode, s'.h.log)
  {
    hide Structure, Coloring, OnceLog, SubmitLog, StageLog;
    var s' := Refuse(s);
    var id := s.list[0];
    var ev := Ended(id.n, EOPNOTSUPP);
    OnListI(s, id);
    ProxiesFree(s);
    SubmitLogKeep(s.rq, s'.rq, s.h.log, ev);
    assert ev in s.h.log + [ev];
    FinishLogUpdate(s.rq, s.h.log, ev, id, s'.rq[id]);
    StageLogKeep(s.rq, s.h.log, s.orig, s.ordseq, s.ordered, s.h.errs, ev, id, s'.rq[id]);
    OnceLogAppend(s.mode, s.h.log, ev);
  }

  lemma PeekLogged(s: State)
    requires Steady(s) && s.list != []
    ensures var s' := Peek(s); Logged(s') && OnceLog(s'.mode, s'.h.log)
  {
    hide Structure, Coloring, Logged, OnceLog, StartOrdered, Refuse;
    var (t, v) := DoOrdered(s);
    if s.ordseq == SEQ_NONE && IsBarrier(s.rq[s.list[0]]) {
      if s.mode != ORDERED_NONE {
        StartOrderedLogged(s);
        if v == Issue {
          StartOrderedHead(s);
          LoggedQuiet(t, MarkHead(t), t.list[0]);
        }
      } else {
        RefuseLogged(s);
      }
    } else if v == Issue {
      LoggedQuiet(s, MarkHead(s), s.list[0]);
    }
  }

  lemma CompleteLogged(s: State, id: Id, error: int)
    requires Steady(s) && Enabled(s, LComplete(id, error))
    ensures var s' := Complete(s, id, error); Logged(s') && OnceLog(s'.mode, s'.h.log)
  {
    hide Structure, Coloring, Logged, OnceLog, Release, Ready, ReadyLog, CompleteSeq;
    var s1 := Release(s, id, error);
    ReleaseSound(s, id, error);
    if id.User? {
      ReleaseUserLogged(s, id, error);
      if Drained(s1) {
        DrainedLog(s1);
        DrainedReadyAll(s, id, error);
        CompleteSeqLogged(s1, SEQ_DRAIN, 0);
      }
    } else {
      ProxyNotDrained(s, id);
      ProxyReady(s, id, error);
      ProxyReadyLog(s, id, error);
      CompleteSeqLogged(s1.(h := s1.h.(errs := s1.h.errs + [error])), StageBit(id), error);
    }
  }

  lemma DrainedReadyAll(s: State, id: Id, error: int)
    requires Structure(s) && Sound(s) && Enabled(s, LComplete(id, error)) && id.User?
    requires Sound(Release(s, id, error)) && Drained(Release(s, id, error))
    ensures Ready(Release(s, id, error), SEQ_DRAIN, 0)
  {
    hide ListOk, Accounted, ValidMode, EffectiveOrder, FirstError, Stages;
    ReleaseStructure(s, id, error);
    ShapeOf(s, id);
    var s1 := Release(s, id, error);
    Moved(s, s1, id);
    StagesAfterDrain(s1.rq, s1.ordseq, s1.ordered);
  }

  /** What is started was offered, and a barrier never is. */
  lemma StartOnce(s: State, i: nat)
    requires Structure(s) && Sound(s) && Logged(s) && Enabled(s, LStart(i))
    ensures OnceEvent(s.mode, s.h.log, Issued(s.list[i], ForBarrier(s, s.list[i])))
  {
    hide Structure, FinishLog, StageLog;
    var id := s.list[i];
    ShapeOf(s, id);
    assert id.User? ==> !IsBarrier(s.rq[id]);
  }

  lemma StepSteady(s: State, l: Label)
    requires Steady(s) && ToldApart(s) && Enabled(s, l)
    ensures Steady(Apply(s, l))
  {
    hide Structure, ToldApart, Epochs, Logged, OnceLog, Add, Peek, Complete, Requeue;
    StepStructure(s, l);
    StepEpochs(s, l);
    match l
    case LAdd(n, r, where) =>
      AddLogged(s, n, r, where);
    case LDispatch(id, i) =>
      LoggedQuiet(s, Dispatch(s, id, i), id);
    case LPeek =>
      PeekLogged(s);
    case LStart(i) =>
      OnListI(s, s.list[i]);
      StartOnce(s, i);
      LoggedEvent(s, Start(s, i), s.list[i], Issued(s.list[i], ForBarrier(s, s.list[i])));
    case LComplete(id, error) =>
      CompleteLogged(s, id, error);
    case LRequeue(id) =>
      RequeueFields(s, id);
      LoggedEvent(s, Requeue(s, id), id, Requeued(id));
  }

  lemma StepLogged(s: State, l: Label)
    requires AllModes(s) && Enabled(s, l) && FsBarriersOnly(l)
    ensures AllModes(Apply(s, l))
  {
    hide Structure, Coloring, Epochs, Logged, OnceLog, Apply;
    StepSteady(s, l);
    StepAllModes(s, l);
  }

  lemma RequeueFields(s: State, id: Id)
    requires Sound(s) && id in s.rq
    ensures var s' := Requeue(s, id);
            && s'.rq == s.rq[id := s.rq[id].(started := false, soft := true, place := Listed)]
            && s'.h.log == s.h.log + [Requeued(id)]
            && s'.orig == s.orig && s'.ordseq == s.ordseq && s'.ordered == s.ordered && s'.h.errs == s.h.errs
            && s'.mode == s.mode
  {
  }

  lemma InitAllModes(s: State)
    requires Init(s)
    ensures AllModes(s)
  {
    InitStructure(s);
    StructureSound(s);
    InitColoring(s);
    ColoringEpochs(s);
  }
}
