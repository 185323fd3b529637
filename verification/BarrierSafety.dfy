/** Safety of the barrier protocol in every run. */
module BarrierSafety {
  import opened Options
  import opened BarrierModel
  import opened BarrierStructure
  import opened BarrierColors
  import opened BarrierUsers
  import opened BarrierDrain
  import opened BarrierLog
  import opened BarrierRuns

  // ---------------------------------------------------------------- ordering by draining

  ghost predicate DrainRunInv(s: State) {
    Inv(s) && AllModes(s) && DrainLog(s.mode.doPre, s.h.log)
  }

  /** Once the drain bit is set, whatever was submitted before the current barrier is gone. */
  lemma EarlierFree(s: State, bits: OrdSeq, id: Id)
    requires Sound(s) && Coloring(s) && ListOk(s.rq, s.list) && Shapes(s.rq, s.orig) && TurnsAfter(s, bits)
    requires s.orig.Some? && Or(s.ordseq, bits).drain
    requires id in s.rq && UserFs(id, s.rq[id]) && id != User(s.orig.value)
    requires s.rq[id].epoch <= s.h.ended && (IsBarrier(s.rq[id]) ==> s.rq[id].epoch < s.h.ended)
    ensures s.rq[id].place == Free
  {
    hide Colors;
    assert Shape(s.orig, id, s.rq[id]);
    assert Turn(s.h.ended, s.h.epoch, Or(s.ordseq, bits), id, s.rq[id]);
  }

  lemma EarlierDone(s: State, bits: OrdSeq)
    requires Sound(s) && Coloring(s) && ListOk(s.rq, s.list) && Shapes(s.rq, s.orig) && TurnsAfter(s, bits)
    requires s.orig.Some? && Or(s.ordseq, bits).drain
    requires SubmitLog(s.rq, s.h.log) && FinishLog(s.rq, s.h.log)
    ensures EarlierFinished(s.h.log, s.orig.value)
  {
    hide Coloring, ListOk, Shapes, TurnsAfter, Finished;
    var log := s.h.log;
    OrigEpoch(s);
    forall j, k | 0 <= j < k < |log| && log[j].Submitted? && log[j].fs && log[k].Submitted? && log[k].n == s.orig.value
      ensures Finished(log, log[j].n, log[j].barrier)
    {
      var id := User(log[j].n);
      assert log[j] in log && log[k] in log;
      EarlierFree(s, bits, id);
    }
  }

  lemma StartProxyEvent(s: State, i: nat)
    requires DrainRunInv(s) && Enabled(s, LStart(i)) && !s.list[i].User?
    ensures DrainEvent(s.mode.doPre, s.h.log, Issued(s.list[i], ForBarrier(s, s.list[i])))
  {
    hide ListOk, Shapes, Mask, Accounted, Coloring, DrainOrder, Turns, SubmitLog, FinishLog, OnceLog, DrainLog,
         DrainMode;
    var id := s.list[i];
    OnListI(s, id);
    ProxyActive(s, id);
    TurnOf(s, id);
    assert s.ordseq.drain && Wanted(s.ordered, id);
    assert TurnsAfter(s, SEQ_NONE) by { SameTurns(s); }
    EarlierDone(s, SEQ_NONE);
    ActiveStarted(s);
    StagesOfMode(s.mode, s.rq[User(s.orig.value)].sectors == 0);
  }

  lemma SameTurns(s: State)
    requires Turns(s)
    ensures TurnsAfter(s, SEQ_NONE)
  {
    hide Turn;
    assert Or(s.ordseq, SEQ_NONE) == s.ordseq;
  }

  lemma StagesOfMode(m: Ordered, empty: bool)
    requires DrainMode(m)
    ensures EffectiveOrder(m, empty).doPre == m.doPre
    ensures EffectiveOrder(m, empty).doPost ==> EffectiveOrder(m, empty).doBar
  {
  }

  lemma EarlierBarrierFree(s: State, id: Id)
    requires Inv(s) && id in s.rq && UserBarrier(id, s.rq[id]) && s.rq[id].epoch < s.h.ended
    ensures s.rq[id].place == Free
  {
    hide Mask, Stages, Accounted, Colors, DrainOrder, DrainMode, Turns;
    ShapeOf(s, id);
    TurnOf(s, id);
  }

  lemma StartUserEvent(s: State, i: nat)
    requires DrainRunInv(s) && Enabled(s, LStart(i)) && s.list[i].User?
    ensures DrainEvent(s.mode.doPre, s.h.log, Issued(s.list[i], ForBarrier(s, s.list[i])))
  {
    hide Structure, Coloring, DrainOrder, Turns, StageLog, OnceLog, DrainLog, DrainMode;
    var log := s.h.log;
    var id := s.list[i];
    OnListI(s, id);
    TurnOf(s, id);
    if IsFsRequest(log, id.n) {
      assert s.rq[id].kind == Fs;
      forall j, k | 0 <= j < k < |log| && log[j].Submitted? && log[j].barrier && log[k].Submitted? && log[k].n == id.n
        ensures BarrierEnded(log, log[j].n)
      {
        assert log[j] in log && log[k] in log;
        EarlierBarrierFree(s, User(log[j].n));
      }
    }
  }

  /** Ending a barrier is safe as soon as the stages are in turn. */
  lemma CompleteSeqDrainLog(s: State, bits: OrdSeq, error: int)
    requires Ready(s, bits, error) && ReadyLog(s, bits) && Sound(s) && Coloring(s) && TurnsAfter(s, bits)
    requires DrainLog(s.mode.doPre, s.h.log) && s.orig.Some? && User(s.orig.value) in s.rq
    ensures var s' := CompleteSeq(s, bits, error); DrainLog(s'.mode.doPre, s'.h.log)
  {
    hide Coloring, ListOk, Shapes, Stages, TurnsAfter, StageLog, SubmitLog, FinishLog, OnceLog, DrainLog, Accounted,
         FirstError, EffectiveOrder, ValidMode;
    if CurSeq(Or(s.ordseq, bits)) == DONE {
      EarlierDone(s, bits);
      var err := if error != 0 && s.orderr == 0 then error else s.orderr;
      DrainLogAppend(s.mode.doPre, s.h.log, Ended(s.orig.value, err));
    }
  }

  lemma CompleteDrainLog(s: State, id: Id, error: int)
    requires DrainRunInv(s) && Enabled(s, LComplete(id, error))
    ensures var s' := Complete(s, id, error); DrainLog(s'.mode.doPre, s'.h.log)
  {
    hide Structure, Coloring, Drains, Logged, OnceLog, DrainLog, Ready, ReadyLog, TurnsAfter, CompleteSeq;
    var s1 := Release(s, id, error);
    ReleaseSound(s, id, error);
    DrainLogAppend(s.mode.doPre, s.h.log, Completed(id, ForBarrier(s, id), error));
    if id.User? {
      ReleaseInv(s, id, error);
      ReleaseUserLogged(s, id, error);
      if Drained(s1) {
        DrainedReady(s1);
        DrainedLog(s1);
        DrainedTurns(s1);
        CompleteSeqDrainLog(s1, SEQ_DRAIN, 0);
      }
    } else {
      var s2 := s1.(h := s1.h.(errs := s1.h.errs + [error]));
      ProxyNotDrained(s, id);
      ProxyReady(s, id, error);
      ProxyReadyLog(s, id, error);
      ReleaseColoring(s, id, error);
      ColoringErrs(s1, s2);
      ProxyCompleteTurns(s, id, error);
      assert TurnsAfter(s2, StageBit(id)) by { TurnsErrs(s1, s2, StageBit(id)); }
      CompleteSeqDrainLog(s2, StageBit(id), error);
    }
  }

  lemma TurnsErrs(s: State, s': State, bits: OrdSeq)
    requires TurnsAfter(s, bits) && s' == s.(h := s.h.(errs := s'.h.errs))
    ensures TurnsAfter(s', bits)
  {
    hide Turn;
  }

  lemma PeekDrainLog(s: State)
    requires DrainRunInv(s) && s.list != []
    ensures var s' := Peek(s); DrainLog(s'.mode.doPre, s'.h.log)
  {
    hide Structure, Coloring, Drains, Logged, OnceLog, DrainLog, Ready, ReadyLog, TurnsAfter, CompleteSeq, Expand;
    assert s.mode != ORDERED_NONE by { ModeOf(s); }
    if s.ordseq == SEQ_NONE && IsBarrier(s.rq[s.list[0]]) {
      var x := Expand(s);
      var bits := Skipped(x.ordered, MustWait(x));
      ExpandReady(s);
      ExpandReadyLog(s);
      ExpandColoring(s);
      ExpandTurns(s);
      ExpandSame(s);
      ExpandOrig(s);
      assert User(x.orig.value) in x.rq by { ReadyOrig(x, bits, 0); }
      CompleteSeqDrainLog(x, bits, 0);
    }
  }

  lemma ModeOf(s: State)
    requires Sound(s) && Drains(s)
    ensures s.mode != ORDERED_NONE
  {
  }

  lemma StepSafe(s: State, l: Label)
    requires DrainRunInv(s) && Enabled(s, l) && FsBarriersOnly(l)
    ensures DrainRunInv(Apply(s, l))
  {
    hide Structure, Coloring, Drains, Logged, OnceLog, DrainLog, Dispatch, Peek, Complete, Requeue, DrainEvent;
    StepDrains(s, l);
    StepLogged(s, l);
    var log := s.h.log;
    match l
    case LAdd(n, r, where) =>
      AddEvent(s.mode.doPre, log, n, r);
      DrainLogAppend(s.mode.doPre, log, Submitted(n, r.kind == Fs, IsBarrier(r), r.sectors == 0));
    case LDispatch(id, i) =>
      DispatchFields(s, id, i);
    case LPeek =>
      PeekDrainLog(s);
    case LStart(i) =>
      if s.list[i].User? { StartUserEvent(s, i); } else { StartProxyEvent(s, i); }
      DrainLogAppend(s.mode.doPre, log, Issued(s.list[i], ForBarrier(s, s.list[i])));
    case LComplete(id, error) =>
      CompleteDrainLog(s, id, error);
    case LRequeue(id) =>
      RequeueFields(s, id);
      RequeueEvent(s.mode.doPre, log, id);
      DrainLogAppend(s.mode.doPre, log, Requeued(id));
  }

  lemma AddEvent(doPre: bool, log: seq<Event>, n: nat, r: Request)
    ensures DrainEvent(doPre, log, Submitted(n, r.kind == Fs, IsBarrier(r), r.sectors == 0))
  {
  }

  lemma RequeueEvent(doPre: bool, log: seq<Event>, id: Id)
    ensures DrainEvent(doPre, log, Requeued(id))
  {
  }

  lemma DispatchFields(s: State, id: Id, i: nat)
    requires id in s.rq && i <= |s.list|
    ensures Dispatch(s, id, i).h == s.h && Dispatch(s, id, i).mode == s.mode
  {
  }

  // ---------------------------------------------------------------- the assertions of the code

  /** The assertion in `blk_ordered_complete_seq`: a stage to be completed is complete already. */
  predicate DoubleCompletion(s: State, l: Label)
    requires Sound(s) && Enabled(s, l)
  {
    match l
    case LComplete(id, error) =>
      var s1 := Release(s, id, error);
      || (Sound(s1) && Drained(s1) && Overlap(s1.ordseq, SEQ_DRAIN))
      || (!id.User? && (s.orig == None || Overlap(s1.ordseq, StageBit(id)) || (Sound(s1) && Drained(s1))))
    case LPeek =>
      s.ordseq == SEQ_NONE && IsBarrier(s.rq[s.list[0]])
      && Overlap(Expand(s).ordseq, Skipped(Expand(s).ordered, MustWait(Expand(s))))
    case _ => false
  }

  lemma NoDoubleCompletion(s: State, l: Label)
    requires Structure(s) && Sound(s) && Enabled(s, l)
    ensures !DoubleCompletion(s, l)
  {
    hide Structure, EffectiveOrder;
    match l
    case LComplete(id, error) =>
      ReleaseSound(s, id, error);
      if !id.User? { ProxyNotDrained(s, id); }
    case LPeek =>
    case _ =>
  }

  /** The warning in `blk_do_ordered` does not trigger under ordering by draining. */
  lemma InTurnDrain(s: State)
    requires Inv(s)
    ensures !OutOfTurn(s)
  {
    hide Structure, Colors, BarrierQueue, DrainOrder, Turns, EffectiveOrder, DrainMode, Drains;
    if OutOfTurn(s) {
      var id := s.list[0];
      ActiveStarted(s);
      if id.User? {
        assert s.ordseq.drain;
        ListedAfter(s, id);
        ListedEpoch(s, id);
        HeadEpochAt(s);
        ColorsOf(s, id);
        ColorsOf(s, User(s.orig.value));
        ParityNext(s.h.ended);
      } else {
        OnListI(s, id);
        ProxyActive(s, id);
        LateStage(s.ordseq, id);
      }
      assert false;
    }
  }

  lemma HeadEpochAt(s: State)
    requires Inv(s) && s.list != [] && UserFs(s.list[0], s.rq[s.list[0]]) && s.rq[s.list[0]].epoch <= s.h.epoch
    ensures s.rq[s.list[0]].epoch <= Lo(s)
  {
    hide Structure, Colors, BarrierQueue, DrainOrder, Turns, DrainMode;
    HeadEpoch(s.rq, s.list, s.h.ended, Lo(s), s.h.epoch);
  }

  lemma LateStage(o: OrdSeq, id: Id)
    requires !id.User? && Stage(id) < CurSeq(o)
    ensures Bit(o, id)
  {
  }

  /** Ordering by tag only ever drains for barriers without a command, and those only wait for the
      drain, so nothing can be late. */
  lemma InTurnTag(s: State)
    requires Structure(s) && Sound(s) && !DrainMode(s.mode)
    ensures !OutOfTurn(s)
  {
    hide ListOk, Shapes, Accounted;
    if s.orig.Some? && !s.ordered.byTag {
      assert CurSeq(s.ordseq) == DRAIN;
    }
  }

  // ---------------------------------------------------------------- whole runs

  lemma {:induction false} RunAllModes(states: seq<State>, labels: seq<Label>, i: nat)
    requires Run(states, labels) && (forall k :: 0 <= k < |labels| ==> FsBarriersOnly(labels[k])) && i < |states|
    ensures AllModes(states[i]) && states[i].mode == states[0].mode
  {
    hide AllModes, Init, Apply;
    if i == 0 {
      InitAllModes(states[0]);
    } else {
      RunAllModes(states, labels, i - 1);
      assert FsBarriersOnly(labels[i - 1]);
      StepLogged(states[i - 1], labels[i - 1]);
      SameMode(states[i - 1], labels[i - 1]);
    }
  }

  lemma SameMode(s: State, l: Label)
    requires Sound(s) && Enabled(s, l)
    ensures Apply(s, l).mode == s.mode
  {
    hide Peek, Complete, Requeue, Dispatch, Start;
    if !l.LAdd? { StepUsers(s, l); }
  }

  lemma CompleteSeqMode(s: State, bits: OrdSeq, error: int)
    requires s.orig.Some? && User(s.orig.value) in s.rq
    ensures var s' := CompleteSeq(s, bits, error);
            s'.mode == s.mode && (s'.orig.Some? ==> s'.orig == s.orig && User(s.orig.value) in s'.rq)
  {
    hide CurSeq, Or;
  }

  lemma {:induction false} RunDrains(states: seq<State>, labels: seq<Label>, i: nat)
    requires Run(states, labels) && (forall k :: 0 <= k < |labels| ==> FsBarriersOnly(labels[k])) && i < |states|
    requires DrainMode(states[0].mode)
    ensures DrainRunInv(states[i]) && states[i].mode == states[0].mode
  {
    hide DrainRunInv, Apply;
    if i == 0 {
      InitSafe(states[0]);
    } else {
      RunDrains(states, labels, i - 1);
      assert FsBarriersOnly(labels[i - 1]);
      StepSafe(states[i - 1], labels[i - 1]);
      SameMode(states[i - 1], labels[i - 1]);
    }
  }

  lemma InitSafe(s: State)
    requires Init(s) && DrainMode(s.mode)
    ensures DrainRunInv(s)
  {
    InitStructure(s);
    StructureSound(s);
    InitColoring(s);
    InitDrains(s);
    InitAllModes(s);
  }

  // ---------------------------------------------------------------- where no condition is needed

  lemma {:induction false} RunNoEmpty(states: seq<State>, labels: seq<Label>, i: nat)
    requires Run(states, labels) && i < |states| && forall k :: 0 <= k < |labels| ==> !EmptyBarrier(labels[k])
    ensures NoEmpty(states[i])
  {
    hide NoEmpty, Apply, EmptyBarrier;
    if i == 0 {
      InitNoEmpty(states[0]);
    } else {
      RunNoEmpty(states, labels, i - 1);
      StepNoEmpty(states[i - 1], labels[i - 1]);
    }
  }

  lemma InitNoEmpty(s: State)
    requires Init(s)
    ensures NoEmpty(s)
  {
  }

  /** What the code relies on.  Where a sequence may wait for a drain, colours tell requests apart, and
      then hard barriers have to be filesystem requests; the modes that never drain, and ordering by
      tag as long as no barrier is empty, need nothing. */
  ghost predicate Orderly(mode: Ordered, labels: seq<Label>) {
    || NeverDrains(mode)
    || (mode == ORDERED_TAG && forall k :: 0 <= k < |labels| ==> !EmptyBarrier(labels[k]))
    || (forall k :: 0 <= k < |labels| ==> FsBarriersOnly(labels[k]))
  }

  lemma {:induction false} RunSteady(states: seq<State>, labels: seq<Label>, i: nat)
    requires Run(states, labels) && Orderly(states[0].mode, labels) && i < |states|
    ensures Steady(states[i]) && states[i].mode == states[0].mode
  {
    hide Steady, Coloring, Init, Apply, FsBarriersOnly, EmptyBarrier, NoEmpty;
    if forall k :: 0 <= k < |labels| ==> FsBarriersOnly(labels[k]) {
      RunAllModes(states, labels, i);
    } else if i == 0 {
      InitAllModes(states[0]);
    } else {
      var s := states[i - 1];
      RunSteady(states, labels, i - 1);
      if !NeverDrains(s.mode) { RunNoEmpty(states, labels, i - 1); }
      assert TagOnly(s) by { SteadyParts(s); AlwaysTagged(s); }
      StepSteady(s, labels[i - 1]);
      SameMode(s, labels[i - 1]);
    }
  }

  lemma SteadyParts(s: State)
    requires Steady(s)
    ensures Structure(s) && Sound(s) && OnceLog(s.mode, s.h.log)
  {
    hide Structure, Sound, OnceLog;
  }

  // ---------------------------------------------------------------- what has begun goes on or has ended

  /** Every barrier a stage was issued for is in progress or has ended. */
  ghost predicate IssuedFor(s: State) {
    forall ev :: ev in s.h.log && ev.Issued? && ev.forBarrier.Some? ==>
      s.orig == ev.forBarrier || BarrierEnded(s.h.log, ev.forBarrier.value)
  }

  lemma EndedGrows(log: seq<Event>, more: seq<Event>, b: nat)
    requires BarrierEnded(log, b)
    ensures BarrierEnded(log + more, b)
  {
    var e :| Ended(b, e) in log;
    assert Ended(b, e) in log + more;
  }

  /** One more event that issues nothing for another barrier. */
  lemma IssuedForLog(s: State, s': State, ev: Event)
    requires IssuedFor(s) && s'.orig == s.orig && s'.h.log == s.h.log + [ev]
    requires ev.Issued? && ev.forBarrier.Some? ==> s.orig == ev.forBarrier
    ensures IssuedFor(s')
  {
    hide BarrierEnded;
    forall x | x in s'.h.log && x.Issued? && x.forBarrier.Some?
      ensures s'.orig == x.forBarrier || BarrierEnded(s'.h.log, x.forBarrier.value)
    {
      if x in s.h.log && s.orig != x.forBarrier { EndedGrows(s.h.log, [ev], x.forBarrier.value); }
    }
  }

  lemma IssuedForSame(s: State, s': State)
    requires IssuedFor(s) && s'.h.log == s.h.log && (s'.orig == s.orig || s.orig == None)
    ensures IssuedFor(s')
  {
  }

  lemma CompleteSeqIssued(s: State, bits: OrdSeq, error: int)
    requires IssuedFor(s) && s.orig.Some? && User(s.orig.value) in s.rq
    ensures IssuedFor(CompleteSeq(s, bits, error))
  {
    hide BarrierEnded, CurSeq, Or;
    var s' := CompleteSeq(s, bits, error);
    if s'.h.log != s.h.log {
      var ev := s'.h.log[|s.h.log|];
      forall x | x in s'.h.log && x.Issued? && x.forBarrier.Some?
        ensures s'.orig == x.forBarrier || BarrierEnded(s'.h.log, x.forBarrier.value)
      {
        if s.orig == x.forBarrier {
          JustEnded(s.h.log, s.orig.value, ev.error);
        } else {
          EndedGrows(s.h.log, [ev], x.forBarrier.value);
        }
      }
    }
  }

  lemma JustEnded(log: seq<Event>, b: nat, e: int)
    ensures BarrierEnded(log + [Ended(b, e)], b)
  {
    assert Ended(b, e) in log + [Ended(b, e)];
  }

  lemma CompleteIssued(s: State, id: Id, error: int)
    requires IssuedFor(s) && Sound(s) && id in s.rq
    ensures IssuedFor(Complete(s, id, error))
  {
    hide IssuedFor, CompleteSeq, Drained;
    var s1 := Release(s, id, error);
    ReleaseSound(s, id, error);
    IssuedForLog(s, s1, Completed(id, ForBarrier(s, id), error));
    var s2 := ElvCompleted(s, id, error);
    if Drained(s1) {
      DrainedOrig(s1);
      CompleteSeqIssued(s1, SEQ_DRAIN, 0);
      CompleteSeqMode(s1, SEQ_DRAIN, 0);
    }
    if !id.User? && s2.orig.Some? {
      var s3 := s2.(h := s2.h.(errs := s2.h.errs + [error]));
      IssuedForSame(s2, s3);
      CompleteSeqIssued(s3, StageBit(id), error);
    }
  }

  lemma PeekIssued(s: State)
    requires IssuedFor(s) && Sound(s) && s.list != []
    ensures IssuedFor(Peek(s))
  {
    hide IssuedFor, CompleteSeq, Expand, Refuse, ReqSeq, CurSeq;
    var (t, v) := DoOrdered(s);
    HeadFacts(s);
    if s.ordseq == SEQ_NONE && IsBarrier(s.rq[s.list[0]]) {
      if s.mode != ORDERED_NONE {
        var x := Expand(s);
        ExpandOrig(s);
        ExpandLog(s);
        IssuedForSame(s, x);
        CompleteSeqIssued(x, Skipped(x.ordered, MustWait(x)), 0);
      } else {
        RefuseIssued(s);
      }
    }
    if v == Issue && t.list != [] && t.list[0] in t.rq { IssuedForSame(t, MarkHead(t)); }
  }

  lemma ExpandLog(s: State)
    requires Sound(s) && s.list != [] && s.list[0].User?
    ensures Expand(s).h.log == s.h.log && s.list[0] in Expand(s).rq
  {
  }

  lemma RefuseIssued(s: State)
    requires IssuedFor(s) && Sound(s) && s.list != [] && s.list[0].User?
    ensures IssuedFor(Refuse(s))
  {
    IssuedForLog(s, Refuse(s), Ended(s.list[0].n, EOPNOTSUPP));
  }

  lemma StepIssued(s: State, l: Label)
    requires IssuedFor(s) && Sound(s) && Enabled(s, l)
    ensures IssuedFor(Apply(s, l))
  {
    hide IssuedFor, Peek, Complete;
    match l
    case LAdd(n, r, where) =>
      IssuedForLog(s, Add(s, n, r, where), Submitted(n, r.kind == Fs, IsBarrier(r), r.sectors == 0));
    case LDispatch(id, i) => IssuedForSame(s, Dispatch(s, id, i));
    case LPeek => PeekIssued(s);
    case LStart(i) => IssuedForLog(s, Start(s, i), Issued(s.list[i], ForBarrier(s, s.list[i])));
    case LComplete(id, error) => CompleteIssued(s, id, error);
    case LRequeue(id) => IssuedForLog(s, Requeue(s, id), Requeued(id));
  }

  lemma {:induction false} RunIssued(states: seq<State>, labels: seq<Label>, i: nat)
    requires Run(states, labels) && i < |states|
    ensures IssuedFor(states[i])
  {
    hide Apply;
    if i > 0 {
      RunIssued(states, labels, i - 1);
      StepIssued(states[i - 1], labels[i - 1]);
    }
  }

  /** In every run, in every ordering mode, under what the code relies on there: a barrier is not
      issued itself, only through its stages; each stage completes at most once, the barrier ends at
      most once, after all its stages and with the first error they reported; a barrier a stage was
      issued for is in progress or has ended; the double-completion assertion and the out-of-turn
      warning never trigger; the sequence mask is zero exactly while no barrier is in progress; and a
      barrier in progress has a stage left to complete, so it ends with the step that completes the
      last one. */
  lemma BarrierSequences(states: seq<State>, labels: seq<Label>, i: nat)
    requires Run(states, labels) && Orderly(states[0].mode, labels) && i < |states|
    ensures Sound(states[i]) && (states[i].ordseq == SEQ_NONE <==> states[i].orig == None)
    ensures states[i].orig.Some? ==> states[i].ordseq.started && CurSeq(states[i].ordseq) < DONE
    ensures OnceLog(states[0].mode, states[i].h.log) && IssuedFor(states[i])
    ensures !OutOfTurn(states[i])
    ensures i < |labels| ==> !DoubleCompletion(states[i], labels[i])
  {
    RunIssued(states, labels, i);
    hide IssuedFor, Steady, Structure, OnceLog, DrainMode, OutOfTurn, DoubleCompletion, FsBarriersOnly, EmptyBarrier;
    RunSteady(states, labels, i);
    SteadyParts(states[i]);
    StageLeft(states[i]);
    if DrainMode(states[0].mode) {
      assert forall k :: 0 <= k < |labels| ==> FsBarriersOnly(labels[k]) by {
        DrainsNeedColors(states[0].mode, labels);
      }
      RunDrains(states, labels, i);
      InTurnDrain(states[i]);
    } else {
      InTurnTag(states[i]);
    }
    if i < |labels| {
      NoDoubleCompletion(states[i], labels[i]);
    }
  }

  lemma DrainsNeedColors(mode: Ordered, labels: seq<Label>)
    requires DrainMode(mode) && Orderly(mode, labels)
    ensures forall k :: 0 <= k < |labels| ==> FsBarriersOnly(labels[k])
  {
    hide FsBarriersOnly, EmptyBarrier;
  }

  lemma StageLeft(s: State)
    requires Structure(s)
    ensures s.orig.Some? ==> s.ordseq.started && CurSeq(s.ordseq) < DONE
  {
  }

  /** In every run under ordering by draining: a filesystem request submitted before a barrier
      completes before any stage of the barrier is issued and before the barrier ends. */
  lemma EarlierRequestsFirst(states: seq<State>, labels: seq<Label>, t: nat, r: nat, b: nat, i: nat, j: nat, k: nat)
    requires Run(states, labels) && (forall m :: 0 <= m < |labels| ==> FsBarriersOnly(labels[m])) && t < |states|
    requires DrainMode(states[0].mode)
    requires var log := states[t].h.log;
             && i < j < k < |log|
             && log[i].Submitted? && log[i].n == r && log[i].fs && !log[i].barrier
             && log[j].Submitted? && log[j].n == b && log[j].barrier
             && ((log[k].Ended? && log[k].n == b)
                 || (log[k].Issued? && !log[k].id.User? && log[k].forBarrier == Some(b)))
    ensures exists m, e :: 0 <= m < k && states[t].h.log[m] == Completed(User(r), None, e)
  {
    RunDrainLog(states, labels, t);
    var log := states[t].h.log;
    assert DrainEvent(states[0].mode.doPre, log[..k], log[k]);
    assert log[..k][i] == log[i] && log[..k][j] == log[j];
    assert Finished(log[..k], r, false);
    var e :| Completed(User(r), None, e) in log[..k];
    var m :| 0 <= m < k && log[..k][m] == Completed(User(r), None, e);
    assert log[m] == Completed(User(r), None, e);
  }

  /** ... and a filesystem request submitted after a barrier is not issued until the barrier has
      ended, however colours are reused and requests are requeued. */
  lemma LaterRequestsWait(states: seq<State>, labels: seq<Label>, t: nat, r: nat, b: nat, i: nat, j: nat, k: nat)
    requires Run(states, labels) && (forall m :: 0 <= m < |labels| ==> FsBarriersOnly(labels[m])) && t < |states|
    requires DrainMode(states[0].mode)
    requires var log := states[t].h.log;
             && i < j < k < |log|
             && log[i].Submitted? && log[i].n == b && log[i].barrier
             && log[j].Submitted? && log[j].n == r && log[j].fs
             && log[k].Issued? && log[k].id == User(r)
    ensures exists m, e :: 0 <= m < k && states[t].h.log[m] == Ended(b, e)
  {
    RunDrainLog(states, labels, t);
    var log := states[t].h.log;
    assert DrainEvent(states[0].mode.doPre, log[..k], log[k]);
    assert log[..k][i] == log[i] && log[..k][j] == log[j];
    assert BarrierEnded(log[..k], b);
    var e :| Ended(b, e) in log[..k];
    var m :| 0 <= m < k && log[..k][m] == Ended(b, e);
    assert log[m] == Ended(b, e);
  }

  /** ... and the stages of a barrier are issued strictly one after another's completion. */
  lemma StagesInOrder(states: seq<State>, labels: seq<Label>, t: nat, b: nat, k: nat)
    requires Run(states, labels) && (forall m :: 0 <= m < |labels| ==> FsBarriersOnly(labels[m])) && t < |states|
    requires DrainMode(states[0].mode)
    requires var log := states[t].h.log; k < |log| && log[k].Issued? && log[k].forBarrier == Some(b)
    ensures states[t].h.log[k].id == Bar && states[0].mode.doPre ==>
              exists m, e :: 0 <= m < k && states[t].h.log[m] == Completed(Pre, Some(b), e)
    ensures states[t].h.log[k].id == Post ==>
              exists m, e :: 0 <= m < k && states[t].h.log[m] == Completed(Bar, Some(b), e)
  {
    RunDrainLog(states, labels, t);
    var log := states[t].h.log;
    assert DrainEvent(states[0].mode.doPre, log[..k], log[k]);
    if log[k].id == Bar && states[0].mode.doPre {
      StageBefore(log, k, Pre, b);
    }
    if log[k].id == Post {
      StageBefore(log, k, Bar, b);
    }
  }

  lemma StageBefore(log: seq<Event>, k: nat, id: Id, b: nat)
    requires k <= |log| && StageCompleted(log[..k], id, b)
    ensures exists m, e :: 0 <= m < k && log[m] == Completed(id, Some(b), e)
  {
    var e :| Completed(id, Some(b), e) in log[..k];
    var m :| 0 <= m < k && log[..k][m] == Completed(id, Some(b), e);
    assert log[m] == Completed(id, Some(b), e);
  }

  lemma RunDrainLog(states: seq<State>, labels: seq<Label>, t: nat)
    requires Run(states, labels) && (forall k :: 0 <= k < |labels| ==> FsBarriersOnly(labels[k])) && t < |states|
    requires DrainMode(states[0].mode)
    ensures DrainLog(states[0].mode.doPre, states[t].h.log)
  {
    hide Inv, AllModes, DrainLog, Run, FsBarriersOnly;
    RunDrains(states, labels, t);
  }
}
