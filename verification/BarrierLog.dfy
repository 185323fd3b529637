/** The event log of a run, and what it may contain.  Everything here speaks about the log alone:
    who was submitted before whom, what was issued, completed and ended, and in which order. */
module BarrierLog {
  import opened Options
  import opened BarrierModel
  import opened BarrierStructure

  ghost predicate BarrierEnded(past: seq<Event>, n: nat) { exists e :: Ended(n, e) in past }

  ghost predicate RequestCompleted(past: seq<Event>, n: nat) { exists e :: Completed(User(n), None, e) in past }

  ghost predicate StageCompleted(past: seq<Event>, id: Id, b: nat) { exists e :: Completed(id, Some(b), e) in past }

  ghost predicate Finished(past: seq<Event>, n: nat, barrier: bool) {
    if barrier then BarrierEnded(past, n) else RequestCompleted(past, n)
  }

  /** Every filesystem request and barrier submitted before barrier `b` has finished. */
  ghost predicate EarlierFinished(past: seq<Event>, b: nat) {
    forall j, k | 0 <= j < k < |past| && past[j].Submitted? && past[j].fs && past[k].Submitted? && past[k].n == b ::
      Finished(past, past[j].n, past[j].barrier)
  }

  /** Every barrier submitted before request `n` has ended. */
  ghost predicate BarriersPassed(past: seq<Event>, n: nat) {
    forall j, k | 0 <= j < k < |past| && past[j].Submitted? && past[j].barrier && past[k].Submitted?
        && past[k].n == n ::
      BarrierEnded(past, past[j].n)
  }

  ghost predicate IsFsRequest(past: seq<Event>, n: nat) {
    exists k :: 0 <= k < |past| && past[k].Submitted? && past[k].n == n && past[k].fs
  }

  /** The errors the stages of barrier `b` reported, in order. */
  function StageErrors(log: seq<Event>, b: nat): seq<int> {
    if log == [] then []
    else
      var last := log[|log| - 1];
      StageErrors(log[..|log| - 1], b)
      + (if last.Completed? && !last.id.User? && last.forBarrier == Some(b) then [last.err] else [])
  }

  /** Ordering by draining: what may be issued or ended after `past`. */
  ghost predicate DrainEvent(doPre: bool, past: seq<Event>, ev: Event) {
    match ev
    case Issued(User(n), _) => IsFsRequest(past, n) ==> BarriersPassed(past, n)
    case Issued(id, Some(b)) =>
      && EarlierFinished(past, b)
      && (id == Bar && doPre ==> StageCompleted(past, Pre, b))
      && (id == Post ==> StageCompleted(past, Bar, b))
    case Issued(_, None) => false
    case Ended(b, _) => EarlierFinished(past, b)
    case _ => true
  }

  /** `n` was submitted as a barrier. */
  ghost predicate AsBarrier(past: seq<Event>, n: nat) {
    exists k :: 0 <= k < |past| && past[k].Submitted? && past[k].n == n && past[k].barrier
  }

  /** Any mode: a barrier is not issued itself; each of its stages completes once, then it ends once,
      with the first error. */
  ghost predicate OnceEvent(mode: Ordered, past: seq<Event>, ev: Event) {
    match ev
    case Issued(User(n), _) => !AsBarrier(past, n)
    case Completed(id, Some(b), _) => !id.User? && !StageCompleted(past, id, b) && !BarrierEnded(past, b)
    case Ended(b, e) =>
      && !BarrierEnded(past, b)
      && (mode == ORDERED_NONE ==> e == EOPNOTSUPP)
      && (mode != ORDERED_NONE ==>
            && e == FirstError(StageErrors(past, b))
            && exists empty :: Submitted(b, true, true, empty) in past
                 && forall id: Id :: Wanted(EffectiveOrder(mode, empty), id) ==> StageCompleted(past, id, b))
    case _ => true
  }

  ghost predicate DrainLog(doPre: bool, log: seq<Event>) {
    forall i :: 0 <= i < |log| ==> DrainEvent(doPre, log[..i], log[i])
  }

  ghost predicate OnceLog(mode: Ordered, log: seq<Event>) {
    forall i :: 0 <= i < |log| ==> OnceEvent(mode, log[..i], log[i])
  }

  lemma DrainLogAppend(doPre: bool, log: seq<Event>, ev: Event)
    requires DrainLog(doPre, log) && DrainEvent(doPre, log, ev)
    ensures DrainLog(doPre, log + [ev])
  {
    hide DrainEvent;
    var l := log + [ev];
    forall i | 0 <= i < |l| ensures DrainEvent(doPre, l[..i], l[i]) {
      assert l[..i] == log[..i];
      if i == |log| { assert log[..i] == log; }
    }
  }

  lemma OnceLogAppend(mode: Ordered, log: seq<Event>, ev: Event)
    requires OnceLog(mode, log) && OnceEvent(mode, log, ev)
    ensures OnceLog(mode, log + [ev])
  {
    hide OnceEvent;
    var l := log + [ev];
    forall i | 0 <= i < |l| ensures OnceEvent(mode, l[..i], l[i]) {
      assert l[..i] == log[..i];
      if i == |log| { assert log[..i] == log; }
    }
  }

  lemma StageErrorsAppend(log: seq<Event>, ev: Event, b: nat)
    ensures StageErrors(log + [ev], b)
         == StageErrors(log, b) + (if ev.Completed? && !ev.id.User? && ev.forBarrier == Some(b) then [ev.err] else [])
  {
    assert (log + [ev])[..|log|] == log;
  }

  lemma StageErrorsEmpty(log: seq<Event>, b: nat)
    requires forall ev :: ev in log && ev.Completed? && !ev.id.User? ==> ev.forBarrier != Some(b)
    ensures StageErrors(log, b) == []
  {
    if log != [] {
      assert log[|log| - 1] in log;
      StageErrorsEmpty(log[..|log| - 1], b);
    }
  }

  // ---------------------------------------------------------------- the log agrees with the state

  ghost predicate SubmitLog(rq: Requests, log: seq<Event>) {
    && (forall id :: id in rq && id.User? ==>
          Submitted(id.n, rq[id].kind == Fs, IsBarrier(rq[id]), rq[id].sectors == 0) in log)
    && (forall ev :: ev in log && ev.Submitted? ==>
          User(ev.n) in rq && ev.fs == (rq[User(ev.n)].kind == Fs) && ev.barrier == IsBarrier(rq[User(ev.n)]))
    && (forall j, k :: 0 <= j < k < |log| && log[j].Submitted? && log[k].Submitted? ==>
          && log[j].n != log[k].n && User(log[j].n) in rq && User(log[k].n) in rq
          && rq[User(log[j].n)].epoch <= rq[User(log[k].n)].epoch
          && (log[j].barrier ==> rq[User(log[j].n)].epoch < rq[User(log[k].n)].epoch))
  }

  ghost predicate FinishLog(rq: Requests, log: seq<Event>) {
    && (forall id :: id in rq && id.User? && rq[id].place == Free ==> Finished(log, id.n, IsBarrier(rq[id])))
    && (forall ev :: ev in log && ev.Ended? ==> User(ev.n) in rq && rq[User(ev.n)].place == Free)
  }

  ghost predicate StageLog(rq: Requests, log: seq<Event>, orig: Option<nat>, o: OrdSeq, ordered: Ordered,
                           errs: seq<int>)
  {
    && (orig.Some? ==> errs == StageErrors(log, orig.value))
    && (orig.Some? ==> forall id: Id :: Wanted(ordered, id) && Bit(o, id) ==> StageCompleted(log, id, orig.value))
    && (forall ev :: ev in log && ev.Completed? && ev.forBarrier.Some? ==>
          !ev.id.User? && User(ev.forBarrier.value) in rq
          && (rq[User(ev.forBarrier.value)].place == Free || (orig == ev.forBarrier && Bit(o, ev.id))))
  }

  ghost predicate Logged(s: State) {
    && SubmitLog(s.rq, s.h.log)
    && FinishLog(s.rq, s.h.log)
    && StageLog(s.rq, s.h.log, s.orig, s.ordseq, s.ordered, s.h.errs)
  }

  predicate SameSubmission(r: Request, r': Request) {
    r'.kind == r.kind && r'.hard == r.hard && r'.epoch == r.epoch && r'.sectors == r.sectors
  }

  /** Nothing that was submitted changes. */
  ghost predicate SameUsers(rq: Requests, rq': Requests) {
    (forall id :: id in rq' && id.User? <==> id in rq && id.User?)
    && forall id :: id in rq && id.User? ==> id in rq' && SameSubmission(rq[id], rq'[id])
  }

  lemma SubmitLogKeep(rq: Requests, rq': Requests, log: seq<Event>, ev: Event)
    requires SubmitLog(rq, log) && !ev.Submitted? && SameUsers(rq, rq')
    ensures SubmitLog(rq', log + [ev])
  {
    var l := log + [ev];
    assert forall x :: x in l <==> x in log || x == ev;
    forall j, k | 0 <= j < k < |l| && l[j].Submitted? && l[k].Submitted?
      ensures l[j].n != l[k].n && User(l[j].n) in rq' && User(l[k].n) in rq'
              && rq'[User(l[j].n)].epoch <= rq'[User(l[k].n)].epoch
              && (l[j].barrier ==> rq'[User(l[j].n)].epoch < rq'[User(l[k].n)].epoch)
    {
      assert l[j] == log[j] && l[k] == log[k];
    }
  }

  lemma SubmitLogSame(rq: Requests, rq': Requests, log: seq<Event>)
    requires SubmitLog(rq, log) && SameUsers(rq, rq')
    ensures SubmitLog(rq', log)
  {
  }

  lemma SubmitLogAdd(rq: Requests, log: seq<Event>, n: nat, r: Request, hepoch: nat)
    requires SubmitLog(rq, log) && User(n) !in rq
    requires forall id :: id in rq && id.User? ==>
               rq[id].epoch <= hepoch && (IsBarrier(rq[id]) ==> rq[id].epoch < hepoch)
    requires r.epoch == hepoch
    ensures SubmitLog(rq[User(n) := r], log + [Submitted(n, r.kind == Fs, IsBarrier(r), r.sectors == 0)])
  {
    var ev := Submitted(n, r.kind == Fs, IsBarrier(r), r.sectors == 0);
    var rq' := rq[User(n) := r];
    var l := log + [ev];
    assert forall x :: x in l <==> x in log || x == ev;
    forall j, k | 0 <= j < k < |l| && l[j].Submitted? && l[k].Submitted?
      ensures l[j].n != l[k].n && User(l[j].n) in rq' && User(l[k].n) in rq'
              && rq'[User(l[j].n)].epoch <= rq'[User(l[k].n)].epoch
              && (l[j].barrier ==> rq'[User(l[j].n)].epoch < rq'[User(l[k].n)].epoch)
    {
      assert l[j] == log[j] && log[j] in log;
      if k < |log| { assert l[k] == log[k] && log[k] in log; }
    }
  }

  lemma FinishedAppend(log: seq<Event>, ev: Event, n: nat, barrier: bool)
    requires Finished(log, n, barrier)
    ensures Finished(log + [ev], n, barrier)
  {
    if barrier {
      var e :| Ended(n, e) in log;
      assert Ended(n, e) in log + [ev];
    } else {
      var e :| Completed(User(n), None, e) in log;
      assert Completed(User(n), None, e) in log + [ev];
    }
  }

  /** One request changes owner; if it becomes free, the event says so. */
  lemma FinishLogUpdate(rq: Requests, log: seq<Event>, ev: Event, id: Id, r: Request)
    requires FinishLog(rq, log)
    requires ev.Ended? ==> id == User(ev.n) && r.place == Free
    requires id.User? && r.place == Free ==> Finished(log + [ev], id.n, IsBarrier(r))
    requires id in rq && id.User? && rq[id].place == Free ==> r.place == Free
    ensures FinishLog(rq[id := r], log + [ev])
  {
    var rq', l := rq[id := r], log + [ev];
    forall x | x in rq' && x.User? && rq'[x].place == Free ensures Finished(l, x.n, IsBarrier(rq'[x])) {
      if x != id { FinishedAppend(log, ev, x.n, IsBarrier(rq[x])); }
    }
    assert forall x :: x in l <==> x in log || x == ev;
  }

  lemma StageCompletedAppend(log: seq<Event>, ev: Event, id: Id, b: nat)
    requires StageCompleted(log, id, b)
    ensures StageCompleted(log + [ev], id, b)
  {
    var e :| Completed(id, Some(b), e) in log;
    assert Completed(id, Some(b), e) in log + [ev];
  }

  /** An event that concerns no stage. */
  lemma StageLogKeep(rq: Requests, log: seq<Event>, orig: Option<nat>, o: OrdSeq, ordered: Ordered, errs: seq<int>,
                     ev: Event, id: Id, r: Request)
    requires StageLog(rq, log, orig, o, ordered, errs)
    requires ev.Completed? ==> ev.forBarrier == None
    requires id in rq && rq[id].place == Free ==> !id.User? || r.place == Free
    ensures StageLog(rq[id := r], log + [ev], orig, o, ordered, errs)
  {
    var l := log + [ev];
    assert forall x :: x in l <==> x in log || x == ev;
    if orig.Some? {
      StageErrorsAppend(log, ev, orig.value);
      forall x: Id | Wanted(ordered, x) && Bit(o, x) ensures StageCompleted(l, x, orig.value) {
        StageCompletedAppend(log, ev, x, orig.value);
      }
    }
  }
}
