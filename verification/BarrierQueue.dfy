/** The request queue as an object updated in place, method by method, proved to take the steps of
    the protocol. */
module BarrierQueue {
  import opened Options
  import opened BarrierModel
  import opened BarrierStructure
  import opened BarrierColors

  /** The one-way elevator order that starts at `boundary` and wraps around. */
  predicate Precedes(boundary: nat, a: nat, b: nat) {
    if (a < boundary) == (b < boundary) then a < b else boundary <= a
  }

  /** `elv_dispatch_sort` moves `r` in front of `x`. */
  predicate Passes(boundary: nat, r: Request, x: Request) {
    x.discard == r.discard && x.write == r.write && !Stops(x) && Precedes(boundary, r.pos, x.pos)
  }

  /** A series of protocol steps. */
  ghost predicate Steps(s: State, labels: seq<Label>, t: State)
    decreases |labels|
  {
    if labels == [] then s == t
    else Sound(s) && Enabled(s, labels[0]) && Steps(Apply(s, labels[0]), labels[1..], t)
  }

  lemma {:induction false} StepsAppend(s: State, labels: seq<Label>, t: State, l: Label)
    requires Steps(s, labels, t) && Sound(t) && Enabled(t, l)
    ensures Steps(s, labels + [l], Apply(t, l))
    decreases |labels|
  {
    hide Sound, Enabled, Apply;
    if labels == [] {
      assert (labels + [l])[1..] == [];
    } else {
      assert (labels + [l])[1..] == labels[1..] + [l];
      StepsAppend(Apply(s, labels[0]), labels[1..], t, l);
    }
  }

  /** What every run keeps, in every mode. */
  ghost predicate Good(s: State) { Structure(s) && Sound(s) && Coloring(s) }

  ghost function Waiting(rq: map<Id, Request>): set<Id> { set id | id in rq && rq[id].place == Sched }

  lemma DispatchShrinks(rq: map<Id, Request>, id: Id, r: Request)
    requires id in rq && rq[id].place == Sched && r.place == Listed
    ensures |Waiting(rq[id := r])| < |Waiting(rq)|
  {
    assert Waiting(rq[id := r]) == Waiting(rq) - {id};
  }

  class RequestQueue {
    const mode: Ordered
    const scrub: bool
    const flushKind: Kind
    var rq: map<Id, Request>
    var list: seq<Id>
    var inFlight: int
    var ordcolor: bool
    var ordseq: OrdSeq
    var ordered: Ordered
    var orderr: int
    var orig: Option<nat>
    var endSector: nat
    var h: History   // record of what happened; no branch reads it

    constructor (mode: Ordered, scrub: bool, flushKind: Kind)
      requires ValidMode(mode) && flushKind != Fs
      ensures Init(View())
    {
      this.mode, this.scrub, this.flushKind := mode, scrub, flushKind;
      rq := map[Pre := FlushRequest(flushKind, Free), Bar := FlushRequest(Fs, Free),
                Post := FlushRequest(flushKind, Free)];
      list, inFlight, ordcolor, ordseq, ordered := [], 0, false, SEQ_NONE, ORDERED_NONE;
      orderr, orig, endSector := 0, None, 0;
      h := History(0, 0, [], []);
    }

    ghost function View(): State
      reads this
    {
      State(mode, scrub, flushKind, rq, list, inFlight, ordcolor, ordseq, ordered, orderr, orig, h)
    }

    /** `elv_dispatch_sort`: scan from the tail for the last request that must stay in front. */
    method DispatchSort(id: Id) returns (i: nat)
      requires Sound(View()) && id in rq && rq[id].place == Sched
      modifies this
      ensures i <= |old(list)|
      ensures forall k :: i <= k < |old(list)| ==> Passes(old(endSector), old(rq)[id], old(rq)[old(list)[k]])
      ensures i > 0 ==> !Passes(old(endSector), old(rq)[id], old(rq)[old(list)[i - 1]])
      ensures old(Enabled(View(), LDispatch(id, i))) && View() == old(Apply(View(), LDispatch(id, i)))
      ensures endSector == old(endSector)
    {
      var boundary := endSector;
      var r := rq[id];
      i := |list|;
      while i > 0
        invariant i <= |list|
        invariant forall k :: i <= k < |list| ==> Passes(boundary, r, rq[list[k]])
      {
        var pos := rq[list[i - 1]];
        if pos.discard != r.discard { break; }
        if pos.write != r.write { break; }
        if Stops(pos) { break; }
        if r.pos >= boundary {
          if pos.pos < boundary {
            i := i - 1;
            continue;
          }
        } else {
          if pos.pos >= boundary { break; }
        }
        if r.pos >= pos.pos { break; }
        i := i - 1;
      }
      rq := rq[id := r.(place := Listed)];
      list := Insert(list, i, id);
    }

    /** `elv_dispatch_add_tail` */
    method DispatchTail(id: Id)
      requires Sound(View()) && id in rq && rq[id].place == Sched
      modifies this
      ensures old(Enabled(View(), LDispatch(id, |list|))) && View() == old(Apply(View(), LDispatch(id, |list|)))
      ensures endSector == old(rq)[id].pos + old(rq)[id].sectors
    {
      endSector := rq[id].pos + rq[id].sectors;
      rq := rq[id := rq[id].(place := Listed)];
      list := list + [id];
      assert old(Insert(list, |list|, id)) == list;
    }

    /** `elv_insert` for a requeued request. */
    method RequeueRequest(id: Id)
      requires Sound(View()) && Enabled(View(), LRequeue(id))
      modifies this
      ensures View() == old(Requeue(View(), id)) && endSector == old(endSector)
    {
      hide RequeueSpot, ReqSeq, Weight, Insert;
      var r := rq[id].(started := false, soft := true, place := Listed);
      inFlight := inFlight - Weight(scrub, rq[id]);
      var i := 0;
      if ordseq != SEQ_NONE {
        i := FindSpot(rq[User(orig.value)].color, ReqSeq(rq[User(orig.value)].color, id, r));
      }
      rq := rq[id := r];
      list := Insert(list, i, id);
      h := h.(log := h.log + [Requeued(id)]);
    }

    /** The scan for the place of a requeued request in an ordered sequence. */
    method FindSpot(color: bool, turn: nat) returns (i: nat)
      requires forall id :: id in list ==> id in rq
      ensures i == RequeueSpot(rq, list, color, turn)
    {
      hide ReqSeq, RequeueSpot;
      i := 0;
      while i < |list| && ReqSeq(color, list[i], rq[list[i]]) < turn
        invariant i <= |list|
        invariant forall k :: 0 <= k < i ==> ReqSeq(color, list[k], rq[list[k]]) < turn
      {
        i := i + 1;
      }
      FirstSpot(rq, list, color, turn, i);
    }

    /** `elv_drain_elevator`: forced dispatch, in whatever order and by whichever of the two
        insertion functions the scheduler likes. */
    method DrainElevator() returns (ghost labels: seq<Label>)
      requires Good(View())
      modifies this
      ensures Good(View()) && Steps(old(View()), labels, View())
      ensures forall id :: id in rq ==> rq[id].place != Sched
      ensures rq.Keys == old(rq.Keys)
    {
      hide Structure, Coloring, Enabled, Apply;
      labels := [];
      while exists id :: id in rq && rq[id].place == Sched
        invariant Good(View()) && Steps(old(View()), labels, View())
        invariant rq.Keys == old(rq.Keys)
        decreases |Waiting(rq)|
      {
        var id :| id in rq && rq[id].place == Sched;
        ghost var s := View();
        DispatchShrinks(rq, id, rq[id].(place := Listed));
        var i := |list|;
        if * {
          i := DispatchSort(id);
        } else {
          DispatchTail(id);
        }
        StepAllModes(s, LDispatch(id, i));
        StepsAppend(old(View()), labels, s, LDispatch(id, i));
        labels := labels + [LDispatch(id, i)];
        assert rq == s.rq[id := s.rq[id].(place := Listed)] by { DispatchRq(s, id, i); }
      }
    }

    /** Colour the request, toggle the queue colour for a hard barrier, and insert. */
    method InsertNew(n: nat, r: Request, ghost where: Where, place: Where)
      requires place == Placement(r, where)
      modifies this
      ensures View() == old(Add(View(), n, r, where)) && endSector == old(endSector)
    {
      hide Placement;
      var r1 := ColorRequest(r, place);
      hide Entered, Joined;
      LinkNew(User(n), place);
      rq := rq[User(n) := r1];
      ToggleColor(r.hard);
      h := h.(epoch := h.epoch + (if IsBarrier(r) then 1 else 0),
              log := h.log + [Submitted(n, r.kind == Fs, IsBarrier(r), r.sectors == 0)]);
    }

    method ColorRequest(r: Request, place: Where) returns (r1: Request)
      ensures r1 == Entered(View(), r, place)
    {
      r1 := r.(color := ordcolor, started := false, epoch := h.epoch);
      if place == AtFront || place == AtBack {
        r1 := r1.(soft := true, place := Listed);
      } else {
        r1 := r1.(place := Sched);
      }
    }

    method ToggleColor(hard: bool)
      modifies this`ordcolor
      ensures ordcolor == (old(ordcolor) != hard)
    {
      if hard { ordcolor := !ordcolor; }
    }

    method LinkNew(id: Id, place: Where)
      modifies this`list
      ensures list == Joined(old(list), id, place)
    {
      if place == AtFront {
        list := [id] + list;
      } else if place == AtBack {
        list := list + [id];
      }
    }

    /** `__elv_add_request` */
    method AddRequest(n: nat, r: Request, where: Where) returns (ghost labels: seq<Label>)
      requires Good(View()) && User(n) !in rq
      requires r.kind == Fs ==> where == AtBack || where == InSort
      requires where == InSort ==> r.kind == Fs
      requires where == InVerify ==> scrub && r.kind == Pc
      modifies this
      ensures Structure(View()) && Sound(View()) && (FsBarriersOnly(LAdd(n, r, where)) ==> Good(View()))
      ensures Steps(old(View()), labels + [LAdd(n, r, where)], View())
    {
      hide Structure, Coloring, Enabled, Apply, Add;
      labels := [];
      if (r.soft || r.hard) && (r.kind == Fs || r.discard) {
        endSector := r.pos + r.sectors;
      }
      var place := if where == InSort && (r.soft || r.hard || !r.elvpriv) then AtBack else where;
      if place == AtBack {
        labels := DrainElevator();
      }
      ghost var s := View();
      AddLabel(s, n, r, where);
      InsertNew(n, r, where, place);
      AddStructure(s, n, r, where);
      StructureSound(Add(s, n, r, where));
      if FsBarriersOnly(LAdd(n, r, where)) { StepAllModes(s, LAdd(n, r, where)); }
      StepsAppend(old(View()), labels, s, LAdd(n, r, where));
    }

    /** `blk_ordered_complete_seq` */
    method CompleteStages(bits: OrdSeq, error: int) returns (finished: bool)
      requires Sound(View()) && orig.Some?
      modifies this
      ensures View() == old(CompleteSeq(View(), bits, error)) && endSector == old(endSector)
      ensures finished == (CurSeq(old(Or(ordseq, bits))) == DONE)
    {
      if error != 0 && orderr == 0 { orderr := error; }
      ordseq := Or(ordseq, bits);
      if CurSeq(ordseq) != DONE { return false; }
      ordseq := SEQ_NONE;
      var n := orig.value;
      orig := None;
      rq := rq[User(n) := rq[User(n)].(place := Free)];
      h := h.(ended := h.ended + 1, log := h.log + [Ended(n, orderr)]);
      finished := true;
    }

    /** An empty barrier has no body and no post-flush, and without a command to carry an ordered
        tag it is drained instead. */
    method ChooseOrder(empty: bool)
      modifies this`ordered
      ensures ordered == EffectiveOrder(mode, empty)
    {
      ordered := mode;
      if empty {
        ordered := ordered.(doBar := false, doPost := false);
        if ordered.byTag && !ordered.doPre {
          ordered := ordered.(byTag := false, byDrain := true);
        }
      }
    }

    /** The head barrier is stashed and its proxies stacked in front, in reverse order. */
    method ExpandBarrier()
      requires Sound(View()) && list != [] && list[0].User? && ordseq == SEQ_NONE
      modifies this
      ensures View() == old(Expand(View())) && endSector == old(endSector)
    {
      hide EffectiveOrder, Front, FlushRequest, BodyRequest, InUse, Weight;
      var n := list[0].n;
      var b := rq[User(n)];
      StashHead(n, b);
      ChooseOrder(b.sectors == 0);
      PlaceProxies(b);
    }

    /** The barrier leaves the list but counts as started. */
    method StashHead(n: nat, b: Request)
      requires list != [] && ordseq == SEQ_NONE
      modifies this
      ensures View() == old(View()).(orderr := 0, ordseq := old(ordseq).(started := true), orig := Some(n),
                                     list := old(list)[1..], inFlight := old(inFlight) + Weight(scrub, b),
                                     rq := old(rq)[User(n) := b.(place := Stashed)], h := old(h).(errs := []))
      ensures endSector == old(endSector)
    {
      hide Weight;
      orderr := 0;
      ordseq := ordseq.(started := true);
      list := list[1..];
      inFlight := inFlight + Weight(scrub, b);
      rq := rq[User(n) := b.(place := Stashed)];
      orig := Some(n);
      h := h.(errs := []);
    }

    method PlaceProxies(b: Request)
      modifies this`rq, this`list
      ensures rq == old(rq)[Post := FlushRequest(flushKind, InUse(ordered.doPost))]
                           [Bar := BodyRequest(b, InUse(ordered.doBar))]
                           [Pre := FlushRequest(flushKind, InUse(ordered.doPre))]
      ensures list == Front(ordered.doPre, Pre, Front(ordered.doBar, Bar, Front(ordered.doPost, Post, old(list))))
    {
      hide Front, FlushRequest, BodyRequest, InUse;
      PlaceProxy(Post, FlushRequest(flushKind, InUse(ordered.doPost)), ordered.doPost);
      PlaceProxy(Bar, BodyRequest(b, InUse(ordered.doBar)), ordered.doBar);
      PlaceProxy(Pre, FlushRequest(flushKind, InUse(ordered.doPre)), ordered.doPre);
    }

    /** `start_ordered` */
    method StartOrderedSequence() returns (v: Verdict)
      requires Good(View()) && list != [] && ordseq == SEQ_NONE && IsBarrier(rq[list[0]])
      modifies this
      ensures (View(), v) == old(StartOrdered(View())) && endSector == old(endSector)
    {
      hide Structure, Coloring, Expand, CompleteSeq;
      ghost var s := View();
      ExpandColoring(s);
      ExpandOrig(s);
      ExpandBarrier();
      var skip := SEQ_NONE;
      if !ordered.doPost { skip := skip.(post := true); }
      if !ordered.doBar { skip := skip.(bar := true); }
      if !ordered.doPre { skip := skip.(pre := true); }
      var wait := ordered.byDrain && inFlight != 0;
      if !wait { skip := skip.(drain := true); }
      assert skip == Skipped(ordered, MustWait(Expand(s)));
      var none := !ordered.doPre && !ordered.doBar && !ordered.doPost;
      StartedMask(s);
      var finished := CompleteStages(skip, 0);
      v := if finished then Gone else if wait || none then Hold else Issue;
    }

    /** An initialised proxy, inserted at the front when its stage is wanted. */
    method PlaceProxy(id: Id, r: Request, wanted: bool)
      modifies this`rq, this`list
      ensures rq == old(rq)[id := r] && list == Front(wanted, id, old(list))
    {
      rq := rq[id := r];
      if wanted {
        list := [id] + list;
      }
    }

    /** `blk_do_ordered` on the head of the list. */
    method DoOrderedHead() returns (v: Verdict)
      requires Good(View()) && list != []
      modifies this
      ensures (View(), v) == old(DoOrdered(View())) && endSector == old(endSector)
    {
      hide Structure, Coloring;
      var id := list[0];
      var r := rq[id];
      var isBarrier := r.kind == Fs && r.hard;
      if ordseq == SEQ_NONE {
        if !isBarrier { return Issue; }
        if mode != ORDERED_NONE {
          v := StartOrderedSequence();
        } else {
          list := list[1..];
          rq := rq[id := r.(place := Free)];
          h := h.(ended := h.ended + 1, log := h.log + [Ended(id.n, EOPNOTSUPP)]);
          v := Gone;
        }
        return;
      }
      v := Issue;
      if r.kind != Fs && id != Pre && id != Post { return; }
      if ordered.byTag {
        if isBarrier && id != Bar { v := Hold; }
      } else if ReqSeq(rq[User(orig.value)].color, id, r) > CurSeq(ordseq) {
        v := Hold;
      }
    }

    /** `blk_start_request` on a request the driver has been shown. */
    method StartRequest(i: nat)
      requires Sound(View()) && Enabled(View(), LStart(i))
      modifies this
      ensures View() == old(Start(View(), i))
    {
      var id := list[i];
      var r := rq[id];
      list := Remove(list, i);
      if Account(scrub, r) { inFlight := inFlight + 1; }
      rq := rq[id := r.(place := Driver)];
      h := h.(log := h.log + [Issued(id, if id.User? then None else orig)]);
    }

    /** `elv_completed_request` */
    method CompletedRequest(id: Id, error: int)
      requires Sound(View()) && Enabled(View(), LComplete(id, error))
      modifies this
      ensures View() == old(ElvCompleted(View(), id, error)) && endSector == old(endSector)
    {
      hide CompleteSeq, Release, Drained;
      ghost var s := View();
      ReleaseRequest(id, error);
      ReleaseSound(s, id, error);
      var done := DrainDone();
      if done {
        DrainedOrig(View());
        var _ := CompleteStages(SEQ_DRAIN, 0);
      }
    }

    method ReleaseRequest(id: Id, error: int)
      requires id in rq
      modifies this
      ensures View() == old(Release(View(), id, error)) && endSector == old(endSector)
    {
      var r := rq[id];
      if Account(scrub, r) { inFlight := inFlight - 1; }
      rq := rq[id := r.(place := Free)];
      h := h.(log := h.log + [Completed(id, if id.User? then None else orig, error)]);
    }

    /** The queue is idle, draining is the current stage, and nothing before the barrier is left. */
    method DrainDone() returns (done: bool)
      requires Sound(View())
      ensures done == Drained(View())
    {
      done := false;
      if ordseq != SEQ_NONE {
        var passed := list == [];
        if list != [] {
          passed := ReqSeq(rq[User(orig.value)].color, list[0], rq[list[0]]) > DRAIN;
        }
        done := inFlight == 0 && CurSeq(ordseq) == DRAIN && passed;
      }
    }

    /** Completion by the driver; the proxies go through `pre_flush_end_io`, `bar_end_io` and
        `post_flush_end_io`. */
    method EndRequest(id: Id, error: int)
      requires Good(View()) && Enabled(View(), LComplete(id, error))
      modifies this
      ensures View() == old(Complete(View(), id, error)) && Good(View())
    {
      hide Structure, Coloring, CompleteSeq, Release;
      ghost var s := View();
      CompleteStructure(s, id, error);
      CompleteColoring(s, id, error);
      if !id.User? { ProxyNotDrained(s, id); ReleaseSound(s, id, error); }
      CompletedRequest(id, error);
      if id != Pre && id != Bar && id != Post { return; }
      h := h.(errs := h.errs + [error]);
      var _ := CompleteStages(StageBit(id), error);
    }

    /** `__elv_next_request` within `blk_peek_request`: take the head if the ordering rules allow
        it, drop barriers that end at once, and otherwise ask the scheduler for more. */
    method NextRequest() returns (next: Option<Id>, ghost labels: seq<Label>)
      requires Good(View())
      modifies this
      ensures Good(View()) && Steps(old(View()), labels, View())
      ensures forall l :: l in labels ==> l.LPeek? || l.LDispatch?
      ensures next.Some? ==> list != [] && list[0] == next.value && rq[next.value].started
    {
      hide Structure, Coloring, Enabled, Apply, DoOrdered, Peek, MarkHead;
      labels := [];
      while true
        invariant Good(View()) && Steps(old(View()), labels, View())
        invariant forall l :: l in labels ==> l.LPeek? || l.LDispatch?
        decreases |Waiting(rq)|, |list|
      {
        ghost var s := View();
        if list != [] {
          assert Sound(s) && Enabled(s, LPeek) && Apply(s, LPeek) == Peek(s) by { PeekLabel(s); }
          StepAllModes(s, LPeek);
          StepsAppend(old(View()), labels, s, LPeek);
          labels := labels + [LPeek];
          var v := DoOrderedHead();
          PeekCases(s);
          if v == Issue {
            rq := rq[list[0] := rq[list[0]].(started := true)];
            return Some(list[0]), labels;
          } else if v == Hold {
            return None, labels;
          }
        } else {
          if !(exists id :: id in rq && rq[id].place == Sched) { return None, labels; }
          if * { return None, labels; }
          var id :| id in rq && rq[id].place == Sched;
          DispatchShrinks(rq, id, rq[id].(place := Listed));
          var i := |list|;
          if * {
            i := DispatchSort(id);
          } else {
            DispatchTail(id);
          }
          StepAllModes(s, LDispatch(id, i));
          StepsAppend(old(View()), labels, s, LDispatch(id, i));
          labels := labels + [LDispatch(id, i)];
          assert rq == s.rq[id := s.rq[id].(place := Listed)] by { DispatchRq(s, id, i); }
        }
      }
    }
  }

  lemma PeekLabel(s: State)
    requires Sound(s) && s.list != []
    ensures Enabled(s, LPeek) && Apply(s, LPeek) == Peek(s)
  {
  }

  lemma DispatchRq(s: State, id: Id, i: nat)
    requires Sound(s) && Enabled(s, LDispatch(id, i))
    ensures Apply(s, LDispatch(id, i)).rq == s.rq[id := s.rq[id].(place := Listed)]
  {
  }

  lemma AddLabel(s: State, n: nat, r: Request, where: Where)
    requires Sound(s) && AddOk(s, n, r, where)
    ensures Enabled(s, LAdd(n, r, where)) && Apply(s, LAdd(n, r, where)) == Add(s, n, r, where)
  {
  }

  /** Completing all the remaining stages is what ends a sequence at once. */
  lemma StartedMask(s: State)
    requires Sound(s) && s.list != [] && s.list[0].User? && s.ordseq == SEQ_NONE
    ensures var x := Expand(s); var o := Or(x.ordseq, Skipped(x.ordered, MustWait(x)));
            && x.orig.Some? && User(x.orig.value) in x.rq
            && (CompleteSeq(x, Skipped(x.ordered, MustWait(x)), 0).ordseq == SEQ_NONE <==> CurSeq(o) == DONE)
            && (CurSeq(o) == DONE ==> x.list == s.list[1..])
            && CompleteSeq(x, Skipped(x.ordered, MustWait(x)), 0).ordered == x.ordered
  {
  }

  /** A sequence that ends at once only removes its barrier from the list. */
  lemma GoneShrinks(s: State)
    requires Good(s) && s.list != [] && s.ordseq == SEQ_NONE && IsBarrier(s.rq[s.list[0]])
    requires StartOrdered(s).1 == Gone
    ensures var t := StartOrdered(s).0; t.list == s.list[1..] && Waiting(t.rq) == Waiting(s.rq)
  {
    hide Coloring, ListOk, Accounted, Mask, Stages, EffectiveOrder;
    StartedMask(s);
    OnListed(s);
    ProxiesFree(s);
  }

  lemma OnListed(s: State)
    requires Structure(s) && s.list != []
    ensures s.list[0] in s.rq && s.rq[s.list[0]].place == Listed
  {
    hide Shapes, Accounted, Mask, Stages;
    assert s.list[0] in s.list;
  }

  /** What one look at the head does, by verdict. */
  lemma PeekCases(s: State)
    requires Good(s) && s.list != []
    ensures var (t, v) := DoOrdered(s);
            && (v == Issue ==> t.list != [] && t.list[0] in t.rq
                               && Peek(s) == t.(rq := t.rq[t.list[0] := t.rq[t.list[0]].(started := true)]))
            && (v != Issue ==> Peek(s) == t)
            && (v == Gone ==> |t.list| < |s.list| && Waiting(t.rq) == Waiting(s.rq))
  {
    hide Structure, Coloring, StartOrdered;
    if s.ordseq == SEQ_NONE && IsBarrier(s.rq[s.list[0]]) {
      OnListed(s);
      if s.mode != ORDERED_NONE {
        if StartOrdered(s).1 == Issue { StartOrderedHead(s); }
        if StartOrdered(s).1 == Gone { GoneShrinks(s); }
      }
    }
  }

  lemma {:induction false} FirstSpot(rq: map<Id, Request>, q: seq<Id>, color: bool, turn: nat, i: nat)
    requires forall id :: id in q ==> id in rq
    requires i <= |q| && forall k :: 0 <= k < i ==> ReqSeq(color, q[k], rq[q[k]]) < turn
    requires i < |q| ==> turn <= ReqSeq(color, q[i], rq[q[i]])
    ensures RequeueSpot(rq, q, color, turn) == i
  {
    hide ReqSeq;
    assert !(i < RequeueSpot(rq, q, color, turn)) && !(RequeueSpot(rq, q, color, turn) < i);
  }
}
