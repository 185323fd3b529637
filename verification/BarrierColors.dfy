/** Barriers leave the dispatch list in submission order, and the colour bit is the parity of the
    number of barriers submitted before a request.  Both hold in every ordering mode. */
module BarrierColors {
  import opened Options
  import opened BarrierModel
  import opened BarrierStructure

  predicate Parity(epoch: nat) { epoch % 2 == 1 }

  predicate Colored(hepoch: nat, id: Id, r: Request) {
    id.User? ==> r.color == Parity(r.epoch) && r.epoch <= hepoch && (IsBarrier(r) ==> r.epoch < hepoch)
  }

  ghost predicate Colors(rq: Requests, hepoch: nat, ordcolor: bool) {
    ordcolor == Parity(hepoch) && forall id :: id in rq ==> Colored(hepoch, id, rq[id])
  }

  ghost predicate HasBarrier(rq: Requests, list: seq<Id>, epoch: nat) {
    exists id :: id in list && id in rq && UserBarrier(id, rq[id]) && rq[id].epoch == epoch
  }

  /** The listed barriers are exactly those of epochs `lo` up to `hi`, in that order. */
  ghost predicate BarrierQueue(rq: Requests, list: seq<Id>, lo: nat, hi: nat)
    requires forall id :: id in list ==> id in rq
  {
    && (forall id :: id in list && UserBarrier(id, rq[id]) ==> lo <= rq[id].epoch < hi)
    && (forall k: nat :: lo <= k < hi ==> HasBarrier(rq, list, k))
    && (forall i, j :: 0 <= i < j < |list| && UserBarrier(list[i], rq[list[i]]) && UserBarrier(list[j], rq[list[j]]) ==>
          rq[list[i]].epoch < rq[list[j]].epoch)
  }

  /** The first epoch whose barrier is still on the list. */
  function Lo(s: State): nat { s.h.ended + (if s.orig.Some? then 1 else 0) }

  ghost predicate Coloring(s: State)
    requires Sound(s)
  {
    && Colors(s.rq, s.h.epoch, s.ordcolor)
    && BarrierQueue(s.rq, s.list, Lo(s), s.h.epoch)
    && (s.orig.Some? ==> s.rq[User(s.orig.value)].epoch == s.h.ended)
    && Lo(s) <= s.h.epoch
  }

  // ---------------------------------------------------------------- the list of barriers

  lemma HasBarrierKeep(rq: Requests, list: seq<Id>, rq': Requests, list': seq<Id>, k: nat)
    requires HasBarrier(rq, list, k)
    requires forall x :: x in list && x in rq && UserBarrier(x, rq[x]) ==>
              x in list' && x in rq' && UserBarrier(x, rq'[x]) && rq'[x].epoch == rq[x].epoch
    ensures HasBarrier(rq', list', k)
  {
  }

  lemma BarriersInsert(rq: Requests, list: seq<Id>, lo: nat, hi: nat, i: nat, id: Id, r: Request)
    requires forall x :: x in list ==> x in rq
    requires BarrierQueue(rq, list, lo, hi) && id !in list && i <= |list| && !UserBarrier(id, r)
    ensures BarrierQueue(rq[id := r], Insert(list, i, id), lo, hi)
  {
    var rq', list' := rq[id := r], Insert(list, i, id);
    forall k: nat | lo <= k < hi ensures HasBarrier(rq', list', k) {
      HasBarrierKeep(rq, list, rq', list', k);
    }
  }

  lemma BarriersAppend(rq: Requests, list: seq<Id>, lo: nat, hi: nat, id: Id, r: Request)
    requires forall x :: x in list ==> x in rq
    requires BarrierQueue(rq, list, lo, hi) && id !in list && UserBarrier(id, r) && r.epoch == hi && lo <= hi
    ensures BarrierQueue(rq[id := r], Insert(list, |list|, id), lo, hi + 1)
  {
    var rq' := rq[id := r];
    var list' := Insert(list, |list|, id);
    forall k: nat | lo <= k < hi + 1 ensures HasBarrier(rq', list', k) {
      if k == hi {
        assert id in list' && rq'[id].epoch == k;
      } else {
        HasBarrierKeep(rq, list, rq', list', k);
      }
    }
  }

  lemma BarriersRemove(rq: Requests, list: seq<Id>, lo: nat, hi: nat, i: nat, r: Request)
    requires forall x :: x in list ==> x in rq
    requires BarrierQueue(rq, list, lo, hi) && i < |list| && !UserBarrier(list[i], rq[list[i]])
    requires list[i] !in Remove(list, i)
    ensures BarrierQueue(rq[list[i] := r], Remove(list, i), lo, hi)
  {
    var rq', list' := rq[list[i] := r], Remove(list, i);
    forall k: nat | lo <= k < hi ensures HasBarrier(rq', list', k) {
      HasBarrierKeep(rq, list, rq', list', k);
    }
  }

  lemma BarriersKeep(rq: Requests, list: seq<Id>, lo: nat, hi: nat, id: Id, r: Request)
    requires forall x :: x in list ==> x in rq
    requires BarrierQueue(rq, list, lo, hi)
    requires id in list ==> rq[id].kind == r.kind && rq[id].hard == r.hard && rq[id].epoch == r.epoch
    ensures BarrierQueue(rq[id := r], list, lo, hi)
  {
    var rq' := rq[id := r];
    forall k: nat | lo <= k < hi ensures HasBarrier(rq', list, k) {
      HasBarrierKeep(rq, list, rq', list, k);
    }
  }

  /** A barrier at the head of the list is the oldest one. */
  lemma HeadBarrier(rq: Requests, list: seq<Id>, lo: nat, hi: nat)
    requires forall x :: x in list ==> x in rq
    requires BarrierQueue(rq, list, lo, hi) && list != [] && UserBarrier(list[0], rq[list[0]])
    ensures lo < hi && rq[list[0]].epoch == lo
  {
    assert list[0] in list;
    assert HasBarrier(rq, list, lo);
    var id :| id in list && id in rq && UserBarrier(id, rq[id]) && rq[id].epoch == lo;
    var j :| 0 <= j < |list| && list[j] == id;
    assert j > 0 ==> rq[list[0]].epoch < rq[list[j]].epoch;
  }

  lemma BarriersPop(rq: Requests, list: seq<Id>, lo: nat, hi: nat, r: Request)
    requires forall x :: x in list ==> x in rq
    requires BarrierQueue(rq, list, lo, hi) && list != [] && UserBarrier(list[0], rq[list[0]])
    requires list[0] !in Remove(list, 0)
    ensures BarrierQueue(rq[list[0] := r], Remove(list, 0), lo + 1, hi)
  {
    HeadBarrier(rq, list, lo, hi);
    var rq' := rq[list[0] := r];
    var list' := Remove(list, 0);
    forall k: nat | lo + 1 <= k < hi ensures HasBarrier(rq', list', k) {
      assert HasBarrier(rq, list, k);
      var id :| id in list && id in rq && UserBarrier(id, rq[id]) && rq[id].epoch == k;
      assert id in list';
    }
    forall x | x in list' && UserBarrier(x, rq'[x]) ensures lo + 1 <= rq'[x].epoch {
      var j :| 0 <= j < |list'| && list'[j] == x;
      assert rq[list[0]].epoch < rq[list[j + 1]].epoch;
    }
  }

  lemma ColorsUpdate(rq: Requests, hepoch: nat, hepoch': nat, c: bool, c': bool, id: Id, r: Request)
    requires Colors(rq, hepoch, c) && hepoch <= hepoch' && c' == Parity(hepoch')
    requires Colored(hepoch', id, r)
    ensures Colors(rq[id := r], hepoch', c')
  {
  }

  // ---------------------------------------------------------------- every step

  lemma InitColoring(s: State)
    requires Init(s) && Sound(s)
    ensures Coloring(s)
  {
  }

  lemma AddBarriers(s: State, n: nat, r: Request, where: Where)
    requires Sound(s) && Coloring(s) && AddOk(s, n, r, where)
    ensures var s' := Add(s, n, r, where);
            (forall x :: x in s'.list ==> x in s'.rq) && BarrierQueue(s'.rq, s'.list, Lo(s), s'.h.epoch)
  {
    hide BarrierQueue, Colors;
    var s' := Add(s, n, r, where);
    var id := User(n);
    var r' := s'.rq[id];
    assert id !in s.list;
    if IsBarrier(r) {
      BarriersAppend(s.rq, s.list, Lo(s), s.h.epoch, id, r');
      assert Insert(s.list, |s.list|, id) == s'.list;
    } else if Placement(r, where) == AtFront {
      BarriersInsert(s.rq, s.list, Lo(s), s.h.epoch, 0, id, r');
      assert Insert(s.list, 0, id) == s'.list;
    } else if Placement(r, where) == AtBack {
      BarriersInsert(s.rq, s.list, Lo(s), s.h.epoch, |s.list|, id, r');
      assert Insert(s.list, |s.list|, id) == s'.list;
    } else {
      BarriersKeep(s.rq, s.list, Lo(s), s.h.epoch, id, r');
    }
  }

  lemma AddColoring(s: State, n: nat, r: Request, where: Where)
    requires Sound(s) && Coloring(s) && AddOk(s, n, r, where)
    requires r.hard ==> r.kind == Fs
    ensures var s' := Add(s, n, r, where); Sound(s') ==> Coloring(s')
  {
    hide BarrierQueue, Colors, AddOk;
    var s' := Add(s, n, r, where);
    var id := User(n);
    AddBarriers(s, n, r, where);
    ColorStep(s.h.epoch, s.rq, s.ordcolor, r.hard);
    ColorsUpdate(s.rq, s.h.epoch, s'.h.epoch, s.ordcolor, s'.ordcolor, id, s'.rq[id]);
    assert s.orig != Some(n) by { assert AddOk(s, n, r, where); NewRequest(s, n, r, where); }
  }

  lemma NewRequest(s: State, n: nat, r: Request, where: Where)
    requires Sound(s) && AddOk(s, n, r, where)
    ensures s.orig != Some(n) && User(n) !in s.list && User(n) !in s.rq
  {
  }

  lemma ColorStep(hepoch: nat, rq: Requests, c: bool, hard: bool)
    requires Colors(rq, hepoch, c)
    ensures c == Parity(hepoch)
    ensures (c != hard) == Parity(hepoch + (if hard then 1 else 0))
  {
  }

  /** A step that changes one request but neither its colour nor its kind. */
  predicate SameRequest(r: Request, r': Request) {
    r'.kind == r.kind && r'.hard == r.hard && r'.epoch == r.epoch && r'.color == r.color
  }

  lemma ColoringMoved(s: State, s': State, id: Id)
    requires Sound(s) && Sound(s') && Coloring(s) && id in s.rq && id in s'.rq
    requires s' == s.(rq := s.rq[id := s'.rq[id]], list := s'.list, inFlight := s'.inFlight, h := s'.h)
    requires s'.h.ended == s.h.ended && s'.h.epoch == s.h.epoch
    requires SameRequest(s.rq[id], s'.rq[id])
    requires BarrierQueue(s'.rq, s'.list, Lo(s), s.h.epoch)
    ensures Coloring(s')
  {
    hide BarrierQueue;
    assert Colored(s.h.epoch, id, s.rq[id]);
    ColorsUpdate(s.rq, s.h.epoch, s.h.epoch, s.ordcolor, s.ordcolor, id, s'.rq[id]);
  }

  lemma NotListed(s: State, id: Id)
    requires Structure(s) && id in s.rq && s.rq[id].place != Listed
    ensures id !in s.list
  {
  }

  lemma DispatchColoring(s: State, id: Id, i: nat)
    requires Structure(s) && Sound(s) && Coloring(s) && Enabled(s, LDispatch(id, i))
    ensures var s' := Dispatch(s, id, i); Sound(s') ==> Coloring(s')
  {
    hide Structure, BarrierQueue, Colors;
    var s' := Dispatch(s, id, i);
    NotListed(s, id);
    ShapeOf(s, id);
    BarriersInsert(s.rq, s.list, Lo(s), s.h.epoch, i, id, s'.rq[id]);
    if Sound(s') { ColoringMoved(s, s', id); }
  }

  lemma StartColoring(s: State, i: nat)
    requires Structure(s) && Sound(s) && Coloring(s) && Enabled(s, LStart(i))
    ensures var s' := Start(s, i); Sound(s') ==> Coloring(s')
  {
    hide Structure, BarrierQueue, Colors, ListOk;
    var s' := Start(s, i);
    var id := s.list[i];
    ShapeOf(s, id);
    assert ListOk(s.rq, s.list) by { StructureParts(s); }
    ListRemove(s.rq, s.list, i, s'.rq[id]);
    BarriersRemove(s.rq, s.list, Lo(s), s.h.epoch, i, s'.rq[id]);
    if Sound(s') { ColoringMoved(s, s', id); }
  }

  lemma RequeueColoring(s: State, id: Id)
    requires Structure(s) && Sound(s) && Coloring(s) && Enabled(s, LRequeue(id))
    ensures var s' := Requeue(s, id); Sound(s') ==> Coloring(s')
  {
    hide Structure, BarrierQueue, Colors;
    var s' := Requeue(s, id);
    NotListed(s, id);
    ShapeOf(s, id);
    var i := if s.ordseq == SEQ_NONE then 0
             else RequeueSpot(s.rq, s.list, OrigColor(s), ReqSeq(OrigColor(s), id, s'.rq[id]));
    BarriersInsert(s.rq, s.list, Lo(s), s.h.epoch, i, id, s'.rq[id]);
    if Sound(s') { ColoringMoved(s, s', id); }
  }

  lemma MarkHeadColoring(s: State)
    requires Sound(s) && Coloring(s) && s.list != []
    ensures var s' := MarkHead(s); Sound(s') ==> Coloring(s')
  {
    hide BarrierQueue, Colors;
    var s' := MarkHead(s);
    var id := s.list[0];
    BarriersKeep(s.rq, s.list, Lo(s), s.h.epoch, id, s'.rq[id]);
    if Sound(s') { ColoringMoved(s, s', id); }
  }

  lemma ReleaseColoring(s: State, id: Id, error: int)
    requires Structure(s) && Sound(s) && Coloring(s) && Enabled(s, LComplete(id, error))
    ensures var s' := Release(s, id, error); Sound(s') ==> Coloring(s')
  {
    hide Structure, BarrierQueue, Colors;
    var s' := Release(s, id, error);
    NotListed(s, id);
    BarriersKeep(s.rq, s.list, Lo(s), s.h.epoch, id, s'.rq[id]);
    if Sound(s') { ColoringMoved(s, s', id); }
  }

  lemma CompleteSeqColoring(s: State, bits: OrdSeq, error: int)
    requires Sound(s) && Coloring(s) && s.orig.Some? && User(s.orig.value) !in s.list
    ensures var s' := CompleteSeq(s, bits, error); Sound(s') ==> Coloring(s')
  {
    hide BarrierQueue, Colors;
    var s' := CompleteSeq(s, bits, error);
    if Sound(s') && CurSeq(Or(s.ordseq, bits)) == DONE {
      var id := User(s.orig.value);
      BarriersKeep(s.rq, s.list, Lo(s), s.h.epoch, id, s'.rq[id]);
      assert Colors(s'.rq, s.h.epoch, s.ordcolor) by {
        ColorsOf(s, id);
        ColorsUpdate(s.rq, s.h.epoch, s.h.epoch, s.ordcolor, s.ordcolor, id, s'.rq[id]) by {
          ColorStep(s.h.epoch, s.rq, s.ordcolor, false);
        }
      }
    }
  }

  lemma ColorsOf(s: State, id: Id)
    requires Sound(s) && Coloring(s) && id in s.rq
    ensures Colored(s.h.epoch, id, s.rq[id])
  {
  }

  lemma BarriersFront(rq: Requests, list: seq<Id>, lo: nat, hi: nat, id: Id, r: Request, wanted: bool)
    requires forall x :: x in list ==> x in rq
    requires BarrierQueue(rq, list, lo, hi) && id !in list && !id.User?
    ensures BarrierQueue(rq[id := r], Front(wanted, id, list), lo, hi)
  {
    hide BarrierQueue;
    if wanted {
      BarriersInsert(rq, list, lo, hi, 0, id, r);
      assert Insert(list, 0, id) == [id] + list;
    } else {
      BarriersKeep(rq, list, lo, hi, id, r);
    }
  }

  lemma ExpandBarriers(s: State)
    requires Structure(s) && Sound(s) && Coloring(s) && s.list != [] && s.ordseq == SEQ_NONE
    requires IsBarrier(s.rq[s.list[0]])
    ensures var e := Expand(s);
            (forall x :: x in e.list ==> x in e.rq) && BarrierQueue(e.rq, e.list, s.h.ended + 1, s.h.epoch)
    ensures s.rq[s.list[0]].epoch == s.h.ended < s.h.epoch
  {
    hide Structure, ListOk, BarrierQueue, Colors, EffectiveOrder;
    var e := Expand(s);
    var n := s.list[0];
    var o := e.ordered;
    var lo, hi := s.h.ended + 1, s.h.epoch;
    ProxiesFree(s);
    NotListed(s, Pre);
    NotListed(s, Bar);
    NotListed(s, Post);
    assert ListOk(s.rq, s.list) by { StructureParts(s); }
    ListRemove(s.rq, s.list, 0, e.rq[n]);
    HeadBarrier(s.rq, s.list, Lo(s), hi);
    BarriersPop(s.rq, s.list, Lo(s), hi, e.rq[n]);
    assert Remove(s.list, 0) == s.list[1..];
    var rq1 := s.rq[n := e.rq[n]];
    var rq2 := rq1[Post := e.rq[Post]];
    var rq3 := rq2[Bar := e.rq[Bar]];
    var l1 := s.list[1..];
    var l2 := Front(o.doPost, Post, l1);
    var l3 := Front(o.doBar, Bar, l2);
    BarriersFront(rq1, l1, lo, hi, Post, e.rq[Post], o.doPost);
    BarriersFront(rq2, l2, lo, hi, Bar, e.rq[Bar], o.doBar);
    BarriersFront(rq3, l3, lo, hi, Pre, e.rq[Pre], o.doPre);
    assert e.rq == rq3[Pre := e.rq[Pre]];
  }

  lemma ExpandColors(s: State)
    requires Sound(s) && Coloring(s) && s.list != [] && s.list[0].User?
    ensures var e := Expand(s); Colors(e.rq, e.h.epoch, e.ordcolor)
  {
    hide BarrierQueue, EffectiveOrder;
    var e := Expand(s);
    assert Colored(s.h.epoch, s.list[0], s.rq[s.list[0]]);
  }

  lemma ExpandColoring(s: State)
    requires Structure(s) && Sound(s) && Coloring(s) && s.list != [] && s.ordseq == SEQ_NONE
    requires IsBarrier(s.rq[s.list[0]])
    ensures Sound(Expand(s)) && Coloring(Expand(s))
    ensures s.list[0] !in Expand(s).list
  {
    hide Structure, ListOk, BarrierQueue, Colors, EffectiveOrder;
    ProxiesFree(s);
    ExpandBarriers(s);
    ExpandColors(s);
    assert ListOk(s.rq, s.list) by { StructureParts(s); }
    ListRemove(s.rq, s.list, 0, s.rq[s.list[0]].(place := Stashed));
    assert Remove(s.list, 0) == s.list[1..];
  }

  lemma StartOrderedColoring(s: State)
    requires Structure(s) && Sound(s) && Coloring(s) && s.list != [] && s.ordseq == SEQ_NONE
    requires IsBarrier(s.rq[s.list[0]]) && s.mode != ORDERED_NONE
    ensures var s' := StartOrdered(s).0; Structure(s') && Sound(s') && Coloring(s')
  {
    hide Structure, Coloring, Expand;
    StartOrderedStructure(s);
    StructureSound(StartOrdered(s).0);
    ExpandColoring(s);
    assert Expand(s).orig == Some(s.list[0].n) by { ExpandOrig(s); }
    CompleteSeqColoring(Expand(s), Skipped(Expand(s).ordered, MustWait(Expand(s))), 0);
  }

  lemma ExpandOrig(s: State)
    requires Sound(s) && s.list != [] && s.list[0].User?
    ensures Expand(s).orig == Some(s.list[0].n)
  {
  }

  lemma RefuseColoring(s: State)
    requires Structure(s) && Sound(s) && Coloring(s) && s.list != [] && s.ordseq == SEQ_NONE
    requires IsBarrier(s.rq[s.list[0]])
    ensures var s' := Refuse(s); Structure(s') && Sound(s') && Coloring(s')
  {
    hide Structure, BarrierQueue, Colors, ListOk;
    var s' := Refuse(s);
    var id := s.list[0];
    RefuseStructure(s);
    StructureSound(s');
    ProxiesFree(s);
    assert ListOk(s.rq, s.list) by { StructureParts(s); }
    ListRemove(s.rq, s.list, 0, s'.rq[id]);
    HeadBarrier(s.rq, s.list, Lo(s), s.h.epoch);
    BarriersPop(s.rq, s.list, Lo(s), s.h.epoch, s'.rq[id]);
    assert Remove(s.list, 0) == s'.list;
    ColorsOf(s, id);
    ColorStep(s.h.epoch, s.rq, s.ordcolor, false);
    ColorsUpdate(s.rq, s.h.epoch, s.h.epoch, s.ordcolor, s.ordcolor, id, s'.rq[id]);
  }

  // ---------------------------------------------------------------- what peeking may issue

  /** The next barrier on the list never has the colour of the current one. */
  lemma NextBarrierColor(s: State)
    requires Sound(s) && Coloring(s) && s.orig.Some? && s.list != [] && UserBarrier(s.list[0], s.rq[s.list[0]])
    ensures ReqSeq(OrigColor(s), s.list[0], s.rq[s.list[0]]) == DONE
  {
    HeadBarrier(s.rq, s.list, Lo(s), s.h.epoch);
    ColorsOf(s, s.list[0]);
    ColorsOf(s, User(s.orig.value));
  }

  /** A sequence in progress is ordered by tag, so that no colour is looked at. */
  predicate TagOnly(s: State) { s.orig.Some? ==> s.ordered.byTag }

  /** The next barrier is told from what has to drain: by its colour, or because nothing drains. */
  ghost predicate ToldApart(s: State)
    requires Sound(s)
  {
    Coloring(s) || TagOnly(s)
  }

  /** A request that is issued is never a barrier from outside, and a proxy is issued only after
      the drain. */
  lemma IssueOk(s: State)
    requires Structure(s) && Sound(s) && ToldApart(s) && s.list != []
    requires DoOrdered(s).1 == Issue
    requires s.ordseq == SEQ_NONE ==> !IsBarrier(s.rq[s.list[0]])
    ensures !UserBarrier(s.list[0], s.rq[s.list[0]])
    ensures !s.list[0].User? ==> s.ordseq.drain
  {
    hide Coloring, ListOk, Shapes, Accounted, ValidMode, EffectiveOrder, FirstError, StartOrdered, Refuse;
    ShapeOf(s, s.list[0]);
    if s.orig.Some? && UserBarrier(s.list[0], s.rq[s.list[0]]) && !s.ordered.byTag {
      NextBarrierColor(s);
    }
  }

  /** The head that `start_ordered` offers is the first proxy of the sequence. */
  lemma StartOrderedHead(s: State)
    requires Sound(s) && s.list != [] && s.list[0].User? && StartOrdered(s).1 == Issue
    ensures var t := StartOrdered(s).0;
            && t.list != [] && !t.list[0].User? && t.list[0] in t.rq
            && t.ordseq == Or(Expand(s).ordseq, Skipped(t.ordered, false)) && t.ordseq.drain
            && t.orig.Some?
  {
    var e := Expand(s);
    var o := e.ordered;
    assert e.list[0] == if o.doPre then Pre else if o.doBar then Bar else Post;
  }

  lemma PeekStructure(s: State)
    requires Structure(s) && Sound(s) && ToldApart(s) && s.list != []
    ensures Structure(Peek(s)) && Sound(Peek(s))
  {
    hide Structure, Coloring, StartOrdered, Refuse, MarkHead, Sound, ToldApart;
    var (t, v) := DoOrdered(s);
    assert s.list[0] in s.rq && (s.ordseq == SEQ_NONE ==> s.list[0].User?) by { HeadFacts(s); }
    if s.ordseq == SEQ_NONE && IsBarrier(s.rq[s.list[0]]) {
      if s.mode != ORDERED_NONE {
        StartOrderedStructure(s);
        if v == Issue {
          StartOrderedHead(s);
          MarkHeadStructure(t);
        }
      } else {
        RefuseStructure(s);
      }
    } else if v == Issue {
      IssueOk(s);
      MarkHeadStructure(s);
    }
    StructureSound(Peek(s));
  }

  lemma PeekColoring(s: State)
    requires Structure(s) && Sound(s) && Coloring(s) && s.list != [] && Sound(Peek(s))
    ensures Coloring(Peek(s))
  {
    hide Structure, Coloring, StartOrdered, Refuse, MarkHead, Sound;
    var (t, v) := DoOrdered(s);
    assert s.list[0] in s.rq && (s.ordseq == SEQ_NONE ==> s.list[0].User?) by { HeadFacts(s); }
    if s.ordseq == SEQ_NONE && IsBarrier(s.rq[s.list[0]]) {
      if s.mode != ORDERED_NONE {
        StartOrderedColoring(s);
        if v == Issue {
          StartOrderedHead(s);
          MarkHeadColoring(t);
        }
      } else {
        RefuseColoring(s);
      }
    } else if v == Issue {
      MarkHeadColoring(s);
    }
  }

  lemma HeadFacts(s: State)
    requires Sound(s) && s.list != []
    ensures s.list[0] in s.rq && (s.ordseq == SEQ_NONE ==> s.list[0].User?)
  {
  }

  // ---------------------------------------------------------------- all steps together

  lemma CompleteStructure(s: State, id: Id, error: int)
    requires Structure(s) && Sound(s) && Enabled(s, LComplete(id, error))
    ensures Structure(Complete(s, id, error)) && Sound(Complete(s, id, error))
  {
    hide Structure, Release, CompleteSeq;
    if id.User? { ElvCompletedStructure(s, id, error); } else { ProxyCompleteStructure(s, id, error); }
    StructureSound(Complete(s, id, error));
  }

  lemma CompleteColoring(s: State, id: Id, error: int)
    requires Structure(s) && Sound(s) && Coloring(s) && Enabled(s, LComplete(id, error))
    requires Sound(Complete(s, id, error))
    ensures Coloring(Complete(s, id, error))
  {
    hide Structure, BarrierQueue, Colors, ListOk, Release, CompleteSeq;
    var s1 := Release(s, id, error);
    assert Sound(s1) && s1.orig == s.orig && s1.list == s.list by { ReleaseSound(s, id, error); }
    ReleaseColoring(s, id, error);
    if s.orig.Some? {
      ShapeOf(s, User(s.orig.value));
      NotListed(s, User(s.orig.value));
    }
    if id.User? {
      if Drained(s1) { CompleteSeqColoring(s1, SEQ_DRAIN, 0); }
    } else {
      ProxyNotDrained(s, id);
      assert !Drained(s1) by { assert s1.ordseq == s.ordseq by { ReleaseSound(s, id, error); } }
      var s2 := s1.(h := s1.h.(errs := s1.h.errs + [error]));
      assert Coloring(s2);
      CompleteSeqColoring(s2, StageBit(id), error);
    }
  }

  lemma ReleaseSound(s: State, id: Id, error: int)
    requires Sound(s) && id in s.rq
    ensures var s1 := Release(s, id, error);
            Sound(s1) && s1.orig == s.orig && s1.list == s.list && s1.ordseq == s.ordseq
  {
  }

  lemma DrainedOrig(s: State)
    requires Sound(s) && Drained(s)
    ensures s.orig.Some?
  {
  }

  /** Whatever is submitted, every step keeps the queue consistent while barriers are told apart. */
  lemma StepStructure(s: State, l: Label)
    requires Structure(s) && Sound(s) && ToldApart(s) && Enabled(s, l)
    ensures Structure(Apply(s, l)) && Sound(Apply(s, l))
  {
    hide Structure, ToldApart, Add, Dispatch, Peek, Start, Complete, Requeue;
    match l {
      case LAdd(n, r, where) => AddStructure(s, n, r, where);
      case LDispatch(id, i) => DispatchStructure(s, id, i);
      case LPeek => PeekStructure(s);
      case LStart(i) => StartStructure(s, i);
      case LComplete(id, error) => CompleteStructure(s, id, error);
      case LRequeue(id) => RequeueStructure(s, id);
    }
    StructureSound(Apply(s, l));
  }

  lemma StepAllModes(s: State, l: Label)
    requires Structure(s) && Sound(s) && Coloring(s) && Enabled(s, l) && FsBarriersOnly(l)
    ensures var s' := Apply(s, l); Structure(s') && Sound(s') && Coloring(s')
  {
    hide Structure, Coloring, Add, Dispatch, Peek, Start, Complete, Requeue;
    StepStructure(s, l);
    match l
    case LAdd(n, r, where) => AddColoring(s, n, r, where);
    case LDispatch(id, i) => DispatchColoring(s, id, i);
    case LPeek => PeekColoring(s);
    case LStart(i) => StartColoring(s, i);
    case LComplete(id, error) => CompleteColoring(s, id, error);
    case LRequeue(id) => RequeueColoring(s, id);
  }
}
