/** The condition that hard barriers are filesystem requests is needed: for every submission it
    excludes there is a run that does nothing else out of the ordinary and breaks the promise. */
module BarrierLimits {
  import opened Options
  import opened BarrierModel
  import opened BarrierUsers
  import opened BarrierLog
  import opened BarrierDrain
  import opened BarrierSetups

  // ---------------------------------------------------------------- ordering by draining

  lemma CommandAdded(s: State, mode: Ordered, r: Request, where: Where) returns (s1: State)
    requires Held(s, mode) && s.list == [] && s.ordcolor && Calm(s, mode)
    requires Flagged(s.scrub, r, where)
    ensures Enabled(s, LAdd(1, r, where)) && s1 == Apply(s, LAdd(1, r, where))
    ensures Held(s1, mode) && !s1.ordcolor && User(2) !in s1.rq
    ensures User(1) in s1.rq && s1.rq[User(1)].kind != Fs && s1.list == if where == InVerify then [] else [User(1)]
    ensures s1.h.log == s.h.log + [Submitted(1, false, false, r.sectors == 0)]
  {
    s1 := Apply(s, LAdd(1, r, where));
  }

  const AddWrite := LAdd(2, Plain(false, false), InSort)

  lemma WriteAdded(s: State, mode: Ordered) returns (s1: State, s2: State)
    requires Held(s, mode) && !s.ordcolor && User(2) !in s.rq && User(2) !in s.list
    ensures Enabled(s, AddWrite) && s1 == Apply(s, AddWrite)
    ensures Sound(s1) && Enabled(s1, LDispatch(User(2), |s.list|)) && s2 == Apply(s1, LDispatch(User(2), |s.list|))
    ensures Held(s2, mode) && s2.list == s.list + [User(2)] && User(2) in s2.rq
    ensures (forall x :: x in s.rq ==> x in s2.rq && s2.rq[x] == s.rq[x]) && s2.rq[User(2)].kind == Fs
    ensures !s2.rq[User(2)].color
    ensures s2.h.log == s.h.log + [Submitted(2, true, false, false)]
  {
    s1 := Apply(s, AddWrite);
    s2 := Apply(s1, LDispatch(User(2), |s.list|));
    assert Insert(s.list, |s.list|, User(2)) == s.list + [User(2)];
  }

  /** Fetching the head when it may be issued. */
  lemma Fetch(s: State, mode: Ordered, id: Id) returns (s1: State, s2: State)
    requires Held(s, mode) && !mode.byTag && s.list != [] && s.list[0] == id && id.User? && id != User(0)
    requires s.rq[id].kind == Fs ==> !s.rq[id].color
    requires id !in s.list[1..]
    ensures Enabled(s, LPeek) && s1 == Apply(s, LPeek)
    ensures Sound(s1) && Enabled(s1, LStart(0)) && s2 == Apply(s1, LStart(0))
    ensures Held(s2, mode) && s2.list == s.list[1..]
    ensures forall x :: x in s.rq && x != id ==> x in s2.rq && s2.rq[x] == s.rq[x]
    ensures s2.h.log == s.h.log + [Issued(id, None)]
  {
    s1, s2 := Fetches(s, id);
  }

  /** The command and a write are submitted while barrier 0 is in progress. */
  lemma WriteListed(mode: Ordered, scrub: bool, flushKind: Kind, r: Request, where: Where)
      returns (states: seq<State>, labels: seq<Label>, s: State)
    requires DrainMode(mode) && flushKind != Fs
    requires Flagged(scrub, r, where)
    ensures RunTo(states, labels, s) && |states| > 0 && states[0].mode == mode
    ensures OnlyOffender(labels, LAdd(1, r, where))
    ensures Held(s, mode) && User(2) in s.rq && s.rq[User(2)].kind == Fs && !s.rq[User(2)].color
    ensures User(1) in s.rq && s.rq[User(1)].kind != Fs
    ensures s.list == if where == InVerify then [User(2)] else [User(1), User(2)]
    ensures Unpassed(s.h.log)
  {
    hide RunTo, Apply, Init, Calm, Enabled, OnlyOffender, Sound, Usual, Held, Only;
    var off := LAdd(1, r, where);
    var st, lb, s3 := StageAtDriver(mode, scrub, flushKind);
    LastState(st, lb, s3);
    assert Sound(s3) by { HeldSound(s3, mode); }
    var s4 := CommandAdded(s3, mode, r, where);
    assert Sound(s4) by { HeldSound(s4, mode); }
    Extend(st, lb, s3, off);
    OffenderAdded(lb, off);
    var s5, s6 := WriteAdded(s4, mode);
    var turn := LDispatch(User(2), |s4.list|);
    Extend(st + [s4], lb + [off], s4, AddWrite);
    Extend(st + [s4] + [s5], lb + [off] + [AddWrite], s5, turn);
    assert Usual(AddWrite) && Usual(turn) by { UsualWrite(turn); }
    OffenderMore(lb + [off], off, AddWrite);
    OffenderMore(lb + [off] + [AddWrite], off, turn);
    states, labels, s := st + [s4] + [s5] + [s6], lb + [off] + [AddWrite] + [turn], s6;
  }

  lemma UsualWrite(l: Label)
    requires l.LDispatch?
    ensures Usual(AddWrite) && Usual(l)
  {
  }

  /** With the command out of the way, the write is at the head while barrier 0 is in progress. */
  lemma WriteAtHead(mode: Ordered, scrub: bool, flushKind: Kind, r: Request, where: Where)
      returns (states: seq<State>, labels: seq<Label>, s: State)
    requires DrainMode(mode) && flushKind != Fs
    requires Flagged(scrub, r, where)
    ensures RunTo(states, labels, s) && |states| > 0 && states[0].mode == mode
    ensures OnlyOffender(labels, LAdd(1, r, where))
    ensures Held(s, mode) && s.list == [User(2)] && User(2) in s.rq && s.rq[User(2)].kind == Fs && !s.rq[User(2)].color
    ensures Unpassed(s.h.log)
  {
    hide RunTo, Apply, Init, Enabled, OnlyOffender;
    states, labels, s := WriteListed(mode, scrub, flushKind, r, where);
    if where != InVerify {
      assert s.list[1..] == [User(2)];
      var s7, s8 := Fetch(s, mode, User(1));
      assert Unpassed(s8.h.log) by { UnpassedMore(s.h.log, User(1)); }
      Extend(states, labels, s, LPeek);
      Extend(states + [s7], labels + [LPeek], s7, LStart(0));
      assert Usual(LPeek);
      assert Usual(LStart(0));
      OffenderMore(labels, LAdd(1, r, where), LPeek);
      OffenderMore(labels + [LPeek], LAdd(1, r, where), LStart(0));
      states, labels, s := states + [s7] + [s8], labels + [LPeek] + [LStart(0)], s8;
    }
  }

  lemma UnpassedMore(log: seq<Event>, id: Id)
    requires Unpassed(log)
    ensures Unpassed(log + [Issued(id, None)])
  {
  }

  /** Write 2 was submitted after barrier 0, which has not ended. */
  ghost predicate Unpassed(log: seq<Event>) {
    && |log| > 3 && log[0].Submitted? && log[0].n == 0 && log[0].barrier && log[3] == Submitted(2, true, false, false)
    && forall ev :: ev in log ==> !ev.Ended?
  }

  lemma LogUnsafe(doPre: bool, log: seq<Event>)
    requires Unpassed(log)
    ensures !DrainLog(doPre, log + [Issued(User(2), None)])
  {
    var l := log + [Issued(User(2), None)];
    var k := |log|;
    assert l[..k] == log;
    assert IsFsRequest(log, 2);
    assert !BarrierEnded(log, 0);
    assert !BarriersPassed(log, 2);
    assert !DrainEvent(doPre, l[..k], l[k]);
  }

  /** Whatever the drain mode, whichever request that is not a filesystem request carries the
      hard-barrier flag, and wherever it may be inserted: there is a run in which its submission is
      the only one of this kind, the out-of-turn warning triggers, and a write is issued before the
      barrier submitted ahead of it has ended. */
  lemma ColorConfusion(mode: Ordered, scrub: bool, flushKind: Kind, r: Request, where: Where)
      returns (states: seq<State>, labels: seq<Label>, late: State)
    requires DrainMode(mode) && flushKind != Fs
    requires Flagged(scrub, r, where)
    ensures Run(states, labels) && states[0].mode == mode
    ensures OnlyOffender(labels, LAdd(1, r, where))
    ensures late in states && Sound(late) && OutOfTurn(late)
    ensures !DrainLog(mode.doPre, states[|labels|].h.log)
  {
    hide Apply, Init, Enabled, DrainLog, Run, Unpassed, OnlyOffender;
    var off := LAdd(1, r, where);
    var st, lb, s8 := WriteAtHead(mode, scrub, flushKind, r, where);
    assert OutOfTurn(s8);
    var s9, s10 := Fetch(s8, mode, User(2));
    LogUnsafe(mode.doPre, s8.h.log);
    Extend(st, lb, s8, LPeek);
    Extend(st + [s9], lb + [LPeek], s9, LStart(0));
    states, labels, late := st + [s9] + [s10], lb + [LPeek] + [LStart(0)], s8;
    assert s8 in st by { LastState(st, lb, s8); }
    assert Usual(LPeek);
    assert Usual(LStart(0));
    OffenderMore(lb, off, LPeek);
    OffenderMore(lb + [LPeek], off, LStart(0));
  }

  // ---------------------------------------------------------------- ordering by tag

  /** Empty barrier 1 waits for write 0. */
  lemma EmptyDrains(flushKind: Kind, scrub: bool, w: Request, b: Request)
      returns (states: seq<State>, labels: seq<Label>, s: State)
    requires flushKind != Fs && w.kind == Fs && !w.hard && IsBarrier(b) && b.sectors == 0
    ensures RunTo(states, labels, s) && |states| > 0 && states[0] == Idle0(ORDERED_TAG, scrub, flushKind)
    ensures forall l :: l in labels ==> Usual(l)
    ensures EmptyWaits(s, 1, []) && s.rq.Keys == {Pre, Bar, Post, User(0), User(1)} && s.scrub == scrub
    ensures s.ordcolor && !s.rq[User(1)].color
  {
    hide RunTo, Apply, Enabled, WriteOut, EmptyWaits;
    var st, lb, s3 := WriteAtDriver(ORDERED_TAG, scrub, flushKind, w);
    LastState(st, lb, s3);
    var s4 := EmptyEnters(s3, scrub, b);
    Extend(st, lb, s3, LAdd(1, b, AtBack));
    Extend(st + [s4], lb + [LAdd(1, b, AtBack)], s4, LPeek);
    states, labels, s := st + [s4] + [Apply(s4, LPeek)], lb + [LAdd(1, b, AtBack)] + [LPeek], Apply(s4, LPeek);
  }

  lemma EmptyEnters(s: State, scrub: bool, b: Request) returns (s1: State)
    requires WriteOut(s, ORDERED_TAG, scrub) && IsBarrier(b) && b.sectors == 0
    ensures Sound(s) && Enabled(s, LAdd(1, b, AtBack)) && s1 == Apply(s, LAdd(1, b, AtBack))
    ensures Sound(s1) && Enabled(s1, LPeek) && EmptyWaits(Apply(s1, LPeek), 1, [])
    ensures var t := Apply(s1, LPeek);
            && t.rq.Keys == {Pre, Bar, Post, User(0), User(1)} && t.scrub == scrub && t.ordcolor && !t.rq[User(1)].color
  {
    hide Enabled, Apply;
    s1 := Submits(s, 1, b, AtBack);
    assert s1.list == [User(1)] + [];
    EmptyStarts(s1, 1, []);
  }

  /** Command 2 and barrier 3, which looks like part of what has to drain, are on the list. */
  ghost predicate BarrierMixed(s: State, tail: seq<Id>) {
    && Sound(s) && s.orig == Some(1) && s.ordseq == OrdSeq(true, false, true, true, true) && !s.ordered.byTag
    && s.list == tail && User(2) in s.rq && User(3) in s.rq && s.rq[User(2)].kind != Fs
    && IsBarrier(s.rq[User(3)]) && s.rq[User(3)].color == s.rq[User(1)].color
  }

  lemma BarrierJoins(s: State, s1: State, c: Request) returns (s2: State)
    requires EmptyWaits(s, 1, []) && s.rq.Keys == {Pre, Bar, Post, User(0), User(1)} && s.ordcolor
    requires !s.rq[User(1)].color
    requires WithCommand(s, s1, 2) && IsBarrier(c)
    ensures Sound(s1) && Enabled(s1, LAdd(3, c, AtBack)) && s2 == Apply(s1, LAdd(3, c, AtBack))
    ensures BarrierMixed(s2, [User(2), User(3)])
    ensures s2.h.log == s1.h.log + [Submitted(3, true, true, c.sectors == 0)]
  {
    hide Enabled, Apply;
    s2 := Submits(s1, 3, c, AtBack);
  }

  lemma CommandFetched(s: State) returns (s1: State, s2: State)
    requires BarrierMixed(s, [User(2), User(3)])
    ensures Enabled(s, LPeek) && s1 == Apply(s, LPeek)
    ensures Sound(s1) && Enabled(s1, LStart(0)) && s2 == Apply(s1, LStart(0)) && BarrierMixed(s2, [User(3)])
    ensures s2.h.log == s.h.log + [Issued(User(2), None)]
  {
    assert DoOrdered(s) == (s, Issue);
    s1, s2 := Fetches(s, User(2));
  }

  lemma BarrierFetched(s: State) returns (s1: State, s2: State)
    requires BarrierMixed(s, [User(3)])
    ensures DoOrdered(s) == (s, Issue)
    ensures Enabled(s, LPeek) && s1 == Apply(s, LPeek)
    ensures Sound(s1) && Enabled(s1, LStart(0)) && s2 == Apply(s1, LStart(0))
    ensures s2.h.log == s.h.log + [Issued(User(3), None)]
  {
    assert DoOrdered(s) == (s, Issue);
    s1, s2 := Fetches(s, User(3));
  }

  lemma MixedUp(flushKind: Kind, scrub: bool, w: Request, b: Request, r: Request, where: Where, c: Request)
      returns (states: seq<State>, labels: seq<Label>, s: State)
    requires flushKind != Fs && w.kind == Fs && !w.hard && IsBarrier(b) && b.sectors == 0 && IsBarrier(c)
    requires Flagged(scrub, r, where)
    ensures RunTo(states, labels, s) && |states| > 0 && states[0] == Idle0(ORDERED_TAG, scrub, flushKind)
    ensures OnlyOffender(labels, LAdd(2, r, where)) && BarrierMixed(s, [User(3)]) && AsBarrier(s.h.log, 3)
  {
    hide RunTo, Apply, Enabled, OnlyOffender, BarrierMixed, Usual, WithCommand;
    var off, add := LAdd(2, r, where), LAdd(3, c, AtBack);
    var st, lb, s5 := EmptyDrains(flushKind, scrub, w, b);
    var s6;
    states, labels, s6 := CommandEnters(st, lb, s5, 2, r, where);
    var s7 := BarrierJoins(s5, s6, c);
    var s8, s9 := CommandFetched(s7);
    assert Sound(s7) by { MixedSound(s7, [User(2), User(3)]); }
    Extend(states, labels, s6, add);
    Extend(states + [s7], labels + [add], s7, LPeek);
    Extend(states + [s7] + [s8], labels + [add] + [LPeek], s8, LStart(0));
    assert Usual(add) && Usual(LPeek) && Usual(LStart(0)) by { UsualBarrier(c); }
    OffenderMore(labels, off, add);
    OffenderMore(labels + [add], off, LPeek);
    OffenderMore(labels + [add] + [LPeek], off, LStart(0));
    states, labels, s := states + [s7] + [s8] + [s9], labels + [add] + [LPeek] + [LStart(0)], s9;
    assert s.h.log[|s6.h.log|] == Submitted(3, true, true, c.sectors == 0);
  }

  lemma UsualBarrier(c: Request)
    requires IsBarrier(c)
    ensures Usual(LAdd(3, c, AtBack)) && Usual(LPeek) && Usual(LStart(0))
  {
  }

  lemma MixedSound(s: State, tail: seq<Id>)
    requires BarrierMixed(s, tail)
    ensures Sound(s)
  {
  }

  /** Whichever request that is not a filesystem request carries the hard-barrier flag, wherever it is
      inserted, and whatever the two barriers are, as long as the first one is without data: under
      ordering by tag there is a run in which the second barrier is itself offered and issued, outside
      any sequence. */
  lemma TagConfusion(flushKind: Kind, scrub: bool, w: Request, b: Request, r: Request, where: Where, c: Request)
      returns (states: seq<State>, labels: seq<Label>, late: State)
    requires flushKind != Fs && w.kind == Fs && !w.hard && IsBarrier(b) && b.sectors == 0 && IsBarrier(c)
    requires Flagged(scrub, r, where)
    ensures Run(states, labels) && states[0] == Idle0(ORDERED_TAG, scrub, flushKind)
    ensures OnlyOffender(labels, LAdd(2, r, where))
    ensures late in states && Sound(late) && late.list != [] && late.list[0] in late.rq
    ensures IsBarrier(late.rq[late.list[0]]) && late.list[0] == User(3) && DoOrdered(late) == (late, Issue)
    ensures !OnceLog(ORDERED_TAG, states[|labels|].h.log)
  {
    hide Apply, Enabled, OnceLog, Run, OnlyOffender, DoOrdered, AsBarrier;
    var off := LAdd(2, r, where);
    var st, lb, s := MixedUp(flushKind, scrub, w, b, r, where, c);
    LastState(st, lb, s);
    var s1, s2 := BarrierFetched(s);
    LogMixed(s.h.log);
    Extend(st, lb, s, LPeek);
    Extend(st + [s1], lb + [LPeek], s1, LStart(0));
    OffenderMore(lb, off, LPeek);
    OffenderMore(lb + [LPeek], off, LStart(0));
    states, labels, late := st + [s1] + [s2], lb + [LPeek] + [LStart(0)], s;
  }

  lemma LogMixed(log: seq<Event>)
    requires AsBarrier(log, 3)
    ensures !OnceLog(ORDERED_TAG, log + [Issued(User(3), None)])
  {
    var l := log + [Issued(User(3), None)];
    var k := |log|;
    assert l[..k] == log;
    assert !OnceEvent(ORDERED_TAG, l[..k], l[k]);
  }
}
