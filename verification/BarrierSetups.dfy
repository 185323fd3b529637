/** Building runs of the barrier protocol step by step, for the theorems that show what its conditions
    are needed for. */
module BarrierSetups {
  import opened Options
  import opened BarrierModel
  import opened BarrierUsers
  import opened BarrierProgress

  // ---------------------------------------------------------------- building runs

  function Idle0(mode: Ordered, scrub: bool, flushKind: Kind): State {
    State(mode, scrub, flushKind,
          map[Pre := FlushRequest(flushKind, Free), Bar := FlushRequest(Fs, Free),
              Post := FlushRequest(flushKind, Free)],
          [], 0, false, SEQ_NONE, ORDERED_NONE, 0, None, History(0, 0, [], []))
  }

  ghost predicate RunTo(states: seq<State>, labels: seq<Label>, s: State) {
    Run(states, labels) && states[|labels|] == s
  }

  lemma Extend(states: seq<State>, labels: seq<Label>, s: State, l: Label)
    requires RunTo(states, labels, s) && Sound(s) && Enabled(s, l)
    ensures RunTo(states + [Apply(s, l)], labels + [l], Apply(s, l))
  {
    hide Init, Sound, Enabled, Apply;
  }

  lemma EmptyRun(mode: Ordered, scrub: bool, flushKind: Kind)
    requires ValidMode(mode) && flushKind != Fs
    ensures RunTo([Idle0(mode, scrub, flushKind)], [], Idle0(mode, scrub, flushKind))
  {
  }

  function Plain(hard: bool, empty: bool): Request {
    Request(Free, Fs, hard, false, false, false, true, true, false, 0, if empty then 0 else 8, 0)
  }

  /** Submitting a request. */
  lemma Submits(s: State, n: nat, r: Request, where: Where) returns (s1: State)
    requires Sound(s) && AddOk(s, n, r, where)
    ensures Enabled(s, LAdd(n, r, where)) && s1 == Apply(s, LAdd(n, r, where)) && Sound(s1)
    ensures s1 == s.(rq := s.rq[User(n) := Entered(s, r, Placement(r, where))],
                     list := Joined(s.list, User(n), Placement(r, where)), ordcolor := s.ordcolor != r.hard, h := s1.h)
    ensures s1.h.log == s.h.log + [Submitted(n, r.kind == Fs, IsBarrier(r), r.sectors == 0)]
  {
    s1 := Add(s, n, r, where);
  }

  /** The driver asks for the head of the list and starts it. */
  lemma Fetches(s: State, id: Id) returns (s1: State, s2: State)
    requires Sound(s) && s.list != [] && s.list[0] == id && DoOrdered(s) == (s, Issue)
    requires id.User? && s.orig != Some(id.n) && id !in s.list[1..]
    requires s.ordseq == SEQ_NONE ==> forall x :: x in s.list ==> x.User?
    ensures Enabled(s, LPeek) && s1 == Apply(s, LPeek) && s1 == MarkHead(s)
    ensures Sound(s1) && Enabled(s1, LStart(0)) && s2 == Apply(s1, LStart(0)) && Sound(s2)
    ensures var r := s.rq[id].(started := true, place := Driver);
            s2 == s.(rq := s.rq[id := r], list := s.list[1..], inFlight := s.inFlight + Weight(s.scrub, r), h := s2.h)
    ensures s2.h.log == s.h.log + [Issued(id, None)]
  {
    hide DoOrdered, Remove, MarkHead, Start, Weight;
    assert Peek(s) == MarkHead(s);
    s1 := MarkHead(s);
    s2 := StartsHead(s, id);
    StaysSound(s, s1, s1.rq[id]) by {
      assert s1 == s.(rq := s.rq[id := s.rq[id].(started := true)]) by { MarksHead(s); }
    }
    StaysSound(s, s2, s2.rq[id]);
  }

  lemma MarksHead(s: State)
    requires s.list != [] && s.list[0] in s.rq
    ensures MarkHead(s) == s.(rq := s.rq[s.list[0] := s.rq[s.list[0]].(started := true)])
  {
  }

  lemma StartsHead(s: State, id: Id) returns (s2: State)
    requires s.list != [] && s.list[0] == id && id in s.rq && id.User?
    ensures var s1 := MarkHead(s); s1.list == s.list && id in s1.rq && s1.rq[id].started && s2 == Start(s1, 0)
    ensures var r := s.rq[id].(started := true, place := Driver);
            s2 == s.(rq := s.rq[id := r], list := s.list[1..], inFlight := s.inFlight + Weight(s.scrub, r), h := s2.h)
    ensures s2.h.log == s.h.log + [Issued(id, None)]
  {
    var s1 := MarkHead(s);
    s2 := Start(s1, 0);
    assert Remove(s1.list, 0) == s.list[1..];
    assert s2.rq == s.rq[id := s.rq[id].(started := true, place := Driver)];
  }

  /** A step that changes one submitted request, and perhaps takes the head off the list. */
  lemma StaysSound(s: State, s': State, r: Request)
    requires Sound(s) && s.list != [] && s.list[0].User? && s.orig != Some(s.list[0].n)
    requires s'.rq == s.rq[s.list[0] := r] && (s'.list == s.list || s'.list == s.list[1..])
    requires s'.orig == s.orig && s'.ordseq == s.ordseq
    requires s.ordseq == SEQ_NONE ==> forall x :: x in s.list ==> x.User?
    ensures Sound(s')
  {
  }

  /** A label that is out of the ordinary in no respect. */
  predicate Usual(l: Label) { FsBarriersOnly(l) && !Passable(l) }

  /** `off` is submitted, and everything else is usual. */
  ghost predicate OnlyOffender(labels: seq<Label>, off: Label) {
    off in labels && !Passable(off) && forall l :: l in labels && l != off ==> Usual(l)
  }

  lemma OffenderMore(labels: seq<Label>, off: Label, l: Label)
    requires OnlyOffender(labels, off) && Usual(l)
    ensures OnlyOffender(labels + [l], off)
  {
  }

  lemma OffenderAdded(labels: seq<Label>, off: Label)
    requires !Passable(off) && forall l :: l in labels ==> Usual(l)
    ensures OnlyOffender(labels + [off], off)
  {
  }

  /** A request that carries the hard-barrier flag and is no filesystem request, at an insertion point
      where it may go. */
  predicate Flagged(scrub: bool, r: Request, where: Where) {
    r.hard && r.kind != Fs && where != InSort && (where == InVerify ==> scrub && r.kind == Pc)
  }

  lemma RunOf(states: seq<State>, labels: seq<Label>, s: State)
    requires RunTo(states, labels, s)
    ensures Run(states, labels)
  {
  }

  lemma LastState(states: seq<State>, labels: seq<Label>, s: State)
    requires RunTo(states, labels, s)
    ensures s in states && |states| == |labels| + 1
  {
  }

  // ---------------------------------------------------------------- a command passes through

  /** The queue with command `n` on the list and its colour toggled, and nothing else changed. */
  ghost predicate WithCommand(s: State, s': State, n: nat) {
    && Sound(s') && User(n) in s'.rq
    && s' == s.(rq := s.rq[User(n) := s'.rq[User(n)]], list := [User(n)], ordcolor := !s.ordcolor, h := s'.h)
    && s'.rq[User(n)].kind != Fs && s'.rq[User(n)].place == Listed && !s'.rq[User(n)].started
  }

  ghost predicate Unscheduled(s: State) { forall id :: id in s.rq ==> s.rq[id].place != Sched }

  lemma CommandAt(s: State, n: nat, r: Request, where: Where) returns (s1: State, s2: State)
    requires Sound(s) && s.list == [] && Unscheduled(s) && User(n) !in s.rq && Flagged(s.scrub, r, where)
    ensures Enabled(s, LAdd(n, r, where)) && s1 == Apply(s, LAdd(n, r, where))
    ensures if where == InVerify then
              Sound(s1) && Enabled(s1, LDispatch(User(n), 0)) && s2 == Apply(s1, LDispatch(User(n), 0))
            else s2 == s1
    ensures WithCommand(s, s2, n)
  {
    s1 := Submits(s, n, r, where);
    s2 := s1;
    if where == InVerify {
      s2 := Dispatch(s1, User(n), 0);
      assert s2.list == [User(n)];
      assert s2.rq == s.rq[User(n) := s2.rq[User(n)]];
    }
  }

  /** A flagged command is submitted, and dispatched if it has to be. */
  lemma CommandEnters(st: seq<State>, lb: seq<Label>, s: State, n: nat, r: Request, where: Where)
      returns (states: seq<State>, labels: seq<Label>, s': State)
    requires RunTo(st, lb, s) && |st| > 0 && forall l :: l in lb ==> Usual(l)
    requires Sound(s) && s.list == [] && Unscheduled(s) && User(n) !in s.rq && Flagged(s.scrub, r, where)
    ensures RunTo(states, labels, s') && |states| > 0 && states[0] == st[0]
    ensures OnlyOffender(labels, LAdd(n, r, where)) && WithCommand(s, s', n)
    ensures forall l :: l in labels ==> l in lb || l == LAdd(n, r, where) || l.LDispatch?
  {
    hide RunTo, Apply, Enabled, WithCommand, OnlyOffender, Sound;
    var off := LAdd(n, r, where);
    var s1, s2 := CommandAt(s, n, r, where);
    Extend(st, lb, s, off);
    OffenderAdded(lb, off);
    states, labels, s' := st + [s1], lb + [off], s2;
    if where == InVerify {
      var turn := LDispatch(User(n), 0);
      Extend(states, labels, s1, turn);
      OffenderMore(labels, off, turn);
      states, labels := states + [s2], labels + [turn];
    }
  }

  /** The command is started, and completes unless it is kept. */
  lemma CommandDone(s: State, n: nat) returns (s1: State, s2: State, s3: State)
    requires Sound(s) && s.list == [User(n)] && s.orig != Some(n) && s.rq[User(n)].kind != Fs && !s.rq[User(n)].started
    requires s.ordseq == SEQ_NONE || CurSeq(s.ordseq) != DRAIN
    ensures Enabled(s, LPeek) && s1 == Apply(s, LPeek) && Sound(s1)
    ensures Enabled(s1, LStart(0)) && s2 == Apply(s1, LStart(0)) && Sound(s2)
    ensures Enabled(s2, LComplete(User(n), 0)) && s3 == Apply(s2, LComplete(User(n), 0)) && Sound(s3)
    ensures s3 == s.(rq := s.rq[User(n) := s3.rq[User(n)]], list := [], h := s3.h) && s3.rq[User(n)].place == Free
  {
    assert DoOrdered(s) == (s, Issue);
    s1, s2 := Fetches(s, User(n));
    s3 := Completes(s2, n);
    assert s3.rq == s.rq[User(n) := s3.rq[User(n)]];
  }

  lemma Completes(s: State, n: nat) returns (s1: State)
    requires Sound(s) && User(n) in s.rq && s.rq[User(n)].place == Driver && s.orig != Some(n)
    requires s.ordseq == SEQ_NONE || CurSeq(s.ordseq) != DRAIN
    ensures Enabled(s, LComplete(User(n), 0)) && s1 == Apply(s, LComplete(User(n), 0)) && Sound(s1)
    ensures var r := s.rq[User(n)].(place := Free);
            s1 == s.(rq := s.rq[User(n) := r], inFlight := s.inFlight - Weight(s.scrub, s.rq[User(n)]), h := s1.h)
  {
    s1 := Release(s, User(n), 0);
    assert Sound(s1) && !Drained(s1);
  }

  /** The command comes and goes: only the colour has changed. */
  ghost predicate Passed(s: State, s': State, n: nat) {
    && Sound(s') && User(n) in s'.rq && s'.rq[User(n)].place == Free
    && s' == s.(rq := s.rq[User(n) := s'.rq[User(n)]], ordcolor := !s.ordcolor, h := s'.h)
  }

  lemma CommandPasses(st: seq<State>, lb: seq<Label>, s: State, n: nat, r: Request, where: Where)
      returns (states: seq<State>, labels: seq<Label>, s': State)
    requires RunTo(st, lb, s) && |st| > 0 && forall l :: l in lb ==> Usual(l)
    requires Sound(s) && s.list == [] && Unscheduled(s) && User(n) !in s.rq && Flagged(s.scrub, r, where)
    requires s.orig != Some(n) && (s.ordseq == SEQ_NONE || CurSeq(s.ordseq) != DRAIN)
    ensures RunTo(states, labels, s') && |states| > 0 && states[0] == st[0]
    ensures OnlyOffender(labels, LAdd(n, r, where)) && Passed(s, s', n)
    ensures forall l :: l in labels ==> l in lb || !l.LRequeue?
  {
    hide RunTo, Apply, Enabled, OnlyOffender, Sound;
    var off := LAdd(n, r, where);
    var s1;
    states, labels, s1 := CommandEnters(st, lb, s, n, r, where);
    var s2, s3, s4 := CommandDone(s1, n);
    var done := LComplete(User(n), 0);
    Extend(states, labels, s1, LPeek);
    Extend(states + [s2], labels + [LPeek], s2, LStart(0));
    Extend(states + [s2] + [s3], labels + [LPeek] + [LStart(0)], s3, done);
    OffenderMore(labels, off, LPeek);
    OffenderMore(labels + [LPeek], off, LStart(0));
    OffenderMore(labels + [LPeek] + [LStart(0)], off, done);
    states, labels := states + [s2] + [s3] + [s4], labels + [LPeek] + [LStart(0)] + [done];
    s' := s4;
    assert s'.rq == s.rq[User(n) := s'.rq[User(n)]];
  }

  // ---------------------------------------------------------------- one stage at the driver

  /** The only stage of barrier 0: the body, or the pre-flush of an empty barrier. */
  function Only(mode: Ordered): Id { if mode.doPre then Pre else Bar }

  /** Barrier 0 is alone on an idle queue. */
  ghost predicate BarrierWaiting(s: State, mode: Ordered) {
    && Sound(s) && s.list == [User(0)] && s.ordcolor && s.ordseq == SEQ_NONE && s.orig == None && s.inFlight == 0
    && s.mode == mode && User(0) in s.rq
    && (var r := s.rq[User(0)];
        (r.sectors == 0 <==> mode.doPre) && r.kind == Fs && r.hard && !r.color && !r.started && r.place == Listed)
    && Calm(s, mode)
  }

  /** Nothing else has been submitted, and only that stage may be at the driver. */
  ghost predicate Calm(s: State, mode: Ordered) {
    && s.rq.Keys == {Pre, Bar, Post, User(0)}
    && forall id :: id in s.rq ==> s.rq[id].place != Sched && (s.rq[id].place == Driver ==> id == Only(mode))
  }

  /** The only stage of barrier 0 is in progress. */
  predicate Held(s: State, mode: Ordered) {
    && Sound(s) && s.orig == Some(0) && s.ordseq == OrdSeq(true, true, Only(mode) != Pre, Only(mode) != Bar, true)
    && s.ordered.byTag == mode.byTag && !s.rq[User(0)].color
  }

  lemma BarrierAdded(mode: Ordered, scrub: bool, flushKind: Kind) returns (s1: State, l: Label)
    requires ValidMode(mode) && mode != ORDERED_NONE && flushKind != Fs
    ensures var s := Idle0(mode, scrub, flushKind);
            Sound(s) && Enabled(s, l) && s1 == Apply(s, l) && Usual(l) && l.LAdd?
    ensures BarrierWaiting(s1, mode) && s1.scrub == scrub && s1.h.log == [Submitted(0, true, true, mode.doPre)]
  {
    hide Enabled, Apply, Sound;
    var s0 := Idle0(mode, scrub, flushKind);
    l := LAdd(0, Plain(true, mode.doPre), AtBack);
    IdleFacts(mode, scrub, flushKind, Plain(true, mode.doPre));
    s1 := Submits(s0, 0, Plain(true, mode.doPre), AtBack);
  }

  lemma IdleFacts(mode: Ordered, scrub: bool, flushKind: Kind, r: Request)
    requires r.kind == Fs
    ensures var s0 := Idle0(mode, scrub, flushKind); Sound(s0) && AddOk(s0, 0, r, AtBack)
  {
  }

  lemma BarrierExpanded(s1: State, mode: Ordered)
    requires BarrierWaiting(s1, mode) && ValidMode(mode) && mode != ORDERED_NONE
    ensures var x := Expand(s1);
            && x.list == [Only(mode)] && !MustWait(x) && x.orig == Some(0) && x.ordcolor
            && x.ordered.byTag == mode.byTag
            && Skipped(x.ordered, false) == OrdSeq(false, true, Only(mode) != Pre, Only(mode) != Bar, true)
            && x.ordseq == OrdSeq(true, false, false, false, false) && x.orderr == 0
            && Pre in x.rq && Bar in x.rq && Post in x.rq && User(0) in x.rq && !x.rq[User(0)].color
            && x.h.log == s1.h.log && x.scrub == s1.scrub && Calm(x, mode)
  {
    hide Calm, FlushRequest, BodyRequest;
    ExpandedCalm(s1, mode);
  }

  lemma ExpandedCalm(s: State, mode: Ordered)
    requires Sound(s) && s.list == [User(0)] && Calm(s, mode)
    ensures Calm(Expand(s), mode)
  {
    hide EffectiveOrder, Front, Weight;
  }

  lemma StageOffered(s1: State, mode: Ordered)
    requires BarrierWaiting(s1, mode) && ValidMode(mode) && mode != ORDERED_NONE
    ensures var s := Peek(s1);
            && Held(s, mode) && s.list == [Only(mode)] && s.rq[Only(mode)].started && Calm(s, mode)
            && s.ordcolor && s.h.log == s1.h.log && s.scrub == s1.scrub
  {
    hide Expand, MustWait, Calm;
    BarrierExpanded(s1, mode);
    var x := Expand(s1);
    var o := OrdSeq(true, true, Only(mode) != Pre, Only(mode) != Bar, true);
    assert Or(x.ordseq, Skipped(x.ordered, false)) == o;
    assert StartOrdered(s1) == (x.(ordseq := o), Issue);
    assert Peek(s1) == MarkHead(x.(ordseq := o));
    CalmMark(x, mode, o);
  }

  lemma CalmMark(s: State, mode: Ordered, o: OrdSeq)
    requires Calm(s, mode) && s.list != [] && s.list[0] in s.rq
    ensures Calm(MarkHead(s.(ordseq := o)), mode)
  {
  }

  lemma StageFetched(s2: State, mode: Ordered) returns (s3: State)
    requires Held(s2, mode) && s2.list == [Only(mode)] && s2.rq[Only(mode)].started && Calm(s2, mode)
    ensures Enabled(s2, LStart(0)) && s3 == Apply(s2, LStart(0))
    ensures Only(mode) in s3.rq && s3.rq[Only(mode)].place == Driver
    ensures Held(s3, mode) && s3.list == [] && s3.ordcolor == s2.ordcolor && s3.scrub == s2.scrub && Calm(s3, mode)
    ensures s3.h.log == s2.h.log + [Issued(Only(mode), Some(0))]
  {
    s3 := Apply(s2, LStart(0));
  }

  /** The stage is at the driver, and nothing else is around. */
  lemma StageAtDriver(mode: Ordered, scrub: bool, flushKind: Kind)
      returns (states: seq<State>, labels: seq<Label>, s: State)
    requires ValidMode(mode) && mode != ORDERED_NONE && flushKind != Fs
    ensures RunTo(states, labels, s) && states[0].mode == mode
    ensures forall l :: l in labels ==> Usual(l) && !l.LRequeue?
    ensures Held(s, mode) && s.list == [] && s.ordcolor && s.scrub == scrub && Calm(s, mode)
    ensures Only(mode) in s.rq && s.rq[Only(mode)].place == Driver
    ensures s.h.log == [Submitted(0, true, true, mode.doPre), Issued(Only(mode), Some(0))]
  {
    hide RunTo, Apply, Enabled, Init, BarrierWaiting, Held, Calm, Sound, Only, Peek, Usual, Idle0, ValidMode;
    var s0 := Idle0(mode, scrub, flushKind);
    IdleMode(mode, scrub, flushKind);
    var s1, l := BarrierAdded(mode, scrub, flushKind);
    EmptyRun(mode, scrub, flushKind);
    Extend([s0], [], s0, l);
    WaitingPeek(s1, mode);
    StageOffered(s1, mode);
    var s2 := Peek(s1);
    Extend([s0] + [s1], [] + [l], s1, LPeek);
    assert Sound(s2) by { HeldSound(s2, mode); }
    s := StageFetched(s2, mode);
    Extend([s0] + [s1] + [s2], [] + [l] + [LPeek], s2, LStart(0));
    assert Usual(LPeek) && Usual(LStart(0)) by { UsualDriver(); }
    states, labels := [s0] + [s1] + [s2] + [s], [] + [l] + [LPeek] + [LStart(0)];
  }

  lemma IdleMode(mode: Ordered, scrub: bool, flushKind: Kind)
    ensures Idle0(mode, scrub, flushKind).mode == mode
  {
  }

  lemma UsualDriver()
    ensures Usual(LPeek) && Usual(LStart(0))
  {
  }

  lemma WaitingPeek(s: State, mode: Ordered)
    requires BarrierWaiting(s, mode)
    ensures Sound(s) && Enabled(s, LPeek) && Apply(s, LPeek) == Peek(s)
  {
  }

  lemma HeldSound(s: State, mode: Ordered)
    requires Held(s, mode)
    ensures Sound(s)
  {
  }

  // ---------------------------------------------------------------- a write at the driver

  ghost predicate ProxiesIdle(s: State) {
    Pre in s.rq && Bar in s.rq && Post in s.rq && s.rq[Pre].place == s.rq[Bar].place == s.rq[Post].place == Free
  }

  /** Write 0 is at the driver of an otherwise idle queue. */
  ghost predicate WriteOut(s: State, mode: Ordered, scrub: bool) {
    && Sound(s) && s.mode == mode && s.scrub == scrub && s.flushKind != Fs
    && s.list == [] && s.ordseq == SEQ_NONE && s.orig == None && s.inFlight == 1 && !s.ordcolor
    && s.rq.Keys == {Pre, Bar, Post, User(0)} && ProxiesIdle(s)
    && (var w := s.rq[User(0)]; w.place == Driver && w.started && w.kind == Fs && !w.hard && !w.color)
  }

  /** Write 0 is on the list of an otherwise idle queue. */
  ghost predicate WriteIn(s: State, mode: Ordered, scrub: bool, started: bool) {
    && Sound(s) && s.mode == mode && s.scrub == scrub && s.flushKind != Fs
    && s.list == [User(0)] && s.ordseq == SEQ_NONE && s.orig == None && s.inFlight == 0 && !s.ordcolor
    && s.rq.Keys == {Pre, Bar, Post, User(0)} && ProxiesIdle(s)
    && (var w := s.rq[User(0)]; w.place == Listed && w.started == started && w.kind == Fs && !w.hard && !w.color)
  }

  lemma WriteEnters(mode: Ordered, scrub: bool, flushKind: Kind, w: Request) returns (s1: State)
    requires ValidMode(mode) && flushKind != Fs && w.kind == Fs && !w.hard
    ensures var s0 := Idle0(mode, scrub, flushKind);
            && Sound(s0) && Enabled(s0, LAdd(0, w, AtBack)) && s1 == Apply(s0, LAdd(0, w, AtBack))
    ensures WriteIn(s1, mode, scrub, false)
  {
    s1 := Apply(Idle0(mode, scrub, flushKind), LAdd(0, w, AtBack));
  }

  lemma WriteOffered(s: State, mode: Ordered, scrub: bool) returns (s1: State)
    requires WriteIn(s, mode, scrub, false)
    ensures Enabled(s, LPeek) && s1 == Apply(s, LPeek) && WriteIn(s1, mode, scrub, true)
  {
    assert DoOrdered(s) == (s, Issue);
    s1 := MarkHead(s);
  }

  lemma WriteStarted(s: State, mode: Ordered, scrub: bool) returns (s1: State)
    requires WriteIn(s, mode, scrub, true)
    ensures Enabled(s, LStart(0)) && s1 == Apply(s, LStart(0)) && WriteOut(s1, mode, scrub)
  {
    s1 := Start(s, 0);
  }

  lemma WriteAtDriver(mode: Ordered, scrub: bool, flushKind: Kind, w: Request)
      returns (states: seq<State>, labels: seq<Label>, s: State)
    requires ValidMode(mode) && flushKind != Fs && w.kind == Fs && !w.hard
    ensures RunTo(states, labels, s) && states[0] == Idle0(mode, scrub, flushKind)
    ensures WriteOut(s, mode, scrub) && labels == [LAdd(0, w, AtBack), LPeek, LStart(0)]
  {
    hide RunTo, Apply, Enabled, WriteOut;
    var s0 := Idle0(mode, scrub, flushKind);
    var s1 := WriteEnters(mode, scrub, flushKind, w);
    var s2 := WriteOffered(s1, mode, scrub);
    var s3 := WriteStarted(s2, mode, scrub);
    EmptyRun(mode, scrub, flushKind);
    Extend([s0], [], s0, LAdd(0, w, AtBack));
    Extend([s0] + [s1], [] + [LAdd(0, w, AtBack)], s1, LPeek);
    Extend([s0] + [s1] + [s2], [] + [LAdd(0, w, AtBack)] + [LPeek], s2, LStart(0));
    states, labels, s := [s0] + [s1] + [s2] + [s3], [] + [LAdd(0, w, AtBack)] + [LPeek] + [LStart(0)], s3;
  }

  /** Barrier `n`, without data, waits for write 0, and `tail` waits for the barrier. */
  ghost predicate EmptyWaits(s: State, n: nat, tail: seq<Id>) {
    && Sound(s) && s.orig == Some(n) && s.ordseq == OrdSeq(true, false, true, true, true) && !s.ordered.byTag
    && s.list == tail && s.inFlight == 1 && ProxiesIdle(s) && n != 0
    && User(0) in s.rq && s.rq[User(0)].place == Driver && s.rq[User(0)].started && s.rq[User(0)].kind == Fs
    && s.rq[User(n)].place == Stashed
  }

  /** `start_ordered` finds nothing to do but to wait. */
  lemma EmptyStarts(s: State, n: nat, tail: seq<Id>)
    requires Sound(s) && s.list == [User(n)] + tail && s.ordseq == SEQ_NONE && s.orig == None && s.inFlight == 1
    requires ProxiesIdle(s)
    requires s.mode == ORDERED_DRAIN || s.mode == ORDERED_TAG
    requires var b := s.rq[User(n)]; b.kind == Fs && b.hard && b.sectors == 0 && !b.started
    requires n != 0 && User(0) in s.rq && s.rq[User(0)].place == Driver && s.rq[User(0)].started
    requires s.rq[User(0)].kind == Fs
    ensures Enabled(s, LPeek) && EmptyWaits(Apply(s, LPeek), n, tail)
    ensures var t := Apply(s, LPeek);
            && t.scrub == s.scrub && t.ordcolor == s.ordcolor && t.rq.Keys == s.rq.Keys
            && t.rq[User(n)].color == s.rq[User(n)].color
            && forall id :: id in s.rq && id.User? && id != User(n) ==> t.rq[id] == s.rq[id]
  {
    hide Expand;
    var x := Expand(s);
    EmptyExpanded(s, n, tail);
    assert Skipped(x.ordered, MustWait(x)) == OrdSeq(false, false, true, true, true);
    assert StartOrdered(s) == (x.(ordseq := OrdSeq(true, false, true, true, true)), Hold);
  }

  lemma EmptyExpanded(s: State, n: nat, tail: seq<Id>)
    requires Sound(s) && s.list == [User(n)] + tail && s.ordseq == SEQ_NONE && s.inFlight == 1
    requires s.mode == ORDERED_DRAIN || s.mode == ORDERED_TAG
    requires var b := s.rq[User(n)]; b.kind == Fs && b.hard && b.sectors == 0 && !b.started
    ensures var x := Expand(s);
            && x.list == tail && x.ordered.byDrain && !x.ordered.byTag && !x.ordered.doPre && !x.ordered.doBar
            && !x.ordered.doPost
            && x.inFlight == 1 && x.orig == Some(n) && x.ordseq == OrdSeq(true, false, false, false, false)
            && x.orderr == 0
            && ProxiesIdle(x) && User(n) in x.rq && x.rq[User(n)] == s.rq[User(n)].(place := Stashed)
            && x.scrub == s.scrub && x.ordcolor == s.ordcolor && x.rq.Keys == s.rq.Keys
            && forall id :: id in s.rq && id.User? && id != User(n) ==> x.rq[id] == s.rq[id]
  {
    hide FlushRequest, BodyRequest;
    assert FlushRequest(s.flushKind, Free).place == Free && BodyRequest(s.rq[User(n)], Free).place == Free by {
      Unused(s.flushKind, s.rq[User(n)]);
    }
  }

  lemma Unused(kind: Kind, b: Request)
    ensures FlushRequest(kind, Free).place == Free && BodyRequest(b, Free).place == Free
  {
  }

  lemma SoundOf(s: State, mode: Ordered, scrub: bool)
    requires WriteOut(s, mode, scrub)
    ensures Sound(s)
  {
  }

  lemma WaitsSound(s: State, n: nat, tail: seq<Id>)
    requires EmptyWaits(s, n, tail)
    ensures Sound(s)
  {
  }
}
