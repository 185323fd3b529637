/** The conditions for a barrier in progress not to get stuck are needed: for each there are runs that
    break it, do nothing else out of the ordinary, and leave the queue with nothing to issue and nothing
    to complete. */
module BarrierStalls {
  import opened Options
  import opened BarrierModel
  import opened BarrierDrain
  import opened BarrierUsers
  import opened BarrierProgress
  import opened BarrierQueue
  import opened BarrierSetups

  // ---------------------------------------------------------------- an empty barrier that never drains

  /** Barrier 1 without data, command 2 and write 3 have been submitted; only the barrier is listed. */
  ghost predicate AllSubmitted(s: State, mode: Ordered, b: Request, r: Request) {
    && Sound(s) && s.mode == mode && s.list == [User(1)] && s.ordseq == SEQ_NONE && s.orig == None && s.inFlight == 1
    && s.rq.Keys == {Pre, Bar, Post, User(0), User(1), User(2), User(3)} && ProxiesIdle(s)
    && (var w := s.rq[User(0)]; w.place == Driver && w.started && w.kind == Fs && !w.hard)
    && (var x := s.rq[User(1)]; x.kind == Fs && x.hard && x.sectors == 0 && !x.started && !x.color && x.place == Listed)
    && (var x := s.rq[User(2)]; x.kind == Pc && !Stops(x) && x.place == Sched)
    && (var x := s.rq[User(3)]; x.kind == Fs && !Stops(x) && x.color && x.place == Sched)
  }

  /** A write where barrier `b` stands, in the direction of command `r`. */
  function Passing(b: Request, r: Request): Request {
    Plain(false, false).(write := r.write, discard := r.discard, pos := b.pos)
  }

  /** Submitting the empty barrier makes its own sector the boundary of the sorted dispatch.  From there
      the write goes before the command exactly when the command is elsewhere. */
  lemma PassesCommand(b: Request, r: Request)
    requires b.sectors == 0 && !Stops(r)
    ensures Passes(b.pos + b.sectors, Passing(b, r), r) <==> r.pos != b.pos
  {
  }

  /** Barrier 1 without data and command 2 have been submitted. */
  ghost predicate TwoSubmitted(s: State, mode: Ordered) {
    && Sound(s) && s.mode == mode && s.list == [User(1)] && s.ordseq == SEQ_NONE && s.orig == None && s.inFlight == 1
    && s.ordcolor
    && s.rq.Keys == {Pre, Bar, Post, User(0), User(1), User(2)} && ProxiesIdle(s)
    && (var w := s.rq[User(0)]; w.place == Driver && w.started && w.kind == Fs && !w.hard)
    && (var x := s.rq[User(1)]; x.kind == Fs && x.hard && x.sectors == 0 && !x.started && !x.color && x.place == Listed)
    && (var x := s.rq[User(2)]; x.kind == Pc && !Stops(x) && x.place == Sched)
  }

  lemma BarrierAndCommand(s: State, mode: Ordered, b: Request, r: Request) returns (s1: State, s2: State)
    requires WriteOut(s, mode, true) && IsBarrier(b) && b.sectors == 0 && r.kind == Pc && !r.soft && !r.hard
    ensures Enabled(s, LAdd(1, b, AtBack)) && s1 == Apply(s, LAdd(1, b, AtBack))
    ensures Sound(s1) && Enabled(s1, LAdd(2, r, InVerify)) && s2 == Apply(s1, LAdd(2, r, InVerify))
    ensures TwoSubmitted(s2, mode)
  {
    hide Enabled, Apply, Sound;
    assert Sound(s) by { SoundOf(s, mode, true); }
    s1 := Submits(s, 1, b, AtBack);
    s2 := Submits(s1, 2, r, InVerify);
  }

  lemma WriteSubmitted(s: State, mode: Ordered, b: Request, r: Request) returns (s1: State)
    requires TwoSubmitted(s, mode)
    ensures Sound(s) && Enabled(s, LAdd(3, Passing(b, r), InSort)) && s1 == Apply(s, LAdd(3, Passing(b, r), InSort))
    ensures AllSubmitted(s1, mode, b, r)
  {
    hide Enabled, Apply;
    s1 := Submits(s, 3, Passing(b, r), InSort);
  }

  lemma CommandDispatched(s: State, mode: Ordered, b: Request, r: Request) returns (s1: State)
    requires AllSubmitted(s, mode, b, r)
    ensures Enabled(s, LDispatch(User(2), 1)) && s1 == Apply(s, LDispatch(User(2), 1)) && Sound(s1)
    ensures s1 == s.(rq := s.rq[User(2) := s.rq[User(2)].(place := Listed)], list := [User(1)] + [User(2)])
  {
    s1 := Dispatch(s, User(2), 1);
    assert Insert(s.list, 1, User(2)) == [User(1)] + [User(2)];
  }

  lemma CommandListed(s: State, mode: Ordered, b: Request, r: Request) returns (s1: State, s2: State)
    requires AllSubmitted(s, mode, b, r) && (mode == ORDERED_DRAIN || mode == ORDERED_TAG)
    ensures Enabled(s, LDispatch(User(2), 1)) && s1 == Apply(s, LDispatch(User(2), 1))
    ensures Sound(s1) && Enabled(s1, LPeek) && s2 == Apply(s1, LPeek)
    ensures EmptyWaits(s2, 1, [User(2)]) && s2.rq.Keys == s.rq.Keys && !s2.rq[User(1)].color
    ensures s2.rq[User(2)] == s.rq[User(2)].(place := Listed) && s2.rq[User(3)] == s.rq[User(3)]
  {
    s1 := CommandDispatched(s, mode, b, r);
    hide Apply, Enabled;
    EmptyStarts(s1, 1, [User(2)]);
    s2 := Apply(s1, LPeek);
  }

  /** Write 0 completes; the drain is not over, because of the command at the head. */
  lemma WriteCompletes(s: State) returns (s1: State)
    requires EmptyWaits(s, 1, [User(2)]) && User(2) in s.rq && s.rq[User(2)].kind == Pc
    ensures Enabled(s, LComplete(User(0), 0)) && s1 == Apply(s, LComplete(User(0), 0))
    ensures Sound(s1) && s1 == Release(s, User(0), 0)
  {
    ReleaseKeeps(s);
    s1 := Release(s, User(0), 0);
  }

  lemma ReleaseKeeps(s: State)
    requires Sound(s) && User(0) in s.rq && s.orig.Some? && s.orig.value != 0
    ensures var s1 := Release(s, User(0), 0);
            Sound(s1) && s1.list == s.list && s1.ordseq == s.ordseq && s1.orig == s.orig
  {
  }

  /** Write 3 overtakes the command; nothing is at the driver, and the head is held back. */
  lemma Overtaken(s: State, mode: Ordered) returns (s1: State)
    requires EmptyWaits(s, 1, [User(2)]) && s.rq.Keys == {Pre, Bar, Post, User(0), User(1), User(2), User(3)}
    requires !s.rq[User(1)].color
    requires s.rq[User(2)].kind == Pc && !Stops(s.rq[User(2)]) && s.rq[User(2)].place == Listed
    requires var x := s.rq[User(3)]; x.kind == Fs && !x.hard && x.color && x.place == Sched
    ensures var t := Release(s, User(0), 0);
            Sound(t) && Enabled(t, LDispatch(User(3), 0)) && s1 == Apply(t, LDispatch(User(3), 0))
    ensures Sound(s1) && !NoStall(s1)
  {
    ReleaseKeeps(s);
    var t := Release(s, User(0), 0);
    s1 := Apply(t, LDispatch(User(3), 0));
    assert s1.list[0] == User(3) && s1.orig == Some(1);
    assert !Busy(s1);
    assert DoOrdered(s1).1 == Hold;
  }

  /** Whatever command may be overtaken and whatever barrier is without data: in the modes without a
      pre-flush there is a run that submits just these, and gets stuck.  Its last step is what the
      sorted dispatch does exactly when the two are at different sectors. */
  lemma StuckByPassing(mode: Ordered, flushKind: Kind, b: Request, r: Request)
      returns (states: seq<State>, labels: seq<Label>)
    requires (mode == ORDERED_DRAIN || mode == ORDERED_TAG) && flushKind != Fs
    requires IsBarrier(b) && b.sectors == 0 && r.kind == Pc && !r.soft && !r.hard
    ensures Run(states, labels) && states[0] == Idle0(mode, true, flushKind)
    ensures labels == [LAdd(0, Plain(false, false), AtBack), LPeek, LStart(0), LAdd(1, b, AtBack), LAdd(2, r, InVerify),
                       LAdd(3, Passing(b, r), InSort), LDispatch(User(2), 1), LPeek, LComplete(User(0), 0),
                       LDispatch(User(3), 0)]
    ensures forall l :: l in labels ==> FsBarriersOnly(l) && !l.LRequeue?
    ensures Passes(b.pos + b.sectors, Passing(b, r), r.(started := false)) <==> r.pos != b.pos
    ensures Sound(states[|labels|]) && !NoStall(states[|labels|])
  {
    hide RunTo, Apply, Enabled, NoStall, WriteOut, TwoSubmitted, AllSubmitted, EmptyWaits;
    var st, lb, s3 := WriteAtDriver(mode, true, flushKind, Plain(false, false));
    LastState(st, lb, s3);
    PassesCommand(b, r.(started := false));
    assert Sound(s3) by { SoundOf(s3, mode, true); }
    var s4, s5 := BarrierAndCommand(s3, mode, b, r);
    var s6 := WriteSubmitted(s5, mode, b, r);
    Extend(st, lb, s3, LAdd(1, b, AtBack));
    st, lb := st + [s4], lb + [LAdd(1, b, AtBack)];
    Extend(st, lb, s4, LAdd(2, r, InVerify));
    st, lb := st + [s5], lb + [LAdd(2, r, InVerify)];
    Extend(st, lb, s5, LAdd(3, Passing(b, r), InSort));
    st, lb := st + [s6], lb + [LAdd(3, Passing(b, r), InSort)];
    states, labels := GetsStuck(st, lb, s6, mode, b, r);
    assert Run(states, labels) by { RunOf(states, labels, states[|labels|]); }
  }

  lemma GetsStuck(st: seq<State>, lb: seq<Label>, s6: State, mode: Ordered, b: Request, r: Request)
      returns (states: seq<State>, labels: seq<Label>)
    requires RunTo(st, lb, s6) && |st| > 0 && AllSubmitted(s6, mode, b, r)
    requires (mode == ORDERED_DRAIN || mode == ORDERED_TAG)
    ensures |states| == |labels| + 1 && RunTo(states, labels, states[|labels|]) && states[0] == st[0]
    ensures labels == lb + [LDispatch(User(2), 1)] + [LPeek] + [LComplete(User(0), 0)] + [LDispatch(User(3), 0)]
    ensures Sound(states[|labels|]) && !NoStall(states[|labels|])
  {
    hide RunTo, Apply, Enabled, NoStall, EmptyWaits, Release;
    LastState(st, lb, s6);
    var s7, s8 := CommandListed(s6, mode, b, r);
    assert Sound(s8) by { WaitsSound(s8, 1, [User(2)]); }
    var s9 := WriteCompletes(s8);
    var s10 := Overtaken(s8, mode);
    Extend(st, lb, s6, LDispatch(User(2), 1));
    Extend(st + [s7], lb + [LDispatch(User(2), 1)], s7, LPeek);
    Extend(st + [s7] + [s8], lb + [LDispatch(User(2), 1)] + [LPeek], s8, LComplete(User(0), 0));
    Extend(st + [s7] + [s8] + [s9], lb + [LDispatch(User(2), 1)] + [LPeek] + [LComplete(User(0), 0)], s9,
           LDispatch(User(3), 0));
    states := st + [s7] + [s8] + [s9] + [s10];
    labels := lb + [LDispatch(User(2), 1)] + [LPeek] + [LComplete(User(0), 0)] + [LDispatch(User(3), 0)];
  }


  // ---------------------------------------------------------------- a request put back out of tag order

  /** Barrier 1, with data, is on the list, or its body is. */
  ghost predicate TagBarrier(s: State, body: bool) {
    && Sound(s) && s.mode == ORDERED_TAG && s.inFlight == 1 && s.ordcolor
    && s.rq.Keys == {Pre, Bar, Post, User(0), User(1)} && s.rq[Pre].place == s.rq[Post].place == Free
    && (var w := s.rq[User(0)]; w.place == Driver && w.started && w.kind == Fs && !w.hard && !w.color)
    && (if body then
          && s.list == [Bar] && s.orig == Some(1) && s.ordseq == OrdSeq(true, true, true, false, true)
          && s.rq[Bar].started && s.rq[Bar].kind == Fs && s.rq[User(1)].place == Stashed
        else
          && s.list == [User(1)] && s.orig == None && s.ordseq == SEQ_NONE && s.rq[Bar].place == Free
          && (var b := s.rq[User(1)]; b.kind == Fs && b.hard && b.sectors != 0 && !b.started && b.place == Listed))
  }

  lemma TagEnters(s: State, scrub: bool, a: Request) returns (s1: State)
    requires WriteOut(s, ORDERED_TAG, scrub) && IsBarrier(a) && a.sectors != 0
    ensures Sound(s) && Enabled(s, LAdd(1, a, AtBack)) && s1 == Apply(s, LAdd(1, a, AtBack)) && Sound(s1)
    ensures TagBarrier(s1, false)
  {
    hide Enabled, Apply;
    s1 := Submits(s, 1, a, AtBack);
  }

  lemma TagExpanded(s: State)
    requires TagBarrier(s, false)
    ensures var x := Expand(s);
            && x.list == [Bar] && !MustWait(x) && Skipped(x.ordered, false) == OrdSeq(false, true, true, false, true)
            && x.orig == Some(1) && x.ordseq == OrdSeq(true, false, false, false, false) && x.orderr == 0
            && x.mode == s.mode && x.inFlight == s.inFlight && x.ordcolor == s.ordcolor && x.rq.Keys == s.rq.Keys
            && x.rq[Pre].place == x.rq[Post].place == Free && x.rq[Bar].kind == Fs
            && x.rq[User(0)] == s.rq[User(0)] && x.rq[User(1)].place == Stashed
  {
  }

  lemma TagStarts(s: State)
    requires TagBarrier(s, false)
    ensures Enabled(s, LPeek) && TagBarrier(Apply(s, LPeek), true)
  {
    hide Expand, MustWait;
    TagExpanded(s);
    var x := Expand(s);
    var y := x.(ordseq := OrdSeq(true, true, true, false, true));
    assert StartOrdered(s) == (y, Issue);
    assert Peek(s) == MarkHead(y);
  }

  /** The body is at the driver with write 0. */
  ghost predicate BodyOut(s: State) {
    && Sound(s) && s.mode == ORDERED_TAG && s.inFlight == 2 && s.ordcolor && s.list == []
    && s.rq.Keys == {Pre, Bar, Post, User(0), User(1)} && s.rq[Pre].place == s.rq[Post].place == Free
    && (var w := s.rq[User(0)]; w.place == Driver && w.started && w.kind == Fs && !w.hard && !w.color)
    && s.orig == Some(1) && s.ordseq == OrdSeq(true, true, true, false, true)
    && s.rq[Bar].place == Driver && s.rq[Bar].started && s.rq[Bar].kind == Fs && s.rq[User(1)].place == Stashed
  }

  lemma BodyStarts(s: State)
    requires TagBarrier(s, true)
    ensures Enabled(s, LStart(0)) && BodyOut(Apply(s, LStart(0)))
  {
    assert Start(s, 0).list == [];
  }

  /** Barrier 1 has ended, write 0 is still at the driver. */
  ghost predicate BarrierOver(s: State) {
    && Sound(s) && s.mode == ORDERED_TAG && s.inFlight == 1 && s.ordcolor && s.list == [] && s.ordseq == SEQ_NONE
    && s.orig == None
    && s.rq.Keys == {Pre, Bar, Post, User(0), User(1)} && ProxiesIdle(s)
    && (var w := s.rq[User(0)]; w.place == Driver && w.started && w.kind == Fs && !w.hard && !w.color)
    && s.rq[User(1)].place == Free
  }

  lemma BodyCompletes(s: State)
    requires BodyOut(s)
    ensures Enabled(s, LComplete(Bar, 0)) && BarrierOver(Apply(s, LComplete(Bar, 0)))
  {
    var s1 := Release(s, Bar, 0);
    assert s1.ordseq == s.ordseq && s1.orig == s.orig && Sound(s1) && !Drained(s1);
    assert ElvCompleted(s, Bar, 0) == s1;
    assert Or(s1.ordseq, StageBit(Bar)) == OrdSeq(true, true, true, true, true);
  }

  lemma SecondWaits(s: State, b: Request) returns (s1: State, s2: State)
    requires BarrierOver(s) && IsBarrier(b) && b.sectors == 0
    ensures Enabled(s, LAdd(2, b, AtBack)) && s1 == Apply(s, LAdd(2, b, AtBack))
    ensures Sound(s1) && Enabled(s1, LPeek) && s2 == Apply(s1, LPeek)
    ensures EmptyWaits(s2, 2, []) && s2.rq.Keys == {Pre, Bar, Post, User(0), User(1), User(2)}
    ensures s2.rq[User(2)].color && !s2.rq[User(0)].color && s2.rq[User(1)].place == Free
  {
    s1 := Submits(s, 2, b, AtBack);
    assert s1.list == [User(2)] + [];
    EmptyStarts(s1, 2, []);
    s2 := Apply(s1, LPeek);
  }

  /** Write 0 is put back behind the barrier it was submitted before, and held there. */
  lemma PutBackStuck(s: State) returns (s1: State)
    requires EmptyWaits(s, 2, []) && s.rq.Keys == {Pre, Bar, Post, User(0), User(1), User(2)}
    requires s.rq[User(2)].color && !s.rq[User(0)].color && s.rq[User(1)].place == Free
    ensures Enabled(s, LRequeue(User(0))) && Astray(s, LRequeue(User(0))) && s1 == Apply(s, LRequeue(User(0)))
    ensures Sound(s1) && !NoStall(s1)
  {
    s1 := Apply(s, LRequeue(User(0)));
    assert s1.list[0] == User(0) && s1.orig == Some(2);
    assert !Busy(s1);
    assert DoOrdered(s1).1 == Hold;
  }

  lemma BarrierPassed(flushKind: Kind, scrub: bool, w: Request, a: Request)
      returns (states: seq<State>, labels: seq<Label>, s: State)
    requires flushKind != Fs && w.kind == Fs && !w.hard && IsBarrier(a) && a.sectors != 0
    ensures RunTo(states, labels, s) && |states| > 0 && states[0] == Idle0(ORDERED_TAG, scrub, flushKind)
    ensures BarrierOver(s)
    ensures labels == [LAdd(0, w, AtBack), LPeek, LStart(0), LAdd(1, a, AtBack), LPeek, LStart(0), LComplete(Bar, 0)]
  {
    hide RunTo, Apply, Enabled, TagBarrier, BodyOut, BarrierOver;
    var st, lb, s3 := WriteAtDriver(ORDERED_TAG, scrub, flushKind, w);
    LastState(st, lb, s3);
    var s4 := TagEnters(s3, scrub, a);
    Extend(st, lb, s3, LAdd(1, a, AtBack));
    st, lb := st + [s4], lb + [LAdd(1, a, AtBack)];
    TagStarts(s4);
    Extend(st, lb, s4, LPeek);
    var s5 := Apply(s4, LPeek);
    st, lb := st + [s5], lb + [LPeek];
    assert Sound(s5) by { TagSound(s5); }
    BodyStarts(s5);
    Extend(st, lb, s5, LStart(0));
    var s6 := Apply(s5, LStart(0));
    st, lb := st + [s6], lb + [LStart(0)];
    assert Sound(s6) by { BodySound(s6); }
    BodyCompletes(s6);
    Extend(st, lb, s6, LComplete(Bar, 0));
    s := Apply(s6, LComplete(Bar, 0));
    states, labels := st + [s], lb + [LComplete(Bar, 0)];
  }

  lemma TagSound(s: State)
    requires TagBarrier(s, true)
    ensures Sound(s)
  {
  }

  lemma BodySound(s: State)
    requires BodyOut(s)
    ensures Sound(s)
  {
  }

  /** A write that is still at the driver when a barrier submitted after it has ended, and is put back
      while the next barrier, without data, drains, leaves the queue stuck. */
  lemma StuckByRequeue(flushKind: Kind, scrub: bool, w: Request, a: Request, b: Request)
      returns (states: seq<State>, labels: seq<Label>)
    requires flushKind != Fs && w.kind == Fs && !w.hard && IsBarrier(a) && a.sectors != 0 && IsBarrier(b)
    requires b.sectors == 0
    ensures Run(states, labels) && states[0] == Idle0(ORDERED_TAG, scrub, flushKind)
    ensures labels == [LAdd(0, w, AtBack), LPeek, LStart(0), LAdd(1, a, AtBack), LPeek, LStart(0), LComplete(Bar, 0),
                       LAdd(2, b, AtBack), LPeek, LRequeue(User(0))]
    ensures forall l :: l in labels ==> FsBarriersOnly(l) && !Passable(l)
    ensures Sound(states[9]) && Astray(states[9], labels[9]) && Sound(states[10]) && !NoStall(states[10])
  {
    hide RunTo, Apply, Enabled, NoStall, Astray, EmptyWaits, BarrierOver;
    var st, lb, s7 := BarrierPassed(flushKind, scrub, w, a);
    LastState(st, lb, s7);
    var s8, s9 := SecondWaits(s7, b);
    assert Sound(s7) by { OverSound(s7); }
    assert Sound(s9) by { WaitsSound(s9, 2, []); }
    var s10 := PutBackStuck(s9);
    Extend(st, lb, s7, LAdd(2, b, AtBack));
    Extend(st + [s8], lb + [LAdd(2, b, AtBack)], s8, LPeek);
    Extend(st + [s8] + [s9], lb + [LAdd(2, b, AtBack)] + [LPeek], s9, LRequeue(User(0)));
    states, labels := st + [s8] + [s9] + [s10], lb + [LAdd(2, b, AtBack)] + [LPeek] + [LRequeue(User(0))];
    assert Run(states, labels) by { RunOf(states, labels, s10); }
  }

  lemma OverSound(s: State)
    requires BarrierOver(s)
    ensures Sound(s)
  {
  }

  // ---------------------------------------------------------------- a flagged command, ordering by draining

  /** Barrier 2 is at the head; write 0, from before the colour was toggled, is at the driver. */
  ghost predicate OddBarrier(s: State, mode: Ordered) {
    && Sound(s) && s.mode == mode && s.list == [User(2)] && s.ordseq == SEQ_NONE && s.orig == None && s.inFlight == 1
    && s.rq.Keys == {Pre, Bar, Post, User(0), User(1), User(2)} && ProxiesIdle(s)
    && (var w := s.rq[User(0)]; w.place == Driver && w.started && w.kind == Fs && !w.color)
    && s.rq[User(1)].place == Free
    && (var b := s.rq[User(2)]; IsBarrier(b) && b.color && !b.started && b.place == Listed)
  }

  lemma OddEnters(s: State, s1: State, mode: Ordered, scrub: bool, c: Request) returns (s2: State)
    requires WriteOut(s, mode, scrub) && Passed(s, s1, 1) && IsBarrier(c)
    ensures Sound(s1) && Enabled(s1, LAdd(2, c, AtBack)) && s2 == Apply(s1, LAdd(2, c, AtBack)) && OddBarrier(s2, mode)
  {
    hide Enabled, Apply;
    s2 := Submits(s1, 2, c, AtBack);
  }

  /** Barrier 2 waits for write 0, which does not look like part of what has to drain. */
  ghost predicate OddWaits(s: State) {
    && Sound(s) && s.orig == Some(2) && s.ordseq.started && !s.ordseq.drain && !s.ordered.byTag
    && (forall x :: x in s.list ==> !x.User?) && s.rq[Bar].kind == Fs
    && s.rq.Keys == {Pre, Bar, Post, User(0), User(1), User(2)}
    && (forall id :: id in s.rq && s.rq[id].place == Driver ==> id == User(0))
    && s.rq[User(0)].place == Driver && s.rq[User(0)].kind == Fs && !s.rq[User(0)].color && s.rq[User(2)].color
  }

  lemma OddExpanded(s: State, mode: Ordered)
    requires OddBarrier(s, mode) && DrainMode(mode)
    ensures var x := Expand(s);
            && x.orig == Some(2) && x.ordseq == OrdSeq(true, false, false, false, false) && x.inFlight == 1
            && MustWait(x) && !x.ordered.byTag
  {
    hide FlushRequest, BodyRequest, EffectiveOrder, DrainMode, InUse, Front;
    DrainsAlways(mode, s.rq[User(2)].sectors == 0);
  }

  lemma OddList(s: State, mode: Ordered)
    requires OddBarrier(s, mode)
    ensures forall y :: y in Expand(s).list ==> !y.User?
  {
    hide FlushRequest, BodyRequest, EffectiveOrder, InUse, Weight;
    assert s.list[1..] == [];
  }

  lemma OddRequests(s: State, mode: Ordered)
    requires OddBarrier(s, mode)
    ensures var x := Expand(s);
            && x.rq.Keys == s.rq.Keys && x.rq[Bar].kind == Fs && x.rq[User(0)] == s.rq[User(0)] && x.rq[User(2)].color
            && forall id :: id in x.rq && x.rq[id].place == Driver ==> id == User(0)
  {
    hide FlushRequest, BodyRequest, EffectiveOrder, InUse, Front, Weight;
    var b := s.rq[User(2)];
    var o := EffectiveOrder(mode, b.sectors == 0);
    ProxyPlaces(s.flushKind, b, InUse(o.doPre));
    ProxyPlaces(s.flushKind, b, InUse(o.doBar));
    ProxyPlaces(s.flushKind, b, InUse(o.doPost));
    NotOut(o.doPre);
    NotOut(o.doBar);
    NotOut(o.doPost);
  }

  lemma DrainsAlways(mode: Ordered, empty: bool)
    requires DrainMode(mode)
    ensures EffectiveOrder(mode, empty).byDrain && !EffectiveOrder(mode, empty).byTag
  {
  }

  lemma NotOut(wanted: bool)
    ensures InUse(wanted) != Driver
  {
  }

  lemma ProxyPlaces(kind: Kind, b: Request, p: Place)
    ensures FlushRequest(kind, p).place == p && BodyRequest(b, p).place == p && BodyRequest(b, p).kind == Fs
  {
  }

  lemma OddStarts(s: State, mode: Ordered)
    requires OddBarrier(s, mode) && DrainMode(mode)
    ensures Enabled(s, LPeek) && OddWaits(Apply(s, LPeek))
  {
    hide Expand;
    OddExpanded(s, mode);
    OddList(s, mode);
    OddRequests(s, mode);
    var x := Expand(s);
    var y := x.(ordseq := Or(x.ordseq, Skipped(x.ordered, true)));
    assert StartOrdered(s) == (y, Hold);
  }

  /** Write 0 is put back behind the proxies. */
  lemma OddStuck(s: State) returns (s1: State)
    requires OddWaits(s)
    ensures Enabled(s, LRequeue(User(0))) && s1 == Apply(s, LRequeue(User(0))) && Sound(s1) && !NoStall(s1)
  {
    s1 := Requeue(s, User(0));
    var i := RequeueSpot(s.rq, s.list, OrigColor(s), DONE);
    assert i == |s.list|;
    assert s1.list[0] == if s.list == [] then User(0) else s.list[0];
    assert !Busy(s1);
    assert DoOrdered(s1).1 == Hold;
  }

  /** Under ordering by draining: a write is put back while the next barrier drains, after a flagged
      command has toggled the colour between the two. */
  lemma StuckByFlag(mode: Ordered, scrub: bool, flushKind: Kind, w: Request, r: Request, where: Where, c: Request)
      returns (states: seq<State>, labels: seq<Label>)
    requires DrainMode(mode) && flushKind != Fs && w.kind == Fs && !w.hard && IsBarrier(c) && Flagged(scrub, r, where)
    ensures Run(states, labels) && states[0] == Idle0(mode, scrub, flushKind)
    ensures OnlyOffender(labels, LAdd(1, r, where))
    ensures Sound(states[|labels|]) && !NoStall(states[|labels|])
  {
    hide RunTo, Apply, Enabled, NoStall, OnlyOffender, WriteOut, Passed, OddBarrier, OddWaits;
    var off, add, back := LAdd(1, r, where), LAdd(2, c, AtBack), LRequeue(User(0));
    var st, lb, s3 := WriteAtDriver(mode, scrub, flushKind, w);
    LastState(st, lb, s3);
    OutFacts(s3, mode, scrub);
    var s7;
    st, lb, s7 := CommandPasses(st, lb, s3, 1, r, where);
    var s8 := OddEnters(s3, s7, mode, scrub, c);
    OddSound(s8, mode);
    OddStarts(s8, mode);
    var s9 := Apply(s8, LPeek);
    assert Sound(s9) by { OddWaitsSound(s9); }
    var s10 := OddStuck(s9);
    Extend(st, lb, s7, add);
    Extend(st + [s8], lb + [add], s8, LPeek);
    Extend(st + [s8] + [s9], lb + [add] + [LPeek], s9, back);
    OffenderMore(lb, off, add);
    OffenderMore(lb + [add], off, LPeek);
    OffenderMore(lb + [add] + [LPeek], off, back);
    states, labels := st + [s8] + [s9] + [s10], lb + [add] + [LPeek] + [back];
    LastState(st, lb, s7);
    RunOf(states, labels, s10);
  }

  lemma OutFacts(s: State, mode: Ordered, scrub: bool)
    requires WriteOut(s, mode, scrub)
    ensures Sound(s) && s.list == [] && Unscheduled(s) && User(1) !in s.rq && s.scrub == scrub
    ensures s.orig == None && s.ordseq == SEQ_NONE
  {
  }

  lemma OddSound(s: State, mode: Ordered)
    requires OddBarrier(s, mode)
    ensures Sound(s)
  {
  }

  lemma OddWaitsSound(s: State)
    requires OddWaits(s)
    ensures Sound(s)
  {
  }

  // ---------------------------------------------------------------- a flagged command, ordering by tag

  predicate TagMode(m: Ordered) { ValidMode(m) && m.byTag }

  /** Barrier 2 is on the list while the only stage of barrier 0, of the same colour, is at the driver. */
  ghost predicate SameColor(s: State, mode: Ordered) {
    && Held(s, mode) && mode.byTag && s.list == [User(2)]
    && s.rq.Keys == {Pre, Bar, Post, User(0), User(1), User(2)}
    && (forall id :: id in s.rq && s.rq[id].place == Driver ==> id == Only(mode)) && s.rq[Only(mode)].place == Driver
    && IsBarrier(s.rq[User(2)]) && !s.rq[User(2)].color
  }

  lemma SameEnters(s: State, s1: State, mode: Ordered, c: Request) returns (s2: State)
    requires Held(s, mode) && mode.byTag && s.list == [] && s.ordcolor && Calm(s, mode)
    requires s.rq[Only(mode)].place == Driver
    requires Passed(s, s1, 1) && IsBarrier(c)
    ensures Sound(s1) && Enabled(s1, LAdd(2, c, AtBack)) && s2 == Apply(s1, LAdd(2, c, AtBack)) && SameColor(s2, mode)
  {
    hide Enabled, Apply;
    s2 := Submits(s1, 2, c, AtBack);
  }

  /** The stage is put back behind barrier 2, which is held for its sake. */
  lemma SameStuck(s: State, mode: Ordered) returns (s1: State)
    requires SameColor(s, mode)
    ensures var back := LRequeue(Only(mode)); Enabled(s, back) && s1 == Apply(s, back) && Sound(s1) && !NoStall(s1)
  {
    var p := Only(mode);
    s1 := Requeue(s, p);
    var i := RequeueSpot(s.rq, s.list, OrigColor(s), Stage(p));
    assert ReqSeq(OrigColor(s), User(2), s.rq[User(2)]) == DRAIN;
    assert i == 1;
    assert s1.list[0] == User(2);
    assert !Busy(s1);
    assert DoOrdered(s1).1 == Hold;
  }

  /** Under ordering by tag: a stage is put back while the next barrier is on the list, after a flagged
      command has given both barriers the same colour.  No request is put back out of tag order. */
  lemma StuckByTagFlag(mode: Ordered, scrub: bool, flushKind: Kind, r: Request, where: Where, c: Request)
      returns (states: seq<State>, labels: seq<Label>)
    requires TagMode(mode) && flushKind != Fs && IsBarrier(c) && Flagged(scrub, r, where)
    ensures Run(states, labels) && states[0].mode == mode
    ensures OnlyOffender(labels, LAdd(1, r, where)) && forall l :: l in labels && l.LRequeue? ==> !l.id.User?
    ensures Sound(states[|labels|]) && !NoStall(states[|labels|])
  {
    hide RunTo, Apply, Enabled, NoStall, OnlyOffender, Held, Calm, Passed, SameColor, Sound, Only;
    var off, add, back := LAdd(1, r, where), LAdd(2, c, AtBack), LRequeue(Only(mode));
    var st, lb, s3 := StageAtDriver(mode, scrub, flushKind);
    LastState(st, lb, s3);
    HeldFacts(s3, mode);
    assert !Only(mode).User? by { OnlyProxy(mode); }
    var s7;
    st, lb, s7 := CommandPasses(st, lb, s3, 1, r, where);
    var s8 := SameEnters(s3, s7, mode, c);
    var s9 := SameStuck(s8, mode);
    assert Sound(s8) by { SameSound(s8, mode); }
    Extend(st, lb, s7, add);
    Extend(st + [s8], lb + [add], s8, back);
    OffenderMore(lb, off, add);
    OffenderMore(lb + [add], off, back);
    states, labels := st + [s8] + [s9], lb + [add] + [back];
    LastState(st, lb, s7);
    RunOf(states, labels, s9);
  }

  lemma HeldFacts(s: State, mode: Ordered)
    requires Held(s, mode) && Calm(s, mode)
    ensures Sound(s) && Unscheduled(s) && User(1) !in s.rq && s.orig != Some(1) && CurSeq(s.ordseq) != DRAIN
  {
  }

  lemma OnlyProxy(mode: Ordered)
    ensures !Only(mode).User?
  {
  }

  lemma SameSound(s: State, mode: Ordered)
    requires SameColor(s, mode)
    ensures Sound(s)
  {
  }
}
