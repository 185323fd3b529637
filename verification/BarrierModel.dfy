/** The ordered-write (barrier) protocol of a request queue.

    A barrier request is replaced, when it reaches the head of the dispatch list, by up to three
    proxy requests (pre-flush, barrier body, post-flush).  The queue tells requests submitted before
    and after a barrier apart by a single colour bit.

    Every step below is one critical section of the queue lock and follows the branches of the
    C code.  The `History` part of the state and the `epoch` of a request are never read by those
    branches: they record what happened, so that the safety claims can be stated over whole runs. */
module BarrierModel {
  import opened Options

  datatype Kind = Fs | Pc | Other

  /** The three proxies live inside the queue structure and are reused by every barrier. */
  datatype Id = User(n: nat) | Pre | Bar | Post

  /** Who owns a request: the I/O scheduler, the dispatch list, the driver, the queue (the stashed
      original barrier), or nobody. */
  datatype Place = Sched | Listed | Driver | Stashed | Free

  datatype Request = Request(
    place: Place,
    kind: Kind,
    hard: bool,      // REQ_HARDBARRIER
    soft: bool,      // REQ_SOFTBARRIER
    started: bool,   // REQ_STARTED
    color: bool,     // REQ_ORDERED_COLOR
    elvpriv: bool,   // REQ_ELVPRIV
    write: bool,
    discard: bool,
    pos: nat,
    sectors: nat,
    epoch: nat)      // history: number of filesystem barriers submitted earlier

  datatype Ordered = Ordered(byDrain: bool, byTag: bool, doPre: bool, doBar: bool, doPost: bool, doFua: bool)

  const ORDERED_NONE := Ordered(false, false, false, false, false, false)
  const ORDERED_DRAIN := Ordered(true, false, false, true, false, false)
  const ORDERED_DRAIN_FLUSH := Ordered(true, false, true, true, true, false)
  const ORDERED_DRAIN_FUA := Ordered(true, false, true, true, false, true)
  const ORDERED_TAG := Ordered(false, true, false, true, false, false)
  const ORDERED_TAG_FLUSH := Ordered(false, true, true, true, true, false)
  const ORDERED_TAG_FUA := Ordered(false, true, true, true, false, true)

  predicate DrainMode(m: Ordered) {
    m == ORDERED_DRAIN || m == ORDERED_DRAIN_FLUSH || m == ORDERED_DRAIN_FUA
  }

  /** What `blk_queue_ordered` accepts. */
  predicate ValidMode(m: Ordered) {
    || m == ORDERED_NONE || DrainMode(m)
    || m == ORDERED_TAG || m == ORDERED_TAG_FLUSH || m == ORDERED_TAG_FUA
  }

  /** The `ordseq` bit mask: STARTED 1, DRAIN 2, PREFLUSH 4, BAR 8, POSTFLUSH 16; DONE is 32. */
  datatype OrdSeq = OrdSeq(started: bool, drain: bool, pre: bool, bar: bool, post: bool)

  const SEQ_NONE := OrdSeq(false, false, false, false, false)
  const SEQ_DRAIN := OrdSeq(false, true, false, false, false)

  const DRAIN := 2
  const PREFLUSH := 4
  const BAR := 8
  const POSTFLUSH := 16
  const DONE := 32

  function Or(a: OrdSeq, b: OrdSeq): OrdSeq {
    OrdSeq(a.started || b.started, a.drain || b.drain, a.pre || b.pre, a.bar || b.bar, a.post || b.post)
  }

  predicate Overlap(a: OrdSeq, b: OrdSeq) {
    (a.started && b.started) || (a.drain && b.drain) || (a.pre && b.pre) || (a.bar && b.bar) || (a.post && b.post)
  }

  /** `blk_ordered_cur_seq`: the lowest clear bit of a non-zero mask. */
  function CurSeq(o: OrdSeq): nat {
    if o == SEQ_NONE then 0
    else if !o.started then 1
    else if !o.drain then DRAIN
    else if !o.pre then PREFLUSH
    else if !o.bar then BAR
    else if !o.post then POSTFLUSH
    else DONE
  }

  datatype Event =
    | Submitted(n: nat, fs: bool, barrier: bool, empty: bool)
    | Issued(id: Id, forBarrier: Option<nat>)
    | Completed(id: Id, forBarrier: Option<nat>, err: int)
    | Requeued(id: Id)
    | Ended(n: nat, error: int)

  datatype History = History(
    epoch: nat,         // filesystem barriers submitted
    ended: nat,         // filesystem barriers ended
    errs: seq<int>,     // errors reported in the current sequence
    log: seq<Event>)

  datatype State = State(
    mode: Ordered,              // next_ordered
    scrub: bool,                // CONFIG_BLK_DEV_SCRUB
    flushKind: Kind,            // what prepare_flush_fn makes of a flush request
    rq: map<Id, Request>,       // the proxies and everything ever submitted
    list: seq<Id>,              // queue_head
    inFlight: int,
    ordcolor: bool,
    ordseq: OrdSeq,
    ordered: Ordered,
    orderr: int,
    orig: Option<nat>,          // orig_bar_rq, while a sequence is in progress
    h: History)

  /** `blk_account_rq` */
  predicate Account(scrub: bool, r: Request) {
    r.started && (r.kind == Fs || r.discard || (scrub && r.kind == Pc))
  }

  function Weight(scrub: bool, r: Request): nat {
    if Account(scrub, r) then 1 else 0
  }

  function Stage(id: Id): nat {
    match id
    case Pre => PREFLUSH
    case Bar => BAR
    case Post => POSTFLUSH
    case User(_) => 0
  }

  function StageBit(id: Id): OrdSeq {
    match id
    case Pre => OrdSeq(false, false, true, false, false)
    case Bar => OrdSeq(false, false, false, true, false)
    case Post => OrdSeq(false, false, false, false, true)
    case User(_) => SEQ_NONE
  }

  /** Enough for the functions below to be defined; every reachable state meets it. */
  predicate Sound(s: State) {
    && Pre in s.rq && Bar in s.rq && Post in s.rq
    && (forall id :: id in s.list ==> id in s.rq)
    && (s.orig.Some? ==> User(s.orig.value) in s.rq)
    && (s.ordseq != SEQ_NONE <==> s.orig.Some?)
    && (s.ordseq == SEQ_NONE && s.list != [] ==> s.list[0].User?)
  }

  /** The colour of the barrier whose sequence is in progress. */
  function OrigColor(s: State): bool
    requires Sound(s) && s.orig.Some?
  {
    s.rq[User(s.orig.value)].color
  }

  /** `blk_ordered_req_seq`, given the colour of the current barrier. */
  function ReqSeq(color: bool, id: Id, r: Request): nat {
    if !id.User? then Stage(id)
    else if r.kind != Fs then DRAIN
    else if r.color == color then DRAIN
    else DONE
  }

  function Insert(q: seq<Id>, i: nat, id: Id): (t: seq<Id>)
    requires i <= |q|
    ensures |t| == |q| + 1 && t[i] == id
    ensures forall k :: 0 <= k < i ==> t[k] == q[k]
    ensures forall k :: i < k < |t| ==> t[k] == q[k - 1]
    ensures forall x :: x in t <==> x in q || x == id
  {
    var t := q[..i] + [id] + q[i..];
    assert forall x :: x in q ==> x in q[..i] || x in q[i..] by {
      assert q == q[..i] + q[i..];
    }
    t
  }

  function Remove(q: seq<Id>, i: nat): (t: seq<Id>)
    requires i < |q|
    ensures |t| == |q| - 1
    ensures forall k :: 0 <= k < i ==> t[k] == q[k]
    ensures forall k :: i <= k < |t| ==> t[k] == q[k + 1]
    ensures forall x :: x in t ==> x in q
    ensures forall x :: x in q ==> x in t || x == q[i]
  {
    var t := q[..i] + q[i + 1..];
    assert q == q[..i] + [q[i]] + q[i + 1..];
    t
  }

  /** `blk_ordered_complete_seq`.  The whole sequence is over when the result is idle. */
  function CompleteSeq(s: State, bits: OrdSeq, error: int): State
    requires s.orig.Some? && User(s.orig.value) in s.rq
  {
    var err := if error != 0 && s.orderr == 0 then error else s.orderr;
    var o := Or(s.ordseq, bits);
    if CurSeq(o) != DONE then
      s.(ordseq := o, orderr := err)
    else
      var n := s.orig.value;
      s.(ordseq := SEQ_NONE, orderr := err, orig := None,
         rq := s.rq[User(n) := s.rq[User(n)].(place := Free)],
         h := s.h.(ended := s.h.ended + 1, log := s.h.log + [Ended(n, err)]))
  }

  /** The flags that remain for this barrier: an empty one has no body and no post-flush, and
      cannot be ordered by tag without a command to carry the tag. */
  function EffectiveOrder(mode: Ordered, empty: bool): Ordered {
    if !empty then mode
    else
      var o := mode.(doBar := false, doPost := false);
      if o.byTag && !o.doPre then o.(byTag := false, byDrain := true) else o
  }

  function FlushRequest(kind: Kind, place: Place): Request {
    Request(place, kind, true, true, false, false, false, false, false, 0, 0, 0)
  }

  function BodyRequest(b: Request, place: Place): Request {
    Request(place, Fs, b.hard, true, false, false, false, b.write, b.discard, b.pos, b.sectors, 0)
  }

  function InUse(wanted: bool): Place { if wanted then Listed else Free }

  /** Front insertion of a proxy, when its stage is wanted. */
  function Front(wanted: bool, id: Id, list: seq<Id>): seq<Id> {
    if wanted then [id] + list else list
  }

  datatype Verdict = Issue | Hold | Gone

  /** The barrier at the head is stashed away and replaced by its proxies, stacked in reverse. */
  function Expand(s: State): State
    requires Sound(s) && s.list != [] && s.list[0].User?
  {
    var n := s.list[0].n;
    var b := s.rq[User(n)];
    var o := EffectiveOrder(s.mode, b.sectors == 0);
    s.(orderr := 0, ordered := o, ordseq := s.ordseq.(started := true), orig := Some(n),
       inFlight := s.inFlight + Weight(s.scrub, b),
       rq := s.rq[User(n) := b.(place := Stashed)]
                 [Post := FlushRequest(s.flushKind, InUse(o.doPost))]
                 [Bar := BodyRequest(b, InUse(o.doBar))]
                 [Pre := FlushRequest(s.flushKind, InUse(o.doPre))],
       list := Front(o.doPre, Pre, Front(o.doBar, Bar, Front(o.doPost, Post, s.list[1..]))),
       h := s.h.(errs := []))
  }

  /** The stages that `start_ordered` has nothing to do for. */
  function Skipped(o: Ordered, wait: bool): OrdSeq {
    OrdSeq(false, !wait, !o.doPre, !o.doBar, !o.doPost)
  }

  predicate MustWait(s: State) { s.ordered.byDrain && s.inFlight != 0 }

  /** `start_ordered` */
  function StartOrdered(s: State): (State, Verdict)
    requires Sound(s) && s.list != [] && s.list[0].User?
  {
    var s1 := Expand(s);
    var o := s1.ordered;
    var wait := MustWait(s1);
    var s2 := CompleteSeq(s1, Skipped(o, wait), 0);
    var none := !o.doPre && !o.doBar && !o.doPost;
    (s2, if s2.ordseq == SEQ_NONE then Gone else if wait || none then Hold else Issue)
  }

  const EOPNOTSUPP := -95

  /** A barrier on a queue that does not support ordering is ended at once. */
  function Refuse(s: State): State
    requires Sound(s) && s.list != [] && s.list[0].User?
  {
    var n := s.list[0].n;
    s.(list := s.list[1..], rq := s.rq[User(n) := s.rq[User(n)].(place := Free)],
       h := s.h.(ended := s.h.ended + 1, log := s.h.log + [Ended(n, EOPNOTSUPP)]))
  }

  predicate IsBarrier(r: Request) { r.kind == Fs && r.hard }

  /** `blk_do_ordered` on the head of the dispatch list. */
  function DoOrdered(s: State): (State, Verdict)
    requires Sound(s) && s.list != []
  {
    var id := s.list[0];
    var r := s.rq[id];
    if s.ordseq == SEQ_NONE then
      if !IsBarrier(r) then (s, Issue)
      else if s.mode != ORDERED_NONE then StartOrdered(s)
      else (Refuse(s), Gone)
    else if r.kind != Fs && id != Pre && id != Post then (s, Issue)
    else if s.ordered.byTag then (s, if IsBarrier(r) && id != Bar then Hold else Issue)
    else (s, if ReqSeq(OrigColor(s), id, r) > CurSeq(s.ordseq) then Hold else Issue)
  }

  /** The warning in `blk_do_ordered`: the head's turn has already passed. */
  predicate OutOfTurn(s: State)
    requires Sound(s)
  {
    && s.list != [] && s.ordseq != SEQ_NONE
    && !(s.rq[s.list[0]].kind != Fs && s.list[0] != Pre && s.list[0] != Post)
    && !s.ordered.byTag
    && ReqSeq(OrigColor(s), s.list[0], s.rq[s.list[0]]) < CurSeq(s.ordseq)
  }

  function MarkHead(s: State): State
    requires s.list != [] && s.list[0] in s.rq
  {
    s.(rq := s.rq[s.list[0] := s.rq[s.list[0]].(started := true)])
  }

  /** One turn of the loops in `__elv_next_request` and `blk_peek_request`: a request that may be
      issued is marked started and stays at the head. */
  function Peek(s: State): State
    requires Sound(s) && s.list != []
  {
    var (t, v) := DoOrdered(s);
    if v == Issue && t.list != [] && t.list[0] in t.rq then MarkHead(t) else t
  }

  function ForBarrier(s: State, id: Id): Option<nat> {
    if id.User? then None else s.orig
  }

  /** `blk_start_request` on a request that the driver has peeked at. */
  function Start(s: State, i: nat): State
    requires i < |s.list| && s.list[i] in s.rq
  {
    var id := s.list[i];
    var r := s.rq[id];
    s.(list := Remove(s.list, i), rq := s.rq[id := r.(place := Driver)],
       inFlight := s.inFlight + Weight(s.scrub, r),
       h := s.h.(log := s.h.log + [Issued(id, ForBarrier(s, id))]))
  }

  /** The test in `elv_completed_request`: everything before the barrier has drained. */
  predicate Drained(s: State)
    requires Sound(s)
  {
    && s.ordseq != SEQ_NONE
    && s.inFlight == 0 && CurSeq(s.ordseq) == DRAIN
    && (s.list == [] || ReqSeq(OrigColor(s), s.list[0], s.rq[s.list[0]]) > DRAIN)
  }

  /** The request leaves the driver. */
  function Release(s: State, id: Id, error: int): State
    requires id in s.rq
  {
    s.(rq := s.rq[id := s.rq[id].(place := Free)], inFlight := s.inFlight - Weight(s.scrub, s.rq[id]),
       h := s.h.(log := s.h.log + [Completed(id, ForBarrier(s, id), error)]))
  }

  /** `elv_completed_request` */
  function ElvCompleted(s: State, id: Id, error: int): State
    requires Sound(s) && id in s.rq
  {
    var s1 := Release(s, id, error);
    if Drained(s1) then CompleteSeq(s1, SEQ_DRAIN, 0) else s1
  }

  /** Completion of a request by the driver; proxies go through their end_io handlers. */
  function Complete(s: State, id: Id, error: int): State
    requires Sound(s) && id in s.rq
  {
    var s1 := ElvCompleted(s, id, error);
    if !id.User? && s1.orig.Some? then
      CompleteSeq(s1.(h := s1.h.(errs := s1.h.errs + [error])), StageBit(id), error)
    else s1
  }

  /** The first position whose sequence number is not below `turn`. */
  function RequeueSpot(rq: map<Id, Request>, q: seq<Id>, color: bool, turn: nat): (i: nat)
    requires forall id :: id in q ==> id in rq
    ensures i <= |q|
    ensures forall k :: 0 <= k < i ==> ReqSeq(color, q[k], rq[q[k]]) < turn
    ensures i < |q| ==> turn <= ReqSeq(color, q[i], rq[q[i]])
  {
    if q == [] || turn <= ReqSeq(color, q[0], rq[q[0]]) then 0 else 1 + RequeueSpot(rq, q[1..], color, turn)
  }

  /** `blk_requeue_request`: to the front, or by sequence number while a barrier is in progress. */
  function Requeue(s: State, id: Id): State
    requires Sound(s) && id in s.rq
  {
    var r := s.rq[id].(started := false, soft := true, place := Listed);
    var i := if s.ordseq == SEQ_NONE then 0
             else RequeueSpot(s.rq, s.list, OrigColor(s), ReqSeq(OrigColor(s), id, r));
    s.(rq := s.rq[id := r], inFlight := s.inFlight - Weight(s.scrub, s.rq[id]),
       list := Insert(s.list, i, id), h := s.h.(log := s.h.log + [Requeued(id)]))
  }

  datatype Where = AtFront | AtBack | InSort | InVerify

  /** `__elv_add_request`: barriers and requests without scheduler data go to the back. */
  function Placement(r: Request, where: Where): Where {
    if where == InSort && (r.soft || r.hard || !r.elvpriv) then AtBack else where
  }

  /** The request as it enters the queue: coloured, and marked when it is placed on the list. */
  function Entered(s: State, r: Request, place: Where): Request {
    var listed := place == AtFront || place == AtBack;
    r.(color := s.ordcolor, epoch := s.h.epoch, started := false,
       soft := r.soft || listed, place := if listed then Listed else Sched)
  }

  function Joined(list: seq<Id>, id: Id, place: Where): seq<Id> {
    if place == AtFront then [id] + list else if place == AtBack then list + [id] else list
  }

  function Add(s: State, n: nat, r: Request, where: Where): State {
    var place := Placement(r, where);
    s.(ordcolor := s.ordcolor != r.hard,
       h := s.h.(epoch := s.h.epoch + (if IsBarrier(r) then 1 else 0),
                 log := s.h.log + [Submitted(n, r.kind == Fs, IsBarrier(r), r.sectors == 0)]),
       rq := s.rq[User(n) := Entered(s, r, place)],
       list := Joined(s.list, User(n), place))
  }

  predicate Stops(r: Request) { r.soft || r.hard || r.started }

  /** Where a scheduler may put a request: `elv_dispatch_sort` never passes a request that is
      marked as a barrier or started, `elv_dispatch_add_tail` passes nothing. */
  predicate DispatchSpot(s: State, i: nat)
    requires Sound(s)
  {
    i <= |s.list| && forall k :: i <= k < |s.list| ==> !Stops(s.rq[s.list[k]])
  }

  function Dispatch(s: State, id: Id, i: nat): State
    requires id in s.rq && i <= |s.list|
  {
    s.(rq := s.rq[id := s.rq[id].(place := Listed)], list := Insert(s.list, i, id))
  }

  datatype Label =
    | LAdd(n: nat, r: Request, where: Where)
    | LDispatch(id: Id, i: nat)
    | LPeek
    | LStart(i: nat)
    | LComplete(id: Id, error: int)
    | LRequeue(id: Id)

  /** What the callers of `__elv_add_request` respect: filesystem requests are never inserted at
      the front, only they are sorted, and only SCSI commands use the insertion point that is there
      with the scrubber.
      Back insertion drains the scheduler first: the drain is a series of dispatch steps. */
  predicate AddOk(s: State, n: nat, r: Request, where: Where) {
    && User(n) !in s.rq
    && (r.kind == Fs ==> where == AtBack || where == InSort)
    && (where == InSort ==> r.kind == Fs)
    && (where == InVerify ==> s.scrub && r.kind == Pc)
    && (Placement(r, where) == AtBack ==> forall id :: id in s.rq ==> s.rq[id].place != Sched)
  }

  predicate Enabled(s: State, l: Label)
    requires Sound(s)
  {
    match l
    case LAdd(n, r, where) => AddOk(s, n, r, where)
    case LDispatch(id, i) => id in s.rq && s.rq[id].place == Sched && DispatchSpot(s, i)
    case LPeek => s.list != []
    case LStart(i) => i < |s.list| && s.rq[s.list[i]].started
    case LComplete(id, _) => id in s.rq && s.rq[id].place == Driver
    case LRequeue(id) => id in s.rq && s.rq[id].place == Driver
  }

  function Apply(s: State, l: Label): State
    requires Sound(s) && Enabled(s, l)
  {
    match l
    case LAdd(n, r, where) => Add(s, n, r, where)
    case LDispatch(id, i) => Dispatch(s, id, i)
    case LPeek => Peek(s)
    case LStart(i) => Start(s, i)
    case LComplete(id, error) => Complete(s, id, error)
    case LRequeue(id) => Requeue(s, id)
  }

  ghost predicate Init(s: State) {
    && ValidMode(s.mode) && s.flushKind != Fs
    && s.rq == map[Pre := FlushRequest(s.flushKind, Free),
                   Bar := FlushRequest(Fs, Free),
                   Post := FlushRequest(s.flushKind, Free)]
    && s.list == [] && s.inFlight == 0
    && !s.ordcolor && s.ordseq == SEQ_NONE && s.orig == None && s.orderr == 0
    && s.h == History(0, 0, [], [])
  }

  /** Only filesystem requests are submitted as hard barriers. */
  predicate FsBarriersOnly(l: Label) {
    l.LAdd? && l.r.hard ==> l.r.kind == Fs
  }

  /** A run: `states[i+1]` follows from `states[i]` by `labels[i]`. */
  ghost predicate Run(states: seq<State>, labels: seq<Label>) {
    && |states| == |labels| + 1
    && Init(states[0])
    && forall i :: 0 <= i < |labels| ==>
         Sound(states[i]) && Enabled(states[i], labels[i]) && states[i + 1] == Apply(states[i], labels[i])
  }
}
