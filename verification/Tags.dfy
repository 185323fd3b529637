/** Tagged command queueing: a tag map that queues may share, and each queue's busy list. */
module Tags {
  import opened Lists
  import opened Options

  type Id = nat

  type QId = nat

  // ---------------------------------------------------------------- the state

  /** `bits` is the bitmap and `table` the index, both `real_max_depth` long; `max` is the depth in
      force; `tag` gives the live tags.  `owner` and `stamp` record for which queue and when a
      request was started. */
  datatype State = State(
    bits: seq<bool>,
    table: seq<Option<Id>>,
    max: nat,
    refs: nat,
    tag: map<Id, nat>,
    owner: map<Id, QId>,
    stamp: map<Id, nat>,
    clock: nat,
    busy: map<QId, seq<Id>>,
    head: map<QId, seq<Id>>)

  /** A bit is set exactly when its slot holds a request, and that request carries the tag. */
  ghost predicate MapOk(bits: seq<bool>, table: seq<Option<Id>>, tag: map<Id, nat>) {
    && |bits| == |table|
    && (forall t :: 0 <= t < |bits| ==> (bits[t] <==> table[t].Some?))
    && (forall t :: 0 <= t < |table| && table[t].Some? ==> table[t].value in tag && tag[table[t].value] == t)
    && (forall x :: x in tag ==> tag[x] < |table| && table[tag[x]] == Some(x))
  }

  /** The busy list of a queue, last started first. */
  ghost predicate BusyOk(q: QId, list: seq<Id>, owner: map<Id, QId>, stamp: map<Id, nat>) {
    && (forall x :: x in list <==> x in owner && owner[x] == q)
    && (forall x :: x in list ==> x in stamp)
    && (forall i, j :: 0 <= i < j < |list| ==> stamp[list[i]] > stamp[list[j]])
  }

  /** The dispatch list holds no tagged request. */
  ghost predicate HeadOk(list: seq<Id>, tag: map<Id, nat>) {
    Distinct(list) && forall x :: x in list ==> x !in tag
  }

  ghost predicate Inv(s: State) {
    && MapOk(s.bits, s.table, s.tag) && s.max <= |s.bits|
    && s.owner.Keys == s.tag.Keys
    && (forall x :: x in s.owner ==> s.owner[x] in s.busy && x in s.stamp && s.stamp[x] < s.clock)
    && s.busy.Keys == s.head.Keys
    && (forall q :: q in s.busy ==> BusyOk(q, s.busy[q], s.owner, s.stamp))
    && (forall q :: q in s.head ==> HeadOk(s.head[q], s.tag))
  }

  // ---------------------------------------------------------------- starting

  /** How many tags the request may choose from; asynchronous requests leave two for the others. */
  function Limit(max: nat, sync: bool): nat {
    if !sync && max > 1 then (if max == 2 then 1 else max - 2) else max
  }

  function FirstFree(bits: seq<bool>, from: nat, limit: nat): (t: nat)
    ensures from <= limit ==> from <= t <= limit
    decreases limit - from
  {
    if from >= limit || (from < |bits| && !bits[from]) then from else FirstFree(bits, from + 1, limit)
  }

  /** The tag `blk_queue_start_tag` would hand out. */
  function Choice(s: State, sync: bool, async: nat): Option<nat> {
    var limit := Limit(s.max, sync);
    if !sync && s.max > 1 && async > limit then None
    else
      var t := FirstFree(s.bits, 0, limit);
      if t >= limit then None else Some(t)
  }

  function Start(s: State, q: QId, x: Id, t: nat): State
    requires q in s.busy && q in s.head && t < |s.bits| && t < |s.table|
  {
    s.(bits := s.bits[t := true], table := s.table[t := Some(x)], tag := s.tag[x := t],
       owner := s.owner[x := q], stamp := s.stamp[x := s.clock], clock := s.clock + 1,
       busy := s.busy[q := [x] + s.busy[q]], head := s.head[q := Remove(s.head[q], x)])
  }

  /** The lowest free tag below the limit, if there is one and async requests are not flooding. */
  lemma {:induction false} FirstFreeIs(bits: seq<bool>, from: nat, limit: nat)
    requires limit <= |bits| && from <= limit
    ensures var t := FirstFree(bits, from, limit);
            (t < limit ==> !bits[t]) && forall k :: from <= k < t ==> bits[k]
    decreases limit - from
  {
    if from < limit && bits[from] {
      FirstFreeIs(bits, from + 1, limit);
    }
  }

  /** A request is refused exactly when async requests flood the queue or every tag it may use is
      taken; otherwise it gets the lowest free one. */
  lemma ChoiceIs(s: State, sync: bool, async: nat)
    requires Inv(s)
    ensures var limit := Limit(s.max, sync);
            var c := Choice(s, sync, async);
            && (c.None? <==> (!sync && s.max > 1 && async > limit) || forall k :: 0 <= k < limit ==> s.bits[k])
            && (c.Some? ==>
                  c.value < limit <= |s.bits| && !s.bits[c.value] && forall k :: 0 <= k < c.value ==> s.bits[k])
  {
    FirstFreeIs(s.bits, 0, Limit(s.max, sync));
  }

  lemma StartInv(s: State, q: QId, x: Id, t: nat)
    requires Inv(s) && q in s.busy && x !in s.tag && t < |s.bits| && !s.bits[t]
    requires forall p :: p in s.head && p != q ==> x !in s.head[p]
    ensures |s.table| == |s.bits| && Inv(Start(s, q, x, t))
  {
    hide MapOk, BusyOk, HeadOk, Remove;
    StartMap(s.bits, s.table, s.tag, x, t);
    BusyOld(s, q);
    var s' := Start(s, q, x, t);
    forall p | p in s'.busy ensures BusyOk(p, s'.busy[p], s'.owner, s'.stamp) {
      if p == q { BusyPush(q, s.busy[q], s.owner, s.stamp, x, s.clock); }
      else { BusyFrame(p, s.busy[p], s.owner, s.stamp, x, q, s.clock); }
    }
    forall p | p in s'.head ensures HeadOk(s'.head[p], s'.tag) {
      HeadStart(s.head[p], s.tag, x, t, p == q);
    }
  }

  lemma StartMap(bits: seq<bool>, table: seq<Option<Id>>, tag: map<Id, nat>, x: Id, t: nat)
    requires MapOk(bits, table, tag) && x !in tag && t < |bits| && !bits[t]
    ensures |bits| == |table| && MapOk(bits[t := true], table[t := Some(x)], tag[x := t])
  {
  }

  lemma BusyOld(s: State, q: QId)
    requires Inv(s) && q in s.busy
    ensures forall y :: y in s.busy[q] ==> y in s.stamp && s.stamp[y] < s.clock && y in s.tag && s.owner[y] == q
  {
    hide MapOk, HeadOk;
    assert BusyOk(q, s.busy[q], s.owner, s.stamp);
  }

  lemma BusyPush(q: QId, list: seq<Id>, owner: map<Id, QId>, stamp: map<Id, nat>, x: Id, now: nat)
    requires BusyOk(q, list, owner, stamp) && x !in owner && (forall y :: y in list ==> y in stamp && stamp[y] < now)
    ensures BusyOk(q, [x] + list, owner[x := q], stamp[x := now])
  {
    var l, stamp' := [x] + list, stamp[x := now];
    forall i, j | 0 <= i < j < |l| ensures stamp'[l[i]] > stamp'[l[j]] {
      assert l[j] == list[j - 1] && list[j - 1] in list;
      if i > 0 { assert l[i] == list[i - 1] && list[i - 1] in list; }
    }
  }

  lemma BusyFrame(p: QId, list: seq<Id>, owner: map<Id, QId>, stamp: map<Id, nat>, x: Id, q: QId, now: nat)
    requires BusyOk(p, list, owner, stamp) && x !in owner && p != q
    ensures BusyOk(p, list, owner[x := q], stamp[x := now])
  {
    var stamp' := stamp[x := now];
    forall i, j | 0 <= i < j < |list| ensures stamp'[list[i]] > stamp'[list[j]] {
      assert list[i] in list && list[j] in list;
    }
  }

  lemma HeadStart(list: seq<Id>, tag: map<Id, nat>, x: Id, t: nat, mine: bool)
    requires HeadOk(list, tag)
    ensures mine ==> HeadOk(Remove(list, x), tag[x := t])
    ensures !mine && x !in list ==> HeadOk(list, tag[x := t])
  {
    RemoveKeeps(list, x);
  }

  // ---------------------------------------------------------------- ending

  /** `blk_queue_end_tag` for a tagged request of queue `q`. */
  function End(s: State, q: QId, x: Id): State
    requires q in s.busy && x in s.tag && s.tag[x] < |s.bits| && s.tag[x] < |s.table|
  {
    var t := s.tag[x];
    s.(bits := s.bits[t := false], table := s.table[t := None], tag := s.tag - {x},
       owner := s.owner - {x}, stamp := s.stamp - {x}, busy := s.busy[q := Remove(s.busy[q], x)])
  }

  lemma EndMap(bits: seq<bool>, table: seq<Option<Id>>, tag: map<Id, nat>, x: Id)
    requires MapOk(bits, table, tag) && x in tag
    ensures tag[x] < |bits| == |table| && bits[tag[x]] && table[tag[x]] == Some(x)
    ensures MapOk(bits[tag[x] := false], table[tag[x] := None], tag - {x})
  {
  }

  lemma BusyPop(q: QId, list: seq<Id>, owner: map<Id, QId>, stamp: map<Id, nat>, x: Id)
    requires BusyOk(q, list, owner, stamp) && x in list
    ensures BusyOk(q, Remove(list, x), owner - {x}, stamp - {x})
  {
    hide Remove, Distinct;
    BusyDistinct(q, list, owner, stamp);
    RemoveKeeps(list, x);
    var i := RemoveMap(list, x);
    var r, stamp' := Remove(list, x), stamp - {x};
    forall j, k | 0 <= j < k < |r| ensures stamp'[r[j]] > stamp'[r[k]] {
      assert r[j] == list[Skip(i, j)] && r[k] == list[Skip(i, k)];
    }
  }

  lemma BusyDistinct(q: QId, list: seq<Id>, owner: map<Id, QId>, stamp: map<Id, nat>)
    requires BusyOk(q, list, owner, stamp)
    ensures Distinct(list)
  {
  }

  lemma BusyOther(p: QId, list: seq<Id>, owner: map<Id, QId>, stamp: map<Id, nat>, x: Id)
    requires BusyOk(p, list, owner, stamp) && x !in list
    ensures BusyOk(p, list, owner - {x}, stamp - {x})
  {
    var stamp' := stamp - {x};
    forall i, j | 0 <= i < j < |list| ensures stamp'[list[i]] > stamp'[list[j]] {
      assert list[i] in list && list[j] in list;
    }
  }

  lemma HeadEnd(list: seq<Id>, tag: map<Id, nat>, x: Id)
    requires HeadOk(list, tag)
    ensures HeadOk(list, tag - {x})
  {
  }

  /** Ending finds the tag in use and in its slot, so none of the complaints is printed. */
  lemma EndInv(s: State, q: QId, x: Id)
    requires Inv(s) && q in s.busy && x in s.busy[q]
    ensures x in s.tag && s.tag[x] < |s.bits| == |s.table| && s.bits[s.tag[x]] && s.table[s.tag[x]] == Some(x)
    ensures Inv(End(s, q, x))
  {
    hide MapOk, BusyOk, HeadOk, Remove;
    BusyOld(s, q);
    EndMap(s.bits, s.table, s.tag, x);
    var s' := End(s, q, x);
    forall p | p in s'.busy ensures BusyOk(p, s'.busy[p], s'.owner, s'.stamp) {
      if p == q { BusyPop(q, s.busy[q], s.owner, s.stamp, x); }
      else {
        BusyOld(s, p);
        BusyOther(p, s.busy[p], s.owner, s.stamp, x);
      }
    }
    forall p | p in s'.head ensures HeadOk(s'.head[p], s'.tag) { HeadEnd(s.head[p], s.tag, x); }
  }

  // ---------------------------------------------------------------- resizing

  datatype Outcome = Ok(s: State) | NoMap | Busy | NoMemory | CopyDoesNotFit

  function Min(a: nat, b: nat): nat { if a < b then a else b }

  /** `blk_queue_resize_tags`.  A larger map is clipped to twice `requests`, and only one that is not
      shared can be replaced; the old contents are copied over. */
  function Resize(s: Option<State>, depth: nat, requests: nat, memory: bool): Outcome {
    if s.None? then NoMap
    else
      var m := s.value;
      var size := |m.bits|;
      if depth <= size then Ok(m.(max := depth))
      else if m.refs != 1 then Busy
      else if !memory then NoMemory
      else
        var d := Min(depth, 2 * requests);
        if d < size then CopyDoesNotFit
        else Ok(m.(max := d, bits := m.bits + seq(d - size, _ => false), table := m.table + seq(d - size, _ => None)))
  }

  /** Resizing keeps every tag in flight; growing always succeeds in that, once it gets memory for an
      unshared map, exactly when twice the number of requests reaches the old real depth. */
  lemma ResizeInv(s: State, depth: nat, requests: nat, memory: bool)
    requires Inv(s)
    ensures var r := Resize(Some(s), depth, requests, memory);
            && (r.Ok? ==>
                  && Inv(r.s) && r.s.tag == s.tag && r.s.busy == s.busy && r.s.head == s.head
                  && s.table <= r.s.table && s.bits <= r.s.bits
                  && forall t :: |s.bits| <= t < |r.s.bits| ==> !r.s.bits[t])
            && (r.CopyDoesNotFit? <==> depth > |s.bits| && s.refs == 1 && memory && 2 * requests < |s.bits|)
            && (depth <= |s.bits| ==> r.Ok? && r.s.max == depth)
  {
    hide BusyOk, HeadOk;
    var r := Resize(Some(s), depth, requests, memory);
    if r.Ok? && depth > |s.bits| {
      GrowMap(s.bits, s.table, s.tag, r.s.bits, r.s.table);
    }
  }

  lemma GrowMap(bits: seq<bool>, table: seq<Option<Id>>, tag: map<Id, nat>, bits': seq<bool>, table': seq<Option<Id>>)
    requires MapOk(bits, table, tag) && bits <= bits' && table <= table' && |bits'| == |table'|
    requires (forall t :: |bits| <= t < |bits'| ==> !bits'[t])
    requires (forall t :: |bits| <= t < |bits'| ==> table'[t].None?)
    ensures MapOk(bits', table', tag)
  {
    assert forall t :: 0 <= t < |bits| ==> bits'[t] == bits[t];
    assert forall t :: 0 <= t < |table| ==> table'[t] == table[t];
  }

  // ---------------------------------------------------------------- putting requests back

  /** `blk_requeue_request` of a tagged request while no ordered sequence is active. */
  function Requeue(s: State, q: QId, x: Id): State
    requires q in s.busy && q in s.head && x in s.tag && s.tag[x] < |s.bits| && s.tag[x] < |s.table|
  {
    var s1 := End(s, q, x);
    s1.(head := s1.head[q := [x] + s1.head[q]])
  }

  lemma HeadPush(list: seq<Id>, tag: map<Id, nat>, x: Id)
    requires HeadOk(list, tag) && x in tag
    ensures HeadOk([x] + list, tag - {x})
  {
  }

  lemma RequeueInv(s: State, q: QId, x: Id)
    requires Inv(s) && q in s.busy && x in s.busy[q]
    ensures x in s.tag && s.tag[x] < |s.bits| == |s.table| && Inv(Requeue(s, q, x))
  {
    hide MapOk, BusyOk, HeadOk, Remove;
    EndInv(s, q, x);
    HeadPush(s.head[q], s.tag, x);
    assert s.tag[x] < |s.bits| == |s.table|;
    var s1, s' := End(s, q, x), Requeue(s, q, x);
    forall p | p in s'.head ensures HeadOk(s'.head[p], s'.tag) {
      if p != q { assert HeadOk(s1.head[p], s1.tag); }
    }
  }

  /** `blk_queue_invalidate_tags`: requeue the busy list from its front. */
  ghost function Invalidate(s: State, q: QId): State
    requires Inv(s) && q in s.busy
    decreases if q in s.busy then |s.busy[q]| else 0
  {
    if s.busy[q] == [] then s
    else
      RequeueInv(s, q, s.busy[q][0]);
      Invalidate(Requeue(s, q, s.busy[q][0]), q)
  }

  function Reverse(l: seq<Id>): seq<Id> {
    if l == [] then [] else Reverse(l[1..]) + [l[0]]
  }

  /** Exactly the tags of queue `q` have been freed. */
  ghost predicate Freed(q: QId, tag: map<Id, nat>, owner: map<Id, QId>, tag': map<Id, nat>, owner': map<Id, QId>) {
    && (forall x :: x in tag' <==> x in tag && x in owner && owner[x] != q)
    && (forall x :: x in tag' && x in tag ==> tag'[x] == tag[x])
    && (forall x :: x in owner' ==> x in owner && owner'[x] == owner[x])
  }

  lemma FreedFirst(q: QId, tag: map<Id, nat>, owner: map<Id, QId>, x: Id, tag': map<Id, nat>, owner': map<Id, QId>)
    requires x in owner && owner[x] == q && Freed(q, tag - {x}, owner - {x}, tag', owner')
    ensures Freed(q, tag, owner, tag', owner')
  {
    forall y ensures y in tag' <==> y in tag && y in owner && owner[y] != q {
      assert y in tag' <==> y in tag - {x} && y in owner - {x} && (owner - {x})[y] != q;
    }
  }

  /** Every tag of the queue is freed and no other, and its dispatch list is the formerly tagged
      requests followed by what it was. */
  lemma {:induction false} InvalidateIs(s: State, q: QId)
    requires Inv(s) && q in s.busy
    ensures q in s.head
    ensures var s' := Invalidate(s, q);
            && Inv(s') && |s'.bits| == |s.bits| && s'.max == s.max
            && s'.busy == s.busy[q := []]
            && s'.head == s.head[q := Reverse(s.busy[q]) + s.head[q]]
            && Freed(q, s.tag, s.owner, s'.tag, s'.owner)
    decreases if q in s.busy then |s.busy[q]| else 0
  {
    hide Inv, Requeue, Freed;
    if s.busy[q] == [] {
      NoneLeft(s, q);
      assert Reverse([]) + s.head[q] == s.head[q];
    } else {
      var l := s.busy[q];
      var x := l[0];
      RequeueFirst(s, q);
      var s1 := Requeue(s, q, x);
      InvalidateIs(s1, q);
      var s' := Invalidate(s1, q);
      FreedFirst(q, s.tag, s.owner, x, s'.tag, s'.owner);
      assert Reverse(l) + s.head[q] == Reverse(l[1..]) + ([x] + s.head[q]);
      assert s1.busy[q := []] == s.busy[q := []];
    }
  }

  lemma RequeueFirst(s: State, q: QId)
    requires Inv(s) && q in s.busy && s.busy[q] != []
    ensures q in s.head && s.owner.Keys == s.tag.Keys
    ensures var x := s.busy[q][0];
            && x in s.tag && s.tag[x] < |s.bits| == |s.table| && s.owner[x] == q
            && var s1 := Requeue(s, q, x);
               && Inv(s1) && |s1.bits| == |s.bits| && s1.max == s.max
               && s1.busy == s.busy[q := s.busy[q][1..]] && s1.head == s.head[q := [x] + s.head[q]]
               && s1.tag == s.tag - {x} && s1.owner == s.owner - {x} && s1.owner.Keys == s1.tag.Keys
  {
    hide MapOk, BusyOk, HeadOk;
    assert s.busy[q][0] in s.busy[q];
    RequeueInv(s, q, s.busy[q][0]);
    BusyOld(s, q);
  }

  lemma NoneLeft(s: State, q: QId)
    requires Inv(s) && q in s.busy && s.busy[q] == []
    ensures s.busy[q := []] == s.busy && q in s.head && Freed(q, s.tag, s.owner, s.tag, s.owner)
  {
    hide MapOk, HeadOk;
    assert BusyOk(q, s.busy[q], s.owner, s.stamp);
  }

  lemma {:induction false} ReverseAt(l: seq<Id>, i: nat)
    requires i < |l|
    ensures |Reverse(l)| == |l| && Reverse(l)[i] == l[|l| - 1 - i]
  {
    if |l| > 1 {
      ReverseAt(l[1..], if i < |l| - 1 then i else 0);
    }
  }

  /** The requests come back in the order they were started. */
  lemma StartOrder(s: State, q: QId, i: nat, j: nat)
    requires Inv(s) && q in s.busy && i < j < |s.busy[q]|
    ensures var back := Reverse(s.busy[q]);
            && |back| == |s.busy[q]| && back[i] in s.stamp && back[j] in s.stamp
            && s.stamp[back[i]] < s.stamp[back[j]]
  {
    hide MapOk, HeadOk;
    ReverseAt(s.busy[q], i);
    ReverseAt(s.busy[q], j);
    assert BusyOk(q, s.busy[q], s.owner, s.stamp);
  }

  // ---------------------------------------------------------------- runs

  datatype Event =
    | Begin(q: QId, x: Id, sync: bool, async: nat)
    | Finish(q: QId, x: Id)
    | Again(q: QId, x: Id)
    | Depth(depth: nat, requests: nat, memory: bool)
    | Reset(q: QId)

  ghost predicate Enabled(s: State, e: Event) {
    match e
    case Begin(q, x, sync, async) => q in s.busy && x !in s.tag && forall p :: p in s.head && p != q ==> x !in s.head[p]
    case Finish(q, x) => q in s.busy && x in s.busy[q]
    case Again(q, x) => q in s.busy && x in s.busy[q]
    case Depth(depth, requests, memory) => !(depth > |s.bits| && s.refs == 1 && memory && 2 * requests < |s.bits|)
    case Reset(q) => q in s.busy
  }

  ghost function Apply(s: State, e: Event): State
    requires Inv(s) && Enabled(s, e)
  {
    match e
    case Begin(q, x, sync, async) =>
      var t := Choice(s, sync, async);
      ChoiceIs(s, sync, async);
      if t.None? then s else Start(s, q, x, t.value)
    case Finish(q, x) => EndInv(s, q, x); End(s, q, x)
    case Again(q, x) => RequeueInv(s, q, x); Requeue(s, q, x)
    case Depth(depth, requests, memory) =>
      var r := Resize(Some(s), depth, requests, memory);
      if r.Ok? then r.s else s
    case Reset(q) => Invalidate(s, q)
  }

  lemma ApplyInv(s: State, e: Event)
    requires Inv(s) && Enabled(s, e)
    ensures Inv(Apply(s, e))
  {
    hide Inv, Start, End, Requeue, Resize, Invalidate, Choice;
    match e
    case Begin(q, x, sync, async) =>
      ChoiceIs(s, sync, async);
      var t := Choice(s, sync, async);
      if t.Some? { StartInv(s, q, x, t.value); }
    case Finish(q, x) => EndInv(s, q, x);
    case Again(q, x) => RequeueInv(s, q, x);
    case Depth(depth, requests, memory) => ResizeInv(s, depth, requests, memory);
    case Reset(q) => InvalidateIs(s, q);
  }

  ghost predicate Reaches(s: State, es: seq<Event>, end: State)
    requires Inv(s)
    decreases |es|
  {
    if es == [] then end == s
    else Enabled(s, es[0]) && (ApplyInv(s, es[0]); Reaches(Apply(s, es[0]), es[1..], end))
  }

  /** In every reachable state: a tag bit is set exactly when its slot holds a request carrying that
      tag, and live tags are distinct and below the real depth. */
  lemma {:induction false} TagsAgree(s: State, es: seq<Event>, end: State)
    requires Inv(s) && Reaches(s, es, end)
    ensures Inv(end)
    ensures forall t :: 0 <= t < |end.bits| ==> (end.bits[t] <==> exists x :: x in end.tag && end.tag[x] == t)
    ensures forall x, y :: x in end.tag && y in end.tag && end.tag[x] == end.tag[y] ==> x == y
    ensures forall x :: x in end.tag ==> end.tag[x] < |end.bits|
    decreases |es|
  {
    if es == [] {
      forall t | 0 <= t < |end.bits| ensures end.bits[t] <==> exists x :: x in end.tag && end.tag[x] == t {
        if end.bits[t] { assert end.table[t].value in end.tag; }
      }
    } else {
      hide Inv, Enabled, Apply;
      ApplyInv(s, es[0]);
      TagsAgree(Apply(s, es[0]), es[1..], end);
    }
  }
}
