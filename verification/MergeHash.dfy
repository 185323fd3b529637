/** The elevator's merge hash: requests bucketed by the sector they end at, and the one-hit cache. */
module MergeHash {
  import opened Lists
  import opened Options

  type Id = nat

  datatype Rq = Rq(start: nat, len: nat, mergeable: bool)

  function EndOf(r: Rq): nat { r.start + r.len }

  /** `rqs` are the requests in the elevator; `buckets` the hash lists; `last` the one-hit cache. */
  datatype State = State(rqs: map<Id, Rq>, buckets: seq<seq<Id>>, last: Option<Id>)

  /** The hash function: any map of sectors to buckets. */
  type Hash = nat -> nat

  ghost predicate Bounded(h: Hash, n: nat) { forall x :: h(x) < n }

  // ---------------------------------------------------------------- the invariant

  /** Every entry of bucket `b` is in the elevator and ends at a sector that hashes to `b`. */
  ghost predicate BucketOk(h: Hash, rqs: map<Id, Rq>, b: nat, list: seq<Id>) {
    Distinct(list) && forall x :: x in list ==> x in rqs && h(EndOf(rqs[x])) == b
  }

  ghost predicate Inv(h: Hash, s: State) {
    && Bounded(h, |s.buckets|)
    && (forall b :: 0 <= b < |s.buckets| ==> BucketOk(h, s.rqs, b, s.buckets[b]))
    && (forall x :: x in s.rqs && s.rqs[x].mergeable ==> x in s.buckets[h(EndOf(s.rqs[x]))])
    && (s.last.Some? ==> s.last.value in s.rqs)
  }

  ghost predicate OnHash(s: State, x: Id) { exists b :: 0 <= b < |s.buckets| && x in s.buckets[b] }

  // ---------------------------------------------------------------- operations

  /** Unlink `x` from whichever list it is on. */
  function Unhash(buckets: seq<seq<Id>>, x: Id): seq<seq<Id>> {
    seq(|buckets|, b requires 0 <= b < |buckets| => Remove(buckets[b], x))
  }

  function Rehash(h: Hash, buckets: seq<seq<Id>>, x: Id, end: nat): seq<seq<Id>> {
    var k := h(end);
    if k < |buckets| then buckets[k := [x] + buckets[k]] else buckets
  }

  /** A request enters the scheduler. */
  function Insert(h: Hash, s: State, x: Id, r: Rq): State {
    State(s.rqs[x := r],
          if r.mergeable then Rehash(h, s.buckets, x, EndOf(r)) else s.buckets,
          if r.mergeable && s.last.None? then Some(x) else s.last)
  }

  /** `x` changes to `r` and is put on the list of its new end; it is also the new one-hit entry. */
  function Reposition(h: Hash, s: State, x: Id, r: Rq): State {
    State(s.rqs[x := r], Rehash(h, Unhash(s.buckets, x), x, EndOf(r)), Some(x))
  }

  /** A bio of `k` sectors joins at the back. */
  function BackMerge(h: Hash, s: State, x: Id, k: nat): State
    requires x in s.rqs
  {
    Reposition(h, s, x, s.rqs[x].(len := s.rqs[x].len + k))
  }

  /** A bio of `k` sectors joins at the front: the end stays. */
  function FrontMerge(s: State, x: Id, k: nat): State
    requires x in s.rqs && k <= s.rqs[x].start
  {
    s.(rqs := s.rqs[x := s.rqs[x].(start := s.rqs[x].start - k, len := s.rqs[x].len + k)], last := Some(x))
  }

  /** `n` is merged into `r`, which a bio of `k` sectors may have extended first. */
  function Absorb(h: Hash, s: State, r: Id, n: Id, k: nat): State
    requires r in s.rqs && n in s.rqs
  {
    var s1 := Reposition(h, s, r, s.rqs[r].(len := s.rqs[r].len + k + s.rqs[n].len));
    State(s1.rqs - {n}, Unhash(s1.buckets, n), s1.last)
  }

  /** `x` reached a limit and takes no more merges. */
  function NoMerge(s: State, x: Id): State
    requires x in s.rqs
  {
    s.(rqs := s.rqs[x := s.rqs[x].(mergeable := false)], last := if s.last == Some(x) then None else s.last)
  }

  /** `x` moves to the dispatch queue. */
  function Dispatch(s: State, x: Id): State {
    State(s.rqs - {x}, Unhash(s.buckets, x), if s.last == Some(x) then None else s.last)
  }

  /** The walk over one list: entries that take no merges are dropped on the way. */
  function Walk(rqs: map<Id, Rq>, list: seq<Id>, sector: nat): (Option<Id>, seq<Id>) {
    if list == [] then (None, [])
    else
      var x := list[0];
      if x !in rqs || !rqs[x].mergeable then Walk(rqs, list[1..], sector)
      else if EndOf(rqs[x]) == sector then (Some(x), list)
      else
        var (r, rest) := Walk(rqs, list[1..], sector);
        (r, [x] + rest)
  }

  /** `elv_rqhash_find`. */
  function Find(h: Hash, s: State, sector: nat): (Option<Id>, State) {
    if h(sector) < |s.buckets| then
      var (r, list) := Walk(s.rqs, s.buckets[h(sector)], sector);
      (r, s.(buckets := s.buckets[h(sector) := list]))
    else (None, s)
  }

  // ---------------------------------------------------------------- they keep the invariant

  lemma UnhashOk(h: Hash, rqs: map<Id, Rq>, rqs': map<Id, Rq>, buckets: seq<seq<Id>>, x: Id)
    requires forall b :: 0 <= b < |buckets| ==> BucketOk(h, rqs, b, buckets[b])
    requires forall y :: y in rqs && y != x ==> y in rqs' && EndOf(rqs'[y]) == EndOf(rqs[y])
    ensures var bs := Unhash(buckets, x);
            && |bs| == |buckets|
            && (forall b :: 0 <= b < |bs| ==> BucketOk(h, rqs', b, bs[b]) && x !in bs[b])
            && (forall b, y :: 0 <= b < |bs| ==> (y in bs[b] <==> y in buckets[b] && y != x))
  {
    hide Remove;
    var bs := Unhash(buckets, x);
    forall b | 0 <= b < |bs|
      ensures BucketOk(h, rqs', b, bs[b]) && x !in bs[b] && forall y :: y in bs[b] <==> y in buckets[b] && y != x
    {
      assert BucketOk(h, rqs, b, buckets[b]);
      RemoveKeeps(buckets[b], x);
    }
  }

  lemma RehashOk(h: Hash, rqs: map<Id, Rq>, buckets: seq<seq<Id>>, x: Id)
    requires Bounded(h, |buckets|) && x in rqs
    requires forall b :: 0 <= b < |buckets| ==> BucketOk(h, rqs, b, buckets[b]) && x !in buckets[b]
    ensures var bs := Rehash(h, buckets, x, EndOf(rqs[x]));
            && |bs| == |buckets| && x in bs[h(EndOf(rqs[x]))]
            && (forall b :: 0 <= b < |bs| ==> BucketOk(h, rqs, b, bs[b]))
            && (forall b, y :: 0 <= b < |bs| && y in buckets[b] ==> y in bs[b])
  {
    var k := h(EndOf(rqs[x]));
    assert BucketOk(h, rqs, k, buckets[k]);
    assert BucketOk(h, rqs, k, [x] + buckets[k]);
  }

  lemma RepositionInv(h: Hash, s: State, x: Id, r: Rq)
    requires Inv(h, s) && x in s.rqs
    ensures Inv(h, Reposition(h, s, x, r))
  {
    hide BucketOk, Rehash, Unhash;
    var rqs' := s.rqs[x := r];
    UnhashOk(h, s.rqs, rqs', s.buckets, x);
    RehashOk(h, rqs', Unhash(s.buckets, x), x);
  }

  lemma InsertInv(h: Hash, s: State, x: Id, r: Rq)
    requires Inv(h, s) && x !in s.rqs
    ensures Inv(h, Insert(h, s, x, r))
  {
    var rqs' := s.rqs[x := r];
    forall b | 0 <= b < |s.buckets| ensures BucketOk(h, rqs', b, s.buckets[b]) && x !in s.buckets[b] {
      assert BucketOk(h, s.rqs, b, s.buckets[b]);
    }
    hide BucketOk, Rehash;
    if r.mergeable { RehashOk(h, rqs', s.buckets, x); }
  }

  lemma FrontMergeInv(h: Hash, s: State, x: Id, k: nat)
    requires Inv(h, s) && x in s.rqs && k <= s.rqs[x].start
    ensures Inv(h, FrontMerge(s, x, k))
  {
    var s' := FrontMerge(s, x, k);
    forall b | 0 <= b < |s.buckets| ensures BucketOk(h, s'.rqs, b, s.buckets[b]) {
      assert BucketOk(h, s.rqs, b, s.buckets[b]);
    }
    hide BucketOk;
  }

  lemma NoMergeInv(h: Hash, s: State, x: Id)
    requires Inv(h, s) && x in s.rqs
    ensures Inv(h, NoMerge(s, x))
  {
    var s' := NoMerge(s, x);
    forall b | 0 <= b < |s.buckets| ensures BucketOk(h, s'.rqs, b, s.buckets[b]) {
      assert BucketOk(h, s.rqs, b, s.buckets[b]);
    }
    hide BucketOk;
  }

  lemma DropInv(h: Hash, s: State, x: Id, last: Option<Id>)
    requires Inv(h, s) && (last.Some? ==> last.value in s.rqs && last.value != x)
    ensures Inv(h, State(s.rqs - {x}, Unhash(s.buckets, x), last))
  {
    hide BucketOk, Unhash;
    UnhashOk(h, s.rqs, s.rqs - {x}, s.buckets, x);
  }

  lemma AbsorbInv(h: Hash, s: State, r: Id, n: Id, k: nat)
    requires Inv(h, s) && r in s.rqs && n in s.rqs && r != n
    ensures Inv(h, Absorb(h, s, r, n, k))
  {
    hide Inv, Reposition, Unhash;
    var r' := s.rqs[r].(len := s.rqs[r].len + k + s.rqs[n].len);
    RepositionInv(h, s, r, r');
    RepositionLast(h, s, r, r');
    DropInv(h, Reposition(h, s, r, r'), n, Some(r));
  }

  lemma RepositionLast(h: Hash, s: State, x: Id, r: Rq)
    ensures Reposition(h, s, x, r).last == Some(x) && x in Reposition(h, s, x, r).rqs
  {
  }

  // ---------------------------------------------------------------- finding

  lemma {:induction false} WalkIs(rqs: map<Id, Rq>, list: seq<Id>, sector: nat)
    requires Distinct(list)
    ensures var (r, rest) := Walk(rqs, list, sector);
            && (r.Some? ==>
                  r.value in rest && r.value in rqs && rqs[r.value].mergeable && EndOf(rqs[r.value]) == sector)
            && (r.None? ==> forall x :: x in list && x in rqs && rqs[x].mergeable ==> EndOf(rqs[x]) != sector)
            && Distinct(rest) && (forall x :: x in rest ==> x in list)
            && (forall x :: x in list && x in rqs && rqs[x].mergeable ==> x in rest)
  {
    if list != [] {
      assert Distinct(list[1..]);
      assert list[0] !in list[1..];
      hide Distinct, EndOf;
      WalkIs(rqs, list[1..], sector);
      assert forall x :: x in list <==> x == list[0] || x in list[1..];
      var (r, rest) := Walk(rqs, list[1..], sector);
      PrependDistinct(list[0], rest);
    }
  }

  /** The lookup finds a mergeable request ending at the sector exactly when a scan of the hashed
      requests, or of the whole elevator, would; it drops nothing that could still be merged. */
  lemma FindIsScan(h: Hash, s: State, sector: nat)
    requires Inv(h, s)
    ensures var (r, s') := Find(h, s, sector);
            && Inv(h, s') && s'.rqs == s.rqs && s'.last == s.last
            && (r.Some? ==>
                  OnHash(s, r.value) && r.value in s.rqs && s.rqs[r.value].mergeable && EndOf(s.rqs[r.value]) == sector)
            && (r.None? <==> forall x :: x in s.rqs && s.rqs[x].mergeable ==> EndOf(s.rqs[x]) != sector)
            && (forall x :: x in s.rqs && s.rqs[x].mergeable ==> OnHash(s', x))
  {
    var b := h(sector);
    assert BucketOk(h, s.rqs, b, s.buckets[b]);
    WalkIs(s.rqs, s.buckets[b], sector);
    hide Walk, Distinct;
    var (r, list) := Walk(s.rqs, s.buckets[b], sector);
    assert BucketOk(h, s.rqs, b, list);
    hide BucketOk;
    var (r0, s') := Find(h, s, sector);
    forall x | x in s.rqs && s.rqs[x].mergeable ensures x in s'.buckets[h(EndOf(s.rqs[x]))] { }
  }

  // ---------------------------------------------------------------- every history

  datatype Event =
    | Enter(x: Id, rq: Rq)
    | Back(x: Id, k: nat)
    | Front(x: Id, k: nat)
    | Join(r: Id, n: Id, k: nat)
    | Refuse(x: Id)
    | Leave(x: Id)
    | Lookup(sector: nat)

  ghost predicate Enabled(s: State, e: Event) {
    match e
    case Enter(x, r) => x !in s.rqs
    case Back(x, k) => x in s.rqs && s.rqs[x].mergeable
    case Front(x, k) => x in s.rqs && s.rqs[x].mergeable && k <= s.rqs[x].start
    case Join(r, n, k) => r in s.rqs && n in s.rqs && r != n && s.rqs[r].mergeable && s.rqs[n].mergeable
    case Refuse(x) => x in s.rqs
    case Leave(x) => x in s.rqs
    case Lookup(sector) => true
  }

  ghost function Apply(h: Hash, s: State, e: Event): State
    requires Enabled(s, e)
  {
    match e
    case Enter(x, r) => Insert(h, s, x, r)
    case Back(x, k) => BackMerge(h, s, x, k)
    case Front(x, k) => FrontMerge(s, x, k)
    case Join(r, n, k) => Absorb(h, s, r, n, k)
    case Refuse(x) => NoMerge(s, x)
    case Leave(x) => Dispatch(s, x)
    case Lookup(sector) => Find(h, s, sector).1
  }

  lemma ApplyInv(h: Hash, s: State, e: Event)
    requires Inv(h, s) && Enabled(s, e)
    ensures Inv(h, Apply(h, s, e))
  {
    hide Inv, Insert, Reposition, Absorb, Find, Unhash;
    HashLast(h, s);
    match e
    case Enter(x, r) => InsertInv(h, s, x, r);
    case Back(x, k) => RepositionInv(h, s, x, s.rqs[x].(len := s.rqs[x].len + k));
    case Front(x, k) => FrontMergeInv(h, s, x, k);
    case Join(r, n, k) => AbsorbInv(h, s, r, n, k);
    case Refuse(x) => NoMergeInv(h, s, x);
    case Leave(x) => DropInv(h, s, x, if s.last == Some(x) then None else s.last);
    case Lookup(sector) => FindIsScan(h, s, sector);
  }

  lemma HashLast(h: Hash, s: State)
    requires Inv(h, s)
    ensures s.last.Some? ==> s.last.value in s.rqs
  {
  }

  ghost predicate Reaches(h: Hash, s: State, es: seq<Event>, end: State)
    decreases |es|
  {
    if es == [] then end == s else Enabled(s, es[0]) && Reaches(h, Apply(h, s, es[0]), es[1..], end)
  }

  /** After any history every hashed request is in the bucket of its current end sector, and the
      one-hit entry, if any, is still in the elevator. */
  lemma {:induction false} HashAgrees(h: Hash, s: State, es: seq<Event>, end: State)
    requires Inv(h, s) && Reaches(h, s, es, end)
    ensures Inv(h, end)
    decreases |es|
  {
    hide Inv, Enabled, Apply;
    if es != [] {
      ApplyInv(h, s, es[0]);
      HashAgrees(h, Apply(h, s, es[0]), es[1..], end);
    }
  }
}
