/** The deadline scheduler: per direction a sector-sorted index and a FIFO of the same requests. */
module Deadline {
  import opened Lists
  import opened Options

  type Id = nat

  datatype Dir = Read | Write

  // ---------------------------------------------------------------- sequences without repeats

  /** The element after `x`. */
  function Latter(s: seq<Id>, x: Id): Option<Id> {
    if |s| < 2 then None else if s[0] == x then Some(s[1]) else Latter(s[1..], x)
  }

  function InsertAfter(s: seq<Id>, a: Id, x: Id): seq<Id> {
    if s == [] then [] else if s[0] == a then [a, x] + s[1..] else [s[0]] + InsertAfter(s[1..], a, x)
  }

  lemma {:induction false} LatterAt(s: seq<Id>, x: Id, i: nat)
    requires i < |s| && s[i] == x && Distinct(s)
    ensures Latter(s, x) == if i + 1 < |s| then Some(s[i + 1]) else None
  {
    if i > 0 {
      assert s[0] != s[i];
      LatterAt(s[1..], x, i - 1);
    }
  }

  lemma {:induction false} InsertAfterAt(s: seq<Id>, a: Id, x: Id) returns (i: nat)
    requires a in s
    ensures i < |s| && s[i] == a && InsertAfter(s, a, x) == s[..i + 1] + [x] + s[i + 1..]
  {
    if s[0] == a {
      i := 0;
      assert s[..1] == [a];
    } else {
      var k := InsertAfterAt(s[1..], a, x);
      i := k + 1;
      assert s[..i + 1] == [s[0]] + s[1..][..k + 1];
      assert s[i + 1..] == s[1..][k + 1..];
    }
  }

  /** What follows a removed element stays. */
  lemma LatterStays(s: seq<Id>, x: Id)
    requires Distinct(s) && x in s
    ensures |Remove(s, x)| == |s| - 1
    ensures Latter(s, x).Some? ==> Latter(s, x).value in Remove(s, x)
  {
    var i := RemoveAt(s, x);
    LatterAt(s, x, i);
    RemoveKeeps(s, x);
  }

  // ---------------------------------------------------------------- the state

  datatype Config = Config(readExpire: nat, writeExpire: nat, fifoBatch: nat, writesStarved: nat)

  /** One direction: `sort` by start sector, `fifo` by expiry, `next` the request to continue with. */
  datatype Half = Half(sort: seq<Id>, fifo: seq<Id>, next: Option<Id>)

  /** `pos`, `due` and `dir` describe the requests; `sorted` is the queue's `nr_sorted`; `out` lists
      the requests moved to the dispatch queue, oldest first. */
  datatype State = State(
    pos: map<Id, nat>,
    due: map<Id, int>,
    dir: map<Id, Dir>,
    read: Half,
    write: Half,
    batching: nat,
    starved: nat,
    sorted: int,
    clock: int,
    out: seq<Id>)

  function HalfOf(s: State, d: Dir): Half {
    if d.Read? then s.read else s.write
  }

  function WithHalf(s: State, d: Dir, h: Half): State {
    if d.Read? then s.(read := h) else s.(write := h)
  }

  // ---------------------------------------------------------------- the operations

  /** The queued request at sector `p`. */
  function Alias(pos: map<Id, nat>, s: seq<Id>, p: nat): Option<Id> {
    if s == [] then None
    else if s[0] in pos && pos[s[0]] == p then Some(s[0]) else Alias(pos, s[1..], p)
  }

  /** Sorted insertion. */
  function Insert(pos: map<Id, nat>, s: seq<Id>, x: Id, p: nat): seq<Id> {
    if s == [] then [x]
    else if s[0] in pos && pos[s[0]] > p then [x] + s
    else [s[0]] + Insert(pos, s[1..], x, p)
  }

  /** `deadline_move_request`: to the dispatch queue; the batch goes on after it. */
  function Move(s: State, d: Dir, x: Id): State {
    var h := HalfOf(s, d);
    var s1 := s.(read := s.read.(next := None), write := s.write.(next := None), out := s.out + [x],
                 sorted := s.sorted - 1);
    WithHalf(s1, d, Half(Remove(h.sort, x), Remove(h.fifo, x), Latter(h.sort, x)))
  }

  /** `deadline_add_rq_rb`: whatever starts at the same sector goes to the dispatch queue first. */
  function Index(s: State, d: Dir, x: Id, p: nat): State {
    var a := Alias(s.pos, HalfOf(s, d).sort, p);
    var s1 := if a.Some? then Move(s, d, a.value) else s;
    var h := HalfOf(s1, d);
    WithHalf(s1, d, h.(sort := Insert(s1.pos, h.sort, x, p)))
  }

  function Expire(c: Config, d: Dir): nat {
    if d.Read? then c.readExpire else c.writeExpire
  }

  /** A new request. */
  function Add(c: Config, s: State, x: Id, d: Dir, p: nat, now: int): State {
    var s1 := s.(pos := s.pos[x := p], dir := s.dir[x := d], sorted := s.sorted + 1, clock := now);
    var s2 := Index(s1, d, x, p);
    var h := HalfOf(s2, d);
    WithHalf(s2, d, h.(fifo := h.fifo + [x])).(due := s2.due[x := now + Expire(c, d)])
  }

  /** A bio was merged in front of `x`, which now starts at `p`. */
  function FrontMerged(s: State, d: Dir, x: Id, p: nat): State {
    var h := HalfOf(s, d);
    Index(WithHalf(s, d, h.(sort := Remove(h.sort, x))).(pos := s.pos[x := p]), d, x, p)
  }

  /** `n` is merged into `r`: `r` inherits an earlier expiry with its place, and `n` is forgotten. */
  function Merged(s: State, d: Dir, r: Id, n: Id): State
    requires r in s.due && n in s.due
  {
    var h := HalfOf(s, d);
    var earlier := s.due[n] < s.due[r];
    var fifo := if earlier then InsertAfter(Remove(h.fifo, r), n, r) else h.fifo;
    var due := if earlier then s.due[r := s.due[n]] else s.due;
    var next := if h.next == Some(n) then Latter(h.sort, n) else h.next;
    WithHalf(s, d, Half(Remove(h.sort, n), Remove(fifo, n), next)).(due := due, sorted := s.sorted - 1)
  }

  /** A bio was merged in front of `n`, and that closed the gap to `r`. */
  function FrontAbsorbed(s: State, d: Dir, r: Id, n: Id, p: nat): State
    requires r in s.due && n in s.due
  {
    Merged(s.(pos := s.pos[n := p]), d, r, n)
  }

  /** Which direction to serve when no batch is running. */
  function Choose(c: Config, s: State): Option<Dir> {
    if s.read.fifo != [] && !(s.write.fifo != [] && s.starved >= c.writesStarved) then Some(Read)
    else if s.write.fifo != [] then Some(Write)
    else None
  }

  /** The request to serve in direction `d`: from the FIFO if its head has expired or no batch ran in
      this direction. */
  function Pick(s: State, d: Dir, now: int): Id
    requires var h := HalfOf(s, d); h.fifo != [] && h.fifo[0] in s.due
  {
    var h := HalfOf(s, d);
    if now > s.due[h.fifo[0]] || h.next.None? then h.fifo[0] else h.next.value
  }

  /** The batch under way. */
  function Batch(c: Config, s: State): Option<(Dir, Id)> {
    if s.batching < c.fifoBatch && s.write.next.Some? then Some((Write, s.write.next.value))
    else if s.batching < c.fifoBatch && s.read.next.Some? then Some((Read, s.read.next.value))
    else None
  }

  /** `deadline_dispatch_requests`. */
  function Dispatch(c: Config, s: State, now: int): State
    requires forall d :: HalfOf(s, d).fifo != [] ==> HalfOf(s, d).fifo[0] in s.due
  {
    var b := Batch(c, s);
    var t := s.(clock := now);
    if b.Some? then
      Move(t.(batching := s.batching + 1), b.value.0, b.value.1)
    else if Choose(c, s).None? then t
    else if Choose(c, s) == Some(Read) then
      Move(t.(batching := 1, starved := if s.write.fifo != [] then s.starved + 1 else s.starved), Read,
           Pick(s, Read, now))
    else
      Move(t.(batching := 1, starved := 0), Write, Pick(s, Write, now))
  }

  // ---------------------------------------------------------------- the invariant

  ghost predicate Ascending(pos: map<Id, nat>, s: seq<Id>)
    requires forall x :: x in s ==> x in pos
  {
    forall i, j :: 0 <= i < j < |s| ==> pos[s[i]] < pos[s[j]]
  }

  ghost predicate Timely(due: map<Id, int>, s: seq<Id>)
    requires forall x :: x in s ==> x in due
  {
    forall i, j :: 0 <= i < j < |s| ==> due[s[i]] <= due[s[j]]
  }

  /** Index and FIFO hold the same requests, each in its own order. */
  ghost predicate SortOk(pos: map<Id, nat>, sort: seq<Id>) {
    (forall x :: x in sort ==> x in pos) && Ascending(pos, sort) && Distinct(sort)
  }

  ghost predicate FifoOk(due: map<Id, int>, dir: map<Id, Dir>, d: Dir, latest: int, fifo: seq<Id>) {
    && (forall x :: x in fifo ==> x in due && x in dir && dir[x] == d && due[x] <= latest)
    && Distinct(fifo) && Timely(due, fifo)
  }

  ghost predicate Same(a: seq<Id>, b: seq<Id>) {
    forall x :: x in a <==> x in b
  }

  /** What was dispatched is known, dispatched once and queued no more. */
  ghost predicate OutOk(out: seq<Id>, dir: map<Id, Dir>, read: seq<Id>, write: seq<Id>) {
    Distinct(out) && forall x :: x in out ==> x in dir && x !in read && x !in write
  }

  ghost predicate HalfGood(pos: map<Id, nat>, due: map<Id, int>, dir: map<Id, Dir>, d: Dir, latest: int, h: Half) {
    && SortOk(pos, h.sort)
    && FifoOk(due, dir, d, latest, h.fifo)
    && Same(h.sort, h.fifo)
    && (h.next.Some? ==> h.next.value in h.sort)
  }

  ghost predicate HalfOk(c: Config, s: State, d: Dir) {
    HalfGood(s.pos, s.due, s.dir, d, s.clock + Expire(c, d), HalfOf(s, d))
  }

  ghost predicate Inv(c: Config, s: State) {
    && HalfOk(c, s, Read) && HalfOk(c, s, Write)
    && (s.read.next.None? || s.write.next.None?)
    && s.sorted == |s.read.fifo| + |s.write.fifo|
    && OutOk(s.out, s.dir, s.read.fifo, s.write.fifo)
  }

  // ---------------------------------------------------------------- the pieces keep their order

  lemma RemoveAscending(pos: map<Id, nat>, pos': map<Id, nat>, s: seq<Id>, x: Id)
    requires (forall y :: y in s ==> y in pos) && Ascending(pos, s) && x in s && Distinct(s)
    requires forall y :: y in s && y != x ==> y in pos' && pos'[y] == pos[y]
    ensures (forall y :: y in Remove(s, x) ==> y in pos') && Ascending(pos', Remove(s, x))
  {
    hide Distinct, Remove;
    RemoveKeeps(s, x);
    var i := RemoveMap(s, x);
    var r := Remove(s, x);
    forall j, k | 0 <= j < k < |r| ensures pos'[r[j]] < pos'[r[k]] {
      assert r[j] == s[Skip(i, j)] && r[k] == s[Skip(i, k)];
    }
  }

  lemma RemoveTimely(due: map<Id, int>, s: seq<Id>, x: Id)
    requires (forall y :: y in s ==> y in due) && Timely(due, s) && x in s && Distinct(s)
    ensures (forall y :: y in Remove(s, x) ==> y in due) && Timely(due, Remove(s, x))
  {
    hide Distinct, Remove;
    RemoveKeeps(s, x);
    var i := RemoveMap(s, x);
    var r := Remove(s, x);
    forall j, k | 0 <= j < k < |r| ensures due[r[j]] <= due[r[k]] {
      assert r[j] == s[Skip(i, j)] && r[k] == s[Skip(i, k)];
    }
  }

  lemma {:induction false} AliasFinds(pos: map<Id, nat>, s: seq<Id>, p: nat)
    requires forall y :: y in s ==> y in pos
    ensures var a := Alias(pos, s, p);
            && (a.Some? ==> a.value in s && pos[a.value] == p)
            && (a.None? ==> forall y :: y in s ==> pos[y] != p)
  {
    if s != [] {
      AliasFinds(pos, s[1..], p);
      assert forall y :: y in s <==> y == s[0] || y in s[1..];
    }
  }

  lemma {:induction false} InsertAt(pos: map<Id, nat>, s: seq<Id>, x: Id, p: nat) returns (i: nat)
    requires forall y :: y in s ==> y in pos
    ensures i <= |s| && Insert(pos, s, x, p) == s[..i] + [x] + s[i..]
    ensures (forall j :: 0 <= j < i ==> pos[s[j]] <= p) && (i < |s| ==> pos[s[i]] > p)
  {
    if s == [] || pos[s[0]] > p {
      i := 0;
    } else {
      var k := InsertAt(pos, s[1..], x, p);
      i := k + 1;
      assert s[..i] == [s[0]] + s[1..][..k];
      assert s[i..] == s[1..][k..];
      forall j | 0 <= j < i ensures pos[s[j]] <= p {
        if j > 0 { assert s[j] == s[1..][j - 1]; }
      }
    }
  }

  /** Where element `j` was before an insertion at `i`. */
  function Back(i: nat, j: nat): nat { if j <= i then j else j - 1 }

  lemma InsertMap(pos: map<Id, nat>, s: seq<Id>, x: Id, p: nat) returns (i: nat)
    requires forall y :: y in s ==> y in pos
    ensures var r := Insert(pos, s, x, p);
            && i <= |s| && |r| == |s| + 1 && r[i] == x
            && (forall y :: y in r <==> y in s || y == x)
            && (forall j :: 0 <= j < |r| && j != i ==> r[j] == s[Back(i, j)])
    ensures (forall j :: 0 <= j < i ==> pos[s[j]] <= p) && (i < |s| ==> pos[s[i]] > p)
  {
    i := InsertAt(pos, s, x, p);
    var r := s[..i] + [x] + s[i..];
    forall y | y in s ensures y in r {
      var j :| 0 <= j < |s| && s[j] == y;
      assert r[Skip(i, j)] == y;
    }
    assert r[i] == x;
  }

  lemma AscendingDistinct(pos: map<Id, nat>, s: seq<Id>)
    requires (forall y :: y in s ==> y in pos) && Ascending(pos, s)
    ensures Distinct(s)
  {
  }

  lemma InsertKeeps(pos: map<Id, nat>, s: seq<Id>, x: Id, p: nat)
    requires (forall y :: y in s ==> y in pos) && Ascending(pos, s)
    requires x in pos && pos[x] == p && forall y :: y in s ==> pos[y] != p
    ensures var r := Insert(pos, s, x, p);
            (forall y :: y in r <==> y in s || y == x) && Ascending(pos, r) && Distinct(r)
  {
    hide Insert, Distinct;
    var i := InsertMap(pos, s, x, p);
    var r := Insert(pos, s, x, p);
    forall j, k | 0 <= j < k < |r| ensures pos[r[j]] < pos[r[k]] {
      assert j != i ==> r[j] == s[Back(i, j)] && s[Back(i, j)] in s;
      assert k != i ==> r[k] == s[Back(i, k)];
    }
    AscendingDistinct(pos, r);
  }
}
