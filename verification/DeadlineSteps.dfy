/** Every operation of the deadline scheduler keeps its invariant. */
module DeadlineSteps {
  import opened Lists
  import opened Options
  import opened Deadline

  // ---------------------------------------------------------------- moving a request out

  lemma MoveHalf(c: Config, s: State, d: Dir, x: Id)
    requires HalfOk(c, s, d) && x in HalfOf(s, d).fifo
    ensures var h := HalfOf(s, d);
            var sort, fifo, next := Remove(h.sort, x), Remove(h.fifo, x), Latter(h.sort, x);
            && SortOk(s.pos, sort) && FifoOk(s.due, s.dir, d, s.clock + Expire(c, d), fifo) && Same(sort, fifo)
            && (next.Some? ==> next.value in sort)
            && |fifo| == |h.fifo| - 1 && (forall y :: y in fifo <==> y in h.fifo && y != x)
  {
    hide Distinct, Remove, Latter, Ascending, Timely;
    var h := HalfOf(s, d);
    RemoveKeeps(h.sort, x);
    LatterStays(h.sort, x);
    RemoveKeeps(h.fifo, x);
    LatterStays(h.fifo, x);
    RemoveAscending(s.pos, s.pos, h.sort, x);
    RemoveTimely(s.due, h.fifo, x);
  }

  function Other(d: Dir): Dir { if d.Read? then Write else Read }

  /** A queued request is in one direction only and not dispatched. */
  lemma Apart(c: Config, s: State, d: Dir, x: Id)
    requires Inv(c, s) && x in HalfOf(s, d).fifo
    ensures x !in HalfOf(s, Other(d)).fifo && x !in s.out && x in s.dir
  {
    hide Distinct, Timely, SortOk, Same;
  }

  /** The dispatched requests grow by `moved`; nobody dispatched comes back. */
  lemma OutStep(s: State, s': State, moved: Option<Id>)
    requires OutOk(s.out, s.dir, s.read.fifo, s.write.fifo)
    requires s'.out == s.out + (if moved.Some? then [moved.value] else []) && s.dir.Keys <= s'.dir.Keys
    requires moved.Some? ==> moved.value !in s.out && moved.value in s'.dir
                             && moved.value !in s'.read.fifo && moved.value !in s'.write.fifo
    requires forall y :: y in s'.read.fifo ==> y in s.read.fifo || y !in s.dir
    requires forall y :: y in s'.write.fifo ==> y in s.write.fifo || y !in s.dir
    ensures OutOk(s'.out, s'.dir, s'.read.fifo, s'.write.fifo)
  {
    forall y | y in s'.out ensures y in s'.dir && y !in s'.read.fifo && y !in s'.write.fifo {
      if y in s.out { assert y in s.dir.Keys; }
    }
  }

  lemma MoveInv(c: Config, s: State, d: Dir, x: Id)
    requires Inv(c, s) && x in HalfOf(s, d).fifo
    ensures Inv(c, Move(s, d, x))
  {
    hide SortOk, Remove, Latter, FifoOk, OutOk, Same;
    Apart(c, s, d, x);
    MoveHalf(c, s, d, x);
    var s' := Move(s, d, x);
    OutStep(s, s', Some(x));
  }

  // ---------------------------------------------------------------- indexing a request

  /** The direction while `x` is not indexed: without it, index and FIFO agree. */
  ghost predicate Loose(pos: map<Id, nat>, h: Half, x: Id, p: nat) {
    && SortOk(pos, h.sort) && x in pos && pos[x] == p && x !in h.sort && Distinct(h.fifo)
    && (forall y :: y != x ==> (y in h.sort <==> y in h.fifo))
    && (h.next.Some? ==> h.next.value in h.sort || h.next.value == x)
  }

  /** The direction once whatever shared its sector is gone and `x` is indexed. */
  function Indexed(pos: map<Id, nat>, h: Half, x: Id, p: nat): Half {
    var a := Alias(pos, h.sort, p);
    var h1 := if a.Some? then Half(Remove(h.sort, a.value), Remove(h.fifo, a.value), Latter(h.sort, a.value)) else h;
    h1.(sort := Insert(pos, h1.sort, x, p))
  }

  lemma IndexedOk(pos: map<Id, nat>, h: Half, x: Id, p: nat)
    requires Loose(pos, h, x, p)
    ensures var h' := Indexed(pos, h, x, p);
            && SortOk(pos, h'.sort) && x in h'.sort
            && (forall y :: y != x ==> (y in h'.sort <==> y in h'.fifo))
            && (h'.next.Some? ==> h'.next.value in h'.sort)
    ensures var a := Alias(pos, h.sort, p); a.Some? ==> a.value in h.sort && a.value in h.fifo && a.value != x
  {
    hide Distinct, Remove, Latter, Ascending, Insert, Alias;
    AliasFinds(pos, h.sort, p);
    var a := Alias(pos, h.sort, p);
    if a.Some? {
      RemoveKeeps(h.sort, a.value);
      LatterStays(h.sort, a.value);
      RemoveKeeps(h.fifo, a.value);
      RemoveAscending(pos, pos, h.sort, a.value);
      assert forall y :: y in Remove(h.sort, a.value) ==> pos[y] != p by { OneAlias(pos, h.sort, a.value); }
      InsertKeeps(pos, Remove(h.sort, a.value), x, p);
    } else {
      InsertKeeps(pos, h.sort, x, p);
    }
  }

  /** No two queued requests start at the same sector. */
  lemma OneAlias(pos: map<Id, nat>, s: seq<Id>, a: Id)
    requires SortOk(pos, s) && a in s
    ensures forall y :: y in s && y != a ==> pos[y] != pos[a]
  {
    var i :| 0 <= i < |s| && s[i] == a;
    forall y | y in s && y != a ensures pos[y] != pos[a] {
      var j :| 0 <= j < |s| && s[j] == y;
      assert i < j || j < i;
    }
  }

  /** `Index` on the whole state. */
  lemma IndexParts(s: State, d: Dir, x: Id, p: nat)
    ensures var s' := Index(s, d, x, p);
            var h, o := HalfOf(s, d), HalfOf(s, Other(d));
            var a := Alias(s.pos, h.sort, p);
            && HalfOf(s', d) == Indexed(s.pos, h, x, p)
            && HalfOf(s', Other(d)) == (if a.Some? then o.(next := None) else o)
            && s'.out == (if a.Some? then s.out + [a.value] else s.out)
            && s'.sorted == (if a.Some? then s.sorted - 1 else s.sorted)
            && s' == s.(read := s'.read, write := s'.write, out := s'.out, sorted := s'.sorted)
  {
  }

  lemma SortFrame(pos: map<Id, nat>, sort: seq<Id>, x: Id, p: nat)
    requires SortOk(pos, sort) && x !in sort
    ensures SortOk(pos[x := p], sort)
  {
  }

  lemma FifoFresh(due: map<Id, int>, dir: map<Id, Dir>, d: Dir, latest: int, fifo: seq<Id>, x: Id, v: int, e: Dir,
                  latest': int)
    requires FifoOk(due, dir, d, latest, fifo) && latest <= latest' && x !in fifo
    ensures FifoOk(due[x := v], dir[x := e], d, latest', fifo)
  {
    var due' := due[x := v];
    forall j, k | 0 <= j < k < |fifo| ensures due'[fifo[j]] <= due'[fifo[k]] {
      assert fifo[j] in fifo && fifo[k] in fifo;
    }
  }

  lemma FifoRemove(due: map<Id, int>, dir: map<Id, Dir>, d: Dir, latest: int, fifo: seq<Id>, x: Id)
    requires FifoOk(due, dir, d, latest, fifo) && x in fifo
    ensures FifoOk(due, dir, d, latest, Remove(fifo, x)) && |Remove(fifo, x)| == |fifo| - 1
    ensures forall y :: y in Remove(fifo, x) <==> y in fifo && y != x
  {
    hide Remove, Distinct, Timely;
    RemoveKeeps(fifo, x);
    LatterStays(fifo, x);
    RemoveTimely(due, fifo, x);
  }

  lemma FifoAppend(due: map<Id, int>, dir: map<Id, Dir>, d: Dir, latest: int, fifo: seq<Id>, x: Id)
    requires FifoOk(due, dir, d, latest, fifo) && x !in fifo && x in due && due[x] == latest && x in dir && dir[x] == d
    ensures FifoOk(due, dir, d, latest, fifo + [x])
  {
    var f := fifo + [x];
    forall j, k | 0 <= j < k < |f| ensures due[f[j]] <= due[f[k]] && f[j] != f[k] {
      assert f[j] in fifo;
      if k < |fifo| { assert f[k] == fifo[k]; }
    }
  }

  /** A request never seen before is nowhere. */
  lemma Unknown(c: Config, s: State, d: Dir, x: Id)
    requires Inv(c, s) && x !in s.dir
    ensures x !in HalfOf(s, d).fifo && x !in HalfOf(s, d).sort && x !in s.out
  {
    hide SortOk, Distinct, Timely;
  }

  /** The direction a new request joins. */
  function Joined(pos: map<Id, nat>, h: Half, x: Id, p: nat): Half {
    var h1 := Indexed(pos, h, x, p);
    h1.(fifo := h1.fifo + [x])
  }

  lemma JoinedGood(pos: map<Id, nat>, due: map<Id, int>, dir: map<Id, Dir>, d: Dir, latest: int, h: Half, x: Id,
                   p: nat, latest': int)
    requires HalfGood(pos, due, dir, d, latest, h) && x !in h.fifo && latest <= latest'
    ensures HalfGood(pos[x := p], due[x := latest'], dir[x := d], d, latest', Joined(pos[x := p], h, x, p))
    ensures var a := Alias(pos[x := p], h.sort, p);
            var h' := Joined(pos[x := p], h, x, p);
            if a.Some? then
              && a.value in h.fifo && a.value != x && |h'.fifo| == |h.fifo|
              && (forall y :: y in h'.fifo <==> (y in h.fifo && y != a.value) || y == x)
            else h'.fifo == h.fifo + [x]
  {
    hide SortOk, FifoOk, Alias, Distinct, Remove, Indexed;
    var pos', due', dir' := pos[x := p], due[x := latest'], dir[x := d];
    SortFrame(pos, h.sort, x, p);
    FifoFresh(due, dir, d, latest, h.fifo, x, latest', d, latest');
    FifoDistinct(due, dir, d, latest, h.fifo);
    IndexedOk(pos', h, x, p);
    IndexedFifo(pos', h, x, p);
    var a := Alias(pos', h.sort, p);
    if a.Some? {
      FifoRemove(due', dir', d, latest', h.fifo, a.value);
    }
    var h1 := Indexed(pos', h, x, p);
    FifoAppend(due', dir', d, latest', h1.fifo, x);
    SameAppend(h1.sort, h1.fifo, x);
  }

  lemma FifoDistinct(due: map<Id, int>, dir: map<Id, Dir>, d: Dir, latest: int, fifo: seq<Id>)
    requires FifoOk(due, dir, d, latest, fifo)
    ensures Distinct(fifo)
  {
  }

  /** The direction it does not join. */
  lemma OtherGood(pos: map<Id, nat>, due: map<Id, int>, dir: map<Id, Dir>, d: Dir, latest: int, h: Half,
                  x: Id, p: nat, v: int, e: Dir, latest': int)
    requires HalfGood(pos, due, dir, d, latest, h) && x !in h.fifo && latest <= latest'
    ensures HalfGood(pos[x := p], due[x := v], dir[x := e], d, latest', h)
    ensures HalfGood(pos[x := p], due[x := v], dir[x := e], d, latest', h.(next := None))
  {
    SortFrame(pos, h.sort, x, p);
    FifoFresh(due, dir, d, latest, h.fifo, x, v, e, latest');
  }

  lemma AddParts(c: Config, s: State, x: Id, d: Dir, p: nat, now: int)
    ensures var s' := Add(c, s, x, d, p, now);
            var pos' := s.pos[x := p];
            var a := Alias(pos', HalfOf(s, d).sort, p);
            var o := HalfOf(s, Other(d));
            && s'.pos == pos' && s'.dir == s.dir[x := d] && s'.due == s.due[x := now + Expire(c, d)] && s'.clock == now
            && HalfOf(s', d) == Joined(pos', HalfOf(s, d), x, p)
            && HalfOf(s', Other(d)) == (if a.Some? then o.(next := None) else o)
            && s'.out == s.out + (if a.Some? then [a.value] else [])
            && s'.sorted == (if a.Some? then s.sorted else s.sorted + 1)
            && s'.batching == s.batching && s'.starved == s.starved
  {
    hide Index, Indexed, Alias;
    var s1 := s.(pos := s.pos[x := p], dir := s.dir[x := d], sorted := s.sorted + 1, clock := now);
    IndexParts(s1, d, x, p);
  }

  lemma AddInv(c: Config, s: State, x: Id, d: Dir, p: nat, now: int)
    requires Inv(c, s) && x !in s.dir && now >= s.clock
    ensures Inv(c, Add(c, s, x, d, p, now))
  {
    hide HalfGood, OutOk, Joined, Add, Alias;
    var h, o := HalfOf(s, d), HalfOf(s, Other(d));
    var s' := Add(c, s, x, d, p, now);
    AddParts(c, s, x, d, p, now);
    Unknown(c, s, d, x);
    Unknown(c, s, Other(d), x);
    assert HalfOk(c, s, d) && HalfOk(c, s, Other(d));
    JoinedGood(s.pos, s.due, s.dir, d, s.clock + Expire(c, d), h, x, p, now + Expire(c, d));
    OtherGood(s.pos, s.due, s.dir, Other(d), s.clock + Expire(c, Other(d)), o, x, p, now + Expire(c, d), d,
              now + Expire(c, Other(d)));
    var a := Alias(s.pos[x := p], h.sort, p);
    if a.Some? { Apart(c, s, d, a.value); }
    assert HalfOk(c, s', d) && HalfOk(c, s', Other(d));
    OutStep(s, s', a);
    assert h.next.None? || o.next.None?;
    IndexedNext(s.pos[x := p], h, x, p);
  }

  lemma IndexedNext(pos: map<Id, nat>, h: Half, x: Id, p: nat)
    ensures Alias(pos, h.sort, p).None? ==> Joined(pos, h, x, p).next == h.next
  {
  }

  lemma SameAppend(sort: seq<Id>, fifo: seq<Id>, x: Id)
    requires x in sort && forall y :: y != x ==> (y in sort <==> y in fifo)
    ensures Same(sort, fifo + [x])
  {
  }

  lemma IndexedFifo(pos: map<Id, nat>, h: Half, x: Id, p: nat)
    ensures var a := Alias(pos, h.sort, p);
            Indexed(pos, h, x, p).fifo == if a.Some? then Remove(h.fifo, a.value) else h.fifo
  {
  }

  // ---------------------------------------------------------------- a front merge repositions

  function Repositioned(pos: map<Id, nat>, h: Half, x: Id, p: nat): Half {
    Indexed(pos, h.(sort := Remove(h.sort, x)), x, p)
  }

  lemma SortRemove(pos: map<Id, nat>, sort: seq<Id>, x: Id, p: nat)
    requires SortOk(pos, sort) && x in sort
    ensures SortOk(pos[x := p], Remove(sort, x)) && (forall y :: y in Remove(sort, x) <==> y in sort && y != x)
    ensures Latter(sort, x).Some? ==> Latter(sort, x).value in Remove(sort, x)
  {
    hide Remove, Distinct, Ascending, Latter;
    RemoveKeeps(sort, x);
    LatterStays(sort, x);
    RemoveAscending(pos, pos[x := p], sort, x);
  }

  lemma RepositionedGood(pos: map<Id, nat>, due: map<Id, int>, dir: map<Id, Dir>, d: Dir, latest: int, h: Half, x: Id,
                         p: nat)
    requires HalfGood(pos, due, dir, d, latest, h) && x in h.fifo
    ensures HalfGood(pos[x := p], due, dir, d, latest, Repositioned(pos[x := p], h, x, p))
    ensures var a := Alias(pos[x := p], Remove(h.sort, x), p);
            var h' := Repositioned(pos[x := p], h, x, p);
            if a.Some? then
              && a.value in h.fifo && a.value != x && |h'.fifo| == |h.fifo| - 1
              && (forall y :: y in h'.fifo <==> y in h.fifo && y != a.value)
            else h'.fifo == h.fifo && h'.next == h.next
  {
    hide SortOk, FifoOk, Alias, Distinct, Remove, Latter, Insert;
    var pos' := pos[x := p];
    var h1 := h.(sort := Remove(h.sort, x));
    SortRemove(pos, h.sort, x, p);
    FifoDistinct(due, dir, d, latest, h.fifo);
    IndexedOk(pos', h1, x, p);
    IndexedFifo(pos', h1, x, p);
    var a := Alias(pos', h1.sort, p);
    if a.Some? {
      FifoRemove(due, dir, d, latest, h.fifo, a.value);
    }
    var h' := Indexed(pos', h1, x, p);
    assert forall y :: y in h'.sort <==> y in h'.fifo;
  }

  lemma OtherKeeps(pos: map<Id, nat>, due: map<Id, int>, dir: map<Id, Dir>, d: Dir, latest: int, h: Half, x: Id, p: nat)
    requires HalfGood(pos, due, dir, d, latest, h) && x !in h.fifo
    ensures HalfGood(pos[x := p], due, dir, d, latest, h)
    ensures HalfGood(pos[x := p], due, dir, d, latest, h.(next := None))
  {
    SortFrame(pos, h.sort, x, p);
  }

  lemma FrontMergedParts(s: State, d: Dir, x: Id, p: nat)
    ensures var s' := FrontMerged(s, d, x, p);
            var pos' := s.pos[x := p];
            var a := Alias(pos', Remove(HalfOf(s, d).sort, x), p);
            var o := HalfOf(s, Other(d));
            && HalfOf(s', d) == Repositioned(pos', HalfOf(s, d), x, p)
            && HalfOf(s', Other(d)) == (if a.Some? then o.(next := None) else o)
            && s'.out == s.out + (if a.Some? then [a.value] else [])
            && s'.sorted == (if a.Some? then s.sorted - 1 else s.sorted)
            && s' == s.(pos := pos', read := s'.read, write := s'.write, out := s'.out, sorted := s'.sorted)
  {
    hide Index, Indexed, Alias, Remove;
    var h := HalfOf(s, d);
    IndexParts(WithHalf(s, d, h.(sort := Remove(h.sort, x))).(pos := s.pos[x := p]), d, x, p);
    assert s.out + [] == s.out;
  }

  lemma FrontMergedInv(c: Config, s: State, d: Dir, x: Id, p: nat)
    requires Inv(c, s) && x in HalfOf(s, d).fifo
    ensures Inv(c, FrontMerged(s, d, x, p))
  {
    hide HalfGood, OutOk, Repositioned, FrontMerged, Alias, Remove;
    var h, o := HalfOf(s, d), HalfOf(s, Other(d));
    var s' := FrontMerged(s, d, x, p);
    FrontMergedParts(s, d, x, p);
    Apart(c, s, d, x);
    assert HalfOk(c, s, d) && HalfOk(c, s, Other(d));
    RepositionedGood(s.pos, s.due, s.dir, d, s.clock + Expire(c, d), h, x, p);
    OtherKeeps(s.pos, s.due, s.dir, Other(d), s.clock + Expire(c, Other(d)), o, x, p);
    var a := Alias(s.pos[x := p], Remove(h.sort, x), p);
    if a.Some? { Apart(c, s, d, a.value); }
    assert HalfOk(c, s', d) && HalfOk(c, s', Other(d));
    OutStep(s, s', a);
    assert h.next.None? || o.next.None?;
  }

  // ---------------------------------------------------------------- merging requests

  lemma FifoInsert(due: map<Id, int>, dir: map<Id, Dir>, d: Dir, latest: int, fifo: seq<Id>, n: Id, r: Id)
    requires FifoOk(due, dir, d, latest, fifo) && n in fifo && r !in fifo
    requires r in due && due[r] == due[n] && r in dir && dir[r] == d
    ensures FifoOk(due, dir, d, latest, InsertAfter(fifo, n, r))
    ensures forall y :: y in InsertAfter(fifo, n, r) <==> y in fifo || y == r
    ensures |InsertAfter(fifo, n, r)| == |fifo| + 1
  {
    hide InsertAfter;
    var i := InsertAfterMap(fifo, n, r);
    var f := InsertAfter(fifo, n, r);
    forall j, k | 0 <= j < k < |f| ensures f[j] != f[k] && due[f[j]] <= due[f[k]] {
      assert j != i + 1 ==> f[j] == fifo[Back(i + 1, j)] && fifo[Back(i + 1, j)] in fifo;
      assert k != i + 1 ==> f[k] == fifo[Back(i + 1, k)] && fifo[Back(i + 1, k)] in fifo;
    }
  }

  lemma InsertAfterMap(s: seq<Id>, a: Id, x: Id) returns (i: nat)
    requires a in s
    ensures var r := InsertAfter(s, a, x);
            && i < |s| && s[i] == a && |r| == |s| + 1 && r[i + 1] == x
            && (forall y :: y in r <==> y in s || y == x)
            && (forall j :: 0 <= j < |r| && j != i + 1 ==> r[j] == s[Back(i + 1, j)])
  {
    i := InsertAfterAt(s, a, x);
    var r := s[..i + 1] + [x] + s[i + 1..];
    forall y | y in s ensures y in r {
      var j :| 0 <= j < |s| && s[j] == y;
      assert r[Skip(i + 1, j)] == y;
    }
    assert r[i + 1] == x;
  }

  /** The request absorbed may have been moved down by a bio in front of it. */
  lemma MergedGood(pos: map<Id, nat>, due: map<Id, int>, dir: map<Id, Dir>, d: Dir, latest: int, h: Half, r: Id, n: Id,
                   p: nat)
    requires HalfGood(pos, due, dir, d, latest, h) && r in h.fifo && n in h.fifo && r != n
    requires r in due && n in due
    ensures var earlier := due[n] < due[r];
            var fifo := if earlier then InsertAfter(Remove(h.fifo, r), n, r) else h.fifo;
            var due' := if earlier then due[r := due[n]] else due;
            var next := if h.next == Some(n) then Latter(h.sort, n) else h.next;
            var h' := Half(Remove(h.sort, n), Remove(fifo, n), next);
            && HalfGood(pos[n := p], due', dir, d, latest, h') && |h'.fifo| == |h.fifo| - 1
            && (forall y :: y in h'.fifo <==> y in h.fifo && y != n)
  {
    hide SortOk, Distinct, Remove, Latter, InsertAfter, FifoOk;
    SortRemove(pos, h.sort, n, p);
    if due[n] < due[r] {
      var due' := due[r := due[n]];
      FifoRemove(due, dir, d, latest, h.fifo, r);
      FifoDir(due, dir, d, latest, h.fifo, r);
      var g := Remove(h.fifo, r);
      FifoFresh(due, dir, d, latest, g, r, due[n], d, latest);
      assert dir[r := d] == dir;
      FifoInsert(due', dir, d, latest, g, n, r);
      FifoRemove(due', dir, d, latest, InsertAfter(g, n, r), n);
    } else {
      FifoRemove(due, dir, d, latest, h.fifo, n);
    }
  }

  lemma FifoDir(due: map<Id, int>, dir: map<Id, Dir>, d: Dir, latest: int, fifo: seq<Id>, x: Id)
    requires FifoOk(due, dir, d, latest, fifo) && x in fifo
    ensures x in dir && dir[x] == d && x in due
  {
  }

  lemma OtherDue(pos: map<Id, nat>, due: map<Id, int>, dir: map<Id, Dir>, d: Dir, latest: int, h: Half, n: Id, p: nat,
                 r: Id, v: int)
    requires HalfGood(pos, due, dir, d, latest, h) && n !in h.fifo && r !in h.fifo
    ensures HalfGood(pos[n := p], due, dir, d, latest, h) && HalfGood(pos[n := p], due[r := v], dir, d, latest, h)
  {
    SortFrame(pos, h.sort, n, p);
    var due' := due[r := v];
    forall j, k | 0 <= j < k < |h.fifo| ensures due'[h.fifo[j]] <= due'[h.fifo[k]] {
      assert h.fifo[j] in h.fifo && h.fifo[k] in h.fifo;
    }
  }

  lemma FrontAbsorbedInv(c: Config, s: State, d: Dir, r: Id, n: Id, p: nat)
    requires Inv(c, s) && r in HalfOf(s, d).fifo && n in HalfOf(s, d).fifo && r != n
    ensures r in s.due && n in s.due && Inv(c, FrontAbsorbed(s, d, r, n, p))
  {
    hide SortOk, FifoOk, OutOk, Remove, Latter, InsertAfter, Same;
    var h, o := HalfOf(s, d), HalfOf(s, Other(d));
    Apart(c, s, d, r);
    Apart(c, s, d, n);
    assert HalfOk(c, s, d) && HalfOk(c, s, Other(d));
    FifoDir(s.due, s.dir, d, s.clock + Expire(c, d), h.fifo, r);
    FifoDir(s.due, s.dir, d, s.clock + Expire(c, d), h.fifo, n);
    hide HalfGood;
    MergedGood(s.pos, s.due, s.dir, d, s.clock + Expire(c, d), h, r, n, p);
    OtherDue(s.pos, s.due, s.dir, Other(d), s.clock + Expire(c, Other(d)), o, n, p, r, s.due[n]);
    var s' := FrontAbsorbed(s, d, r, n, p);
    assert HalfOk(c, s', d) && HalfOk(c, s', Other(d));
    assert s.out + [] == s.out;
    OutStep(s, s', None);
    assert h.next.None? || o.next.None?;
    LatterNone(h, n);
  }

  lemma LatterNone(h: Half, n: Id)
    ensures h.next.None? ==> (if h.next == Some(n) then Latter(h.sort, n) else h.next).None?
  {
  }

  lemma MergedInv(c: Config, s: State, d: Dir, r: Id, n: Id)
    requires Inv(c, s) && r in HalfOf(s, d).fifo && n in HalfOf(s, d).fifo && r != n
    ensures r in s.due && n in s.due && Inv(c, Merged(s, d, r, n))
  {
    hide Merged, FifoOk, OutOk;
    assert n in s.pos && n in s.due && r in s.due by { Known(c, s, d, n); Known(c, s, d, r); }
    FrontAbsorbedInv(c, s, d, r, n, s.pos[n]);
    assert s.pos[n := s.pos[n]] == s.pos;
  }

  lemma Known(c: Config, s: State, d: Dir, x: Id)
    requires HalfOk(c, s, d) && x in HalfOf(s, d).fifo
    ensures x in s.pos && x in s.due
  {
  }

  // ---------------------------------------------------------------- dispatching

  lemma Later(c: Config, s: State, now: int, batching: nat, starved: nat)
    requires Inv(c, s) && now >= s.clock
    ensures Inv(c, s.(clock := now, batching := batching, starved := starved))
  {
    hide SortOk, OutOk, Timely, Distinct;
  }

  lemma NextQueued(c: Config, s: State, d: Dir)
    requires Inv(c, s)
    ensures HalfOf(s, d).next.Some? ==> HalfOf(s, d).next.value in HalfOf(s, d).fifo
    ensures HalfOf(s, d).fifo != [] ==> HalfOf(s, d).fifo[0] in s.due
  {
    hide SortOk, OutOk, Timely, Distinct;
    assert HalfOk(c, s, d);
    if HalfOf(s, d).fifo != [] { assert HalfOf(s, d).fifo[0] in HalfOf(s, d).fifo; }
  }

  lemma DispatchInv(c: Config, s: State, now: int)
    requires Inv(c, s) && now >= s.clock
    ensures forall d :: HalfOf(s, d).fifo != [] ==> HalfOf(s, d).fifo[0] in s.due
    ensures Inv(c, Dispatch(c, s, now))
  {
    hide Inv, Move;
    NextQueued(c, s, Read);
    NextQueued(c, s, Write);
    assert forall d :: HalfOf(s, d) == if d.Read? then s.read else s.write;
    forall d ensures HalfOf(s, d).fifo != [] ==> HalfOf(s, d).fifo[0] in s.due { NextQueued(c, s, d); }
    var b := Batch(c, s);
    Later(c, s, now, s.batching, s.starved);
    if b.Some? {
      Later(c, s, now, s.batching + 1, s.starved);
      MoveInv(c, s.(clock := now, batching := s.batching + 1), b.value.0, b.value.1);
    } else if Choose(c, s) == Some(Read) {
      var n := if s.write.fifo != [] then s.starved + 1 else s.starved;
      Later(c, s, now, 1, n);
      MoveInv(c, s.(clock := now, batching := 1, starved := n), Read, Pick(s, Read, now));
    } else if Choose(c, s) == Some(Write) {
      Later(c, s, now, 1, 0);
      MoveInv(c, s.(clock := now, batching := 1, starved := 0), Write, Pick(s, Write, now));
    }
  }
}
