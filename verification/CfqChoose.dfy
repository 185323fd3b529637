/** Which request of a CFQ queue to serve next. */
module CfqChoose {
  import opened Options

  datatype Rq = Rq(pos: nat, sync: bool, meta: bool)

  /** `backMax` is in kilobytes; doubling it to sectors happens in 32 bits. */
  datatype Config = Config(backMax: nat, penalty: nat)

  function BackMax(c: Config): nat { (c.backMax * 2) % 0x1_0000_0000 }

  /** Behind the head and out of reach of a short backward seek. */
  predicate Wraps(c: Config, last: nat, s: nat) { s < last && s + BackMax(c) < last }

  /** The cost of going to `s`; a backward seek costs more. */
  function Distance(c: Config, last: nat, s: nat): nat {
    if s >= last then s - last else (last - s) * c.penalty
  }

  /** `cfq_choose_req`. */
  function Choose(c: Config, rq1: Option<Rq>, rq2: Option<Rq>, last: nat): Option<Rq> {
    if rq1.None? || rq1 == rq2 then rq2
    else if rq2.None? then rq1
    else
      var a, b := rq1.value, rq2.value;
      if a.sync && !b.sync then rq1
      else if b.sync && !a.sync then rq2
      else if a.meta && !b.meta then rq1
      else if b.meta && !a.meta then rq2
      else
        var w1, w2 := Wraps(c, last, a.pos), Wraps(c, last, b.pos);
        if !w1 && !w2 then
          var d1, d2 := Distance(c, last, a.pos), Distance(c, last, b.pos);
          if d1 < d2 then rq1
          else if d2 < d1 then rq2
          else if a.pos >= b.pos then rq1 else rq2
        else if !w1 then rq1
        else if !w2 then rq2
        else if a.pos <= b.pos then rq1 else rq2
  }

  // ---------------------------------------------------------------- the order behind it

  function Class(r: Rq): nat { (if r.sync then 0 else 2) + (if r.meta then 0 else 1) }

  /** `a` is nearer than `b`: short of a wrap, by distance and then by the larger sector; beyond it,
      from the lowest sector on. */
  predicate Nearer(c: Config, last: nat, a: nat, b: nat) {
    var w1, w2 := Wraps(c, last, a), Wraps(c, last, b);
    if w1 != w2 then !w1
    else if w1 then a < b
    else
      var d1, d2 := Distance(c, last, a), Distance(c, last, b);
      d1 < d2 || (d1 == d2 && a > b)
  }

  predicate Before(c: Config, last: nat, a: Rq, b: Rq) {
    Class(a) < Class(b) || (Class(a) == Class(b) && Nearer(c, last, a.pos, b.pos))
  }

  /** A strict order, total on requests that differ in class or sector. */
  lemma StrictOrder(c: Config, last: nat, x: Rq, y: Rq, z: Rq)
    ensures !Before(c, last, x, x)
    ensures Before(c, last, x, y) && Before(c, last, y, z) ==> Before(c, last, x, z)
    ensures Class(x) != Class(y) || x.pos != y.pos ==> Before(c, last, x, y) != Before(c, last, y, x)
  {
    hide Distance, Wraps;
  }

  /** The choice is the smaller of the two; the first one of two at the same place. */
  lemma ChooseIsLeast(c: Config, a: Rq, b: Rq, last: nat)
    ensures Choose(c, Some(a), Some(b), last) == if Before(c, last, b, a) then Some(b) else Some(a)
  {
    hide Distance, Wraps;
  }

  // ---------------------------------------------------------------- looking at the neighbours

  ghost predicate Ascending(s: seq<Rq>) {
    forall i, j :: 0 <= i < j < |s| ==> s[i].pos < s[j].pos
  }

  function NextOf(s: seq<Rq>, i: nat): Option<Rq>
    requires i < |s|
  {
    if i + 1 < |s| then Some(s[i + 1]) else if i > 0 then Some(s[0]) else None
  }

  function PrevOf(s: seq<Rq>, i: nat): Option<Rq>
    requires i < |s|
  {
    if i > 0 then Some(s[i - 1]) else None
  }

  /** `cfq_find_next_rq`: only the successor (or the first request, on wrapping) and the predecessor
      of request `i` are looked at. */
  function FindNext(c: Config, s: seq<Rq>, i: nat): Option<Rq>
    requires i < |s|
  {
    Choose(c, NextOf(s, i), PrevOf(s, i), s[i].pos)
  }

  /** `r` is the best of all requests but the last one. */
  ghost predicate BestOf(c: Config, s: seq<Rq>, i: nat, r: Rq)
    requires i < |s|
  {
    && (exists k :: 0 <= k < |s| && k != i && s[k] == r)
    && (forall k :: 0 <= k < |s| && k != i && s[k] != r ==> Before(c, s[i].pos, r, s[k]))
  }

  /** No request but perhaps the last one is of a better class than `r`. */
  ghost predicate TopClass(s: seq<Rq>, i: nat, r: Rq) {
    forall k :: 0 <= k < |s| && k != i ==> Class(r) <= Class(s[k])
  }

  /** No request but perhaps the last one is of a better class than `r`, or nearer in its class. */
  ghost predicate NearestOfTop(c: Config, s: seq<Rq>, i: nat, r: Rq)
    requires i < |s|
  {
    forall k :: 0 <= k < |s| && k != i ==>
      Class(r) < Class(s[k]) || (Class(r) == Class(s[k]) && !Nearer(c, s[i].pos, s[k].pos, r.pos))
  }

  /** The better of two classes. */
  function Better(a: Rq, b: Rq): Rq { if Class(a) < Class(b) then a else b }

  /** The neighbours are of one class (or there is only one). */
  predicate Level(s: seq<Rq>, i: nat)
    requires i < |s| && |s| > 1
  {
    PrevOf(s, i).Some? ==> Class(PrevOf(s, i).value) == Class(NextOf(s, i).value)
  }

  /** When two neighbours are enough: if they are of one class, nothing else may be of a better one;
      if not, nothing else may come before the neighbour of the better class. */
  ghost predicate NeighboursSuffice(c: Config, s: seq<Rq>, i: nat)
    requires i < |s| && |s| > 1
  {
    if Level(s, i) then TopClass(s, i, NextOf(s, i).value)
    else NearestOfTop(c, s, i, Better(NextOf(s, i).value, PrevOf(s, i).value))
  }

  lemma MulOrder(a: nat, b: nat, m: nat)
    requires a <= b
    ensures a * m <= b * m
  {
    assert b * m == a * m + (b - a) * m;
  }

  /** Among requests ahead the next one is nearest; among those behind, in reach, the closest. */
  lemma AheadOrBehind(c: Config, last: nat, a: nat, b: nat)
    ensures last <= a < b ==> Nearer(c, last, a, b)
    ensures b < a < last && !Wraps(c, last, a) ==> Nearer(c, last, a, b)
    ensures Wraps(c, last, a) && a < b && b < last ==> Nearer(c, last, a, b) || !Wraps(c, last, b)
  {
    if b < a < last { MulOrder(last - a, last - b, c.penalty); }
  }

  /** Each other request is no better than the successor or the predecessor. */
  lemma Neighbours(c: Config, s: seq<Rq>, i: nat, k: nat)
    requires Ascending(s) && i < |s| && k < |s| && k != i
    requires TopClass(s, i, NextOf(s, i).value) && Level(s, i)
    ensures var n := NextOf(s, i).value;
            s[k] == n || Before(c, s[i].pos, n, s[k])
            || (PrevOf(s, i).Some? && (s[k] == PrevOf(s, i).value || Before(c, s[i].pos, PrevOf(s, i).value, s[k])))
  {
    hide Distance;
    var last := s[i].pos;
    if k > i {
      AheadOrBehind(c, last, s[i + 1].pos, s[k].pos);
    } else {
      AheadOrBehind(c, last, s[i - 1].pos, s[k].pos);
      AheadOrBehind(c, last, s[0].pos, s[k].pos);
    }
  }

  lemma ChooseAmong(c: Config, s: seq<Rq>, i: nat)
    requires i < |s| && |s| > 1
    ensures FindNext(c, s, i).Some?
    ensures var r := FindNext(c, s, i).value;
            && (exists k :: 0 <= k < |s| && k != i && s[k] == r)
            && !Before(c, s[i].pos, NextOf(s, i).value, r)
            && (PrevOf(s, i).Some? ==> !Before(c, s[i].pos, PrevOf(s, i).value, r))
  {
    hide Distance, Wraps;
    var n, p := NextOf(s, i).value, PrevOf(s, i);
    if p.Some? {
      ChooseIsLeast(c, n, p.value, s[i].pos);
      StrictOrder(c, s[i].pos, n, p.value, p.value);
      StrictOrder(c, s[i].pos, p.value, n, n);
    }
    StrictOrder(c, s[i].pos, n, n, n);
    assert s[if i + 1 < |s| then i + 1 else 0] == n;
    assert p.Some? ==> s[i - 1] == p.value;
  }

  /** Looking at two neighbours finds what a scan of the whole queue would find, exactly when the
      classes around allow it; so in particular for requests of one class. */
  lemma FindNextIsScan(c: Config, s: seq<Rq>, i: nat)
    requires Ascending(s) && i < |s|
    ensures FindNext(c, s, i).None? <==> |s| == 1
    ensures |s| > 1 ==> (BestOf(c, s, i, FindNext(c, s, i).value) <==> NeighboursSuffice(c, s, i))
  {
    hide Before, Choose, Distance, Wraps, TopClass, FindNext, BestOf, NearestOfTop, NextOf, PrevOf;
    if |s| == 1 {
      Alone(c, s, i);
    } else {
      ChooseAmong(c, s, i);
      if Level(s, i) {
        LevelBest(c, s, i);
      } else {
        UnevenBest(c, s, i);
      }
    }
  }

  lemma LevelBest(c: Config, s: seq<Rq>, i: nat)
    requires Ascending(s) && i < |s| && |s| > 1 && Level(s, i)
    ensures FindNext(c, s, i).Some?
    ensures BestOf(c, s, i, FindNext(c, s, i).value) <==> TopClass(s, i, NextOf(s, i).value)
  {
    hide Choose, Distance, Wraps, Nearer, FindNext;
    ChooseAmong(c, s, i);
    var n := NextOf(s, i).value;
    var r := FindNext(c, s, i).value;
    ChosenClass(c, s, i);
    if TopClass(s, i, n) {
      hide Before;
      forall k | 0 <= k < |s| && k != i && s[k] != r ensures Before(c, s[i].pos, r, s[k]) {
        Neighbours(c, s, i, k);
        Beats(c, s, i, k, r);
      }
    }
  }

  lemma ChosenClass(c: Config, s: seq<Rq>, i: nat)
    requires i < |s| && |s| > 1
    ensures FindNext(c, s, i).Some?
    ensures Level(s, i) ==> Class(FindNext(c, s, i).value) == Class(NextOf(s, i).value)
    ensures !Level(s, i) ==> FindNext(c, s, i).value == Better(NextOf(s, i).value, PrevOf(s, i).value)
  {
    hide Choose, Distance, Wraps, Nearer;
    ChooseAmong(c, s, i);
    var n, p := NextOf(s, i).value, PrevOf(s, i);
    if p.Some? {
      ChooseIsLeast(c, n, p.value, s[i].pos);
    } else {
      ChooseOnly(c, n, s[i].pos);
    }
  }

  lemma ChooseOnly(c: Config, n: Rq, last: nat)
    ensures Choose(c, Some(n), None, last) == Some(n)
  {
  }

  lemma UnevenBest(c: Config, s: seq<Rq>, i: nat)
    requires Ascending(s) && i < |s| && |s| > 1 && !Level(s, i)
    ensures FindNext(c, s, i).Some?
    ensures BestOf(c, s, i, FindNext(c, s, i).value) <==>
              NearestOfTop(c, s, i, Better(NextOf(s, i).value, PrevOf(s, i).value))
  {
    hide Choose, Distance, Wraps, Nearer, FindNext, Better, Level;
    ChooseAmong(c, s, i);
    ChosenClass(c, s, i);
    var r := FindNext(c, s, i).value;
    forall k | 0 <= k < |s| && k != i
      ensures s[k] == r || Before(c, s[i].pos, r, s[k]) <==>
                Class(r) < Class(s[k]) || (Class(r) == Class(s[k]) && !Nearer(c, s[i].pos, s[k].pos, r.pos))
    {
      SameOrNot(c, s, s[i].pos, r, s[k]);
      StrictOrder(c, s[i].pos, r, s[k], r);
    }
  }

  lemma Alone(c: Config, s: seq<Rq>, i: nat)
    requires i < |s| == 1
    ensures FindNext(c, s, i).None?
  {
  }

  /** What is not behind its better neighbour is not behind anything that neighbour beats. */
  lemma Beats(c: Config, s: seq<Rq>, i: nat, k: nat, r: Rq)
    requires Ascending(s) && i < |s| && k < |s| && k != i && s[k] != r && NextOf(s, i).Some?
    requires exists j :: 0 <= j < |s| && j != i && s[j] == r
    requires !Before(c, s[i].pos, NextOf(s, i).value, r)
    requires PrevOf(s, i).Some? ==> !Before(c, s[i].pos, PrevOf(s, i).value, r)
    requires var n := NextOf(s, i).value;
             s[k] == n || Before(c, s[i].pos, n, s[k])
             || (PrevOf(s, i).Some? && (s[k] == PrevOf(s, i).value || Before(c, s[i].pos, PrevOf(s, i).value, s[k])))
    ensures Before(c, s[i].pos, r, s[k])
  {
    hide Before;
    var last := s[i].pos;
    var n := NextOf(s, i).value;
    var m := if s[k] == n || Before(c, last, n, s[k]) then n else PrevOf(s, i).value;
    var j :| 0 <= j < |s| && j != i && s[j] == r;
    assert s[j].pos != s[k].pos;
    StrictOrder(c, last, r, m, s[k]);
    StrictOrder(c, last, m, r, s[k]);
    StrictOrder(c, last, r, s[k], m);
    SameOrNot(c, s, last, r, m);
  }

  /** Two requests of the queue at the same sector are the same. */
  lemma SameOrNot(c: Config, s: seq<Rq>, last: nat, r: Rq, m: Rq)
    requires Ascending(s) && r in s && m in s
    ensures r.pos == m.pos ==> r == m
  {
    var i :| 0 <= i < |s| && s[i] == r;
    var j :| 0 <= j < |s| && s[j] == m;
    assert i < j || j < i || i == j;
  }

  /** With a better class further away, the two neighbours are not enough. */
  lemma BetterClassMissed(c: Config)
    ensures var s := [Rq(10, false, false), Rq(12, false, false), Rq(20, true, false)];
            && Ascending(s) && FindNext(c, s, 0) == Some(s[1])
            && !BestOf(c, s, 0, s[1]) && BestOf(c, s, 0, s[2])
  {
    var s := [Rq(10, false, false), Rq(12, false, false), Rq(20, true, false)];
    assert NextOf(s, 0) == Some(s[1]) && PrevOf(s, 0) == None;
    assert Class(s[2]) < Class(s[1]);
    assert !Before(c, 10, s[1], s[2]);
  }
}
