/** Segment counting under merging.

    A request is a chain of bios, each a list of memory vectors.  The driver later maps the whole
    request to a scatter list, greedily joining neighbouring vectors.  Merging never looks at that
    list: it adds up per-bio segment counts and subtracts one where two requests meet.  The counts
    must bound what the greedy mapping produces. */
module Segments {

  /** One bio_vec; `page` and `offset` only matter to the physical-contiguity test. */
  datatype Vec = Vec(page: nat, offset: nat, len: nat, high: bool)

  /** Queue limits.  `contig` stands for BIOVEC_PHYS_MERGEABLE and BIOVEC_SEG_BOUNDARY together. */
  datatype Limits = Limits(maxSize: nat, maxSegments: nat, maxSectors: nat, cluster: bool, contig: (Vec, Vec) -> bool)

  /** May `b` follow `a` in one segment?  Counting also keeps bounced (high) pages apart. */
  predicate Joins(lim: Limits, counting: bool, a: Vec, b: Vec) {
    lim.cluster && lim.contig(a, b) && (counting ==> !a.high && !b.high)
  }

  /** Segments opened for `v` behind an open segment that ends in `prev` and has `size` bytes. */
  function Opens(lim: Limits, counting: bool, prev: Vec, size: nat, v: seq<Vec>): nat
    decreases |v|
  {
    if v == [] then 0
    else if size + v[0].len <= lim.maxSize && Joins(lim, counting, prev, v[0]) then
      Opens(lim, counting, v[0], size + v[0].len, v[1..])
    else 1 + Opens(lim, counting, v[0], v[0].len, v[1..])
  }

  /** The number of segments the greedy scan makes of `v`. */
  function Count(lim: Limits, counting: bool, v: seq<Vec>): nat {
    if v == [] then 0 else 1 + Opens(lim, counting, v[0], v[0].len, v[1..])
  }

  // ---------------------------------------------------------------- segmentations

  function Size(seg: seq<Vec>): nat {
    if seg == [] then 0 else Size(seg[..|seg| - 1]) + seg[|seg| - 1].len
  }

  function Flatten(segs: seq<seq<Vec>>): seq<Vec> {
    if segs == [] then [] else segs[0] + Flatten(segs[1..])
  }

  /** A run of vectors the hardware accepts as one segment. */
  predicate ValidSegment(lim: Limits, seg: seq<Vec>) {
    && seg != []
    && (forall i :: 0 < i < |seg| ==> Joins(lim, false, seg[i - 1], seg[i]))
    && (|seg| == 1 || Size(seg) <= lim.maxSize)
  }

  /** A way to cut `v` into `n` segments whose first and last are no larger than recorded. */
  ghost predicate Cuts(lim: Limits, segs: seq<seq<Vec>>, v: seq<Vec>, n: nat, front: nat, back: nat) {
    && |segs| == n && Flatten(segs) == v
    && (forall i :: 0 <= i < |segs| ==> ValidSegment(lim, segs[i]))
    && (n > 0 ==> Size(segs[0]) <= front && Size(segs[n - 1]) <= back)
  }

  /** The bookkeeping is sound: some segmentation has exactly the recorded count and sizes. */
  ghost predicate Explained(lim: Limits, v: seq<Vec>, n: nat, front: nat, back: nat) {
    exists segs :: Cuts(lim, segs, v, n, front, back)
  }

  // ---------------------------------------------------------------- greedy stays ahead

  /** A smaller open segment never costs more, and any other size costs at most one more. */
  lemma {:induction false} OpensMonotone(lim: Limits, counting: bool, prev: Vec, s: nat, t: nat, v: seq<Vec>)
    ensures s <= t ==> Opens(lim, counting, prev, s, v) <= Opens(lim, counting, prev, t, v)
    ensures Opens(lim, counting, prev, s, v) <= 1 + Opens(lim, counting, prev, t, v)
    decreases |v|
  {
    if v != [] {
      OpensMonotone(lim, counting, v[0], s + v[0].len, t + v[0].len, v[1..]);
      OpensMonotone(lim, counting, v[0], s + v[0].len, v[0].len, v[1..]);
      OpensMonotone(lim, counting, v[0], v[0].len, t + v[0].len, v[1..]);
    }
  }

  lemma OpensAtMostCount(lim: Limits, counting: bool, prev: Vec, s: nat, v: seq<Vec>)
    ensures Opens(lim, counting, prev, s, v) <= Count(lim, counting, v)
  {
    if v != [] {
      OpensMonotone(lim, counting, v[0], s + v[0].len, v[0].len, v[1..]);
    }
  }

  /** Greedy mapping swallows a valid segment whole. */
  lemma {:induction false} SwallowSegment(lim: Limits, seg: seq<Vec>, k: nat, w: seq<Vec>)
    requires ValidSegment(lim, seg) && 1 <= k <= |seg|
    ensures Opens(lim, false, seg[k - 1], Size(seg[..k]), seg[k..] + w)
         == Opens(lim, false, seg[|seg| - 1], Size(seg), w)
    decreases |seg| - k
  {
    if k == |seg| {
      assert seg[k..] + w == w && seg[..k] == seg;
    } else {
      var rest := seg[k..] + w;
      assert rest[0] == seg[k] && rest[1..] == seg[k + 1..] + w;
      assert seg[..k + 1][..k] == seg[..k];
      SizePrefix(seg, k + 1);
      SwallowSegment(lim, seg, k + 1, w);
      assert Joins(lim, false, seg[k - 1], seg[k]);
    }
  }

  lemma {:induction false} SizePrefix(seg: seq<Vec>, k: nat)
    requires k <= |seg|
    ensures Size(seg[..k]) <= Size(seg)
    decreases |seg|
  {
    if k == |seg| {
      assert seg[..k] == seg;
    } else {
      assert seg[..|seg| - 1][..k] == seg[..k];
      SizePrefix(seg[..|seg| - 1], k);
    }
  }

  lemma SizeOne(x: Vec)
    ensures Size([x]) == x.len
  {
    assert [x][..0] == [];
  }

  /** The mapping never makes more segments than any valid segmentation. */
  lemma {:induction false} GreedyIsOptimal(lim: Limits, segs: seq<seq<Vec>>)
    requires forall i :: 0 <= i < |segs| ==> ValidSegment(lim, segs[i])
    ensures Count(lim, false, Flatten(segs)) <= |segs|
    decreases |segs|
  {
    if segs != [] {
      var a, w := segs[0], Flatten(segs[1..]);
      var v := a + w;
      GreedyIsOptimal(lim, segs[1..]);
      assert v[0] == a[0] && v[1..] == a[1..] + w;
      assert a[..1] == [a[0]];
      SizeOne(a[0]);
      SwallowSegment(lim, a, 1, w);
      OpensAtMostCount(lim, false, a[|a| - 1], Size(a), w);
    }
  }

  /** A sound count bounds the entries of the scatter list. */
  lemma ExplainedBoundsMapping(lim: Limits, v: seq<Vec>, n: nat, front: nat, back: nat)
    requires Explained(lim, v, n, front, back)
    ensures Count(lim, false, v) <= n
  {
    var segs :| Cuts(lim, segs, v, n, front, back);
    GreedyIsOptimal(lim, segs);
  }

  // ---------------------------------------------------------------- joining bookkeeping

  lemma {:induction false} FlattenConcat(a: seq<seq<Vec>>, b: seq<seq<Vec>>)
    ensures Flatten(a + b) == Flatten(a) + Flatten(b)
    decreases |a|
  {
    if a == [] {
      assert a + b == b;
    } else {
      assert (a + b)[1..] == a[1..] + b;
      FlattenConcat(a[1..], b);
    }
  }

  lemma {:induction false} SizeConcat(a: seq<Vec>, b: seq<Vec>)
    ensures Size(a + b) == Size(a) + Size(b)
    decreases |b|
  {
    if b == [] {
      assert a + b == a;
    } else {
      assert (a + b)[..|a + b| - 1] == a + b[..|b| - 1];
      SizeConcat(a, b[..|b| - 1]);
    }
  }

  lemma FlattenOne(x: seq<Vec>)
    ensures Flatten([x]) == x
  {
    assert [x][1..] == [];
  }

  /** Side by side: the counts add up. */
  lemma Beside(lim: Limits, v: seq<Vec>, n: nat, f: nat, b: nat, v': seq<Vec>, n': nat, f': nat, b': nat)
    requires Explained(lim, v, n, f, b) && Explained(lim, v', n', f', b') && n > 0 && n' > 0
    ensures Explained(lim, v + v', n + n', f, b')
  {
    var x :| Cuts(lim, x, v, n, f, b);
    var y :| Cuts(lim, y, v', n', f', b');
    FlattenConcat(x, y);
    assert Cuts(lim, x + y, v + v', n + n', f, b');
  }

  /** Two segments that may be joined across the seam. */
  lemma JoinSegments(lim: Limits, a: seq<Vec>, b: seq<Vec>)
    requires ValidSegment(lim, a) && ValidSegment(lim, b)
    requires Joins(lim, false, a[|a| - 1], b[0]) && Size(a) + Size(b) <= lim.maxSize
    ensures ValidSegment(lim, a + b) && Size(a + b) == Size(a) + Size(b)
  {
    SizeConcat(a, b);
    var c := a + b;
    forall i | 0 < i < |c| ensures Joins(lim, false, c[i - 1], c[i]) {
      if i < |a| {
        assert Joins(lim, false, a[i - 1], a[i]);
      } else if i > |a| {
        assert Joins(lim, false, b[i - |a| - 1], b[i - |a|]);
      }
    }
  }

  lemma {:induction false} FlattenEnds(segs: seq<seq<Vec>>)
    requires segs != [] && forall i :: 0 <= i < |segs| ==> segs[i] != []
    ensures var v, z := Flatten(segs), segs[|segs| - 1];
            v != [] && segs[0] != [] && z != [] && v[0] == segs[0][0] && v[|v| - 1] == z[|z| - 1]
    decreases |segs|
  {
    if |segs| == 1 {
      assert segs == [segs[0]];
      FlattenOne(segs[0]);
    } else {
      var rest := segs[1..];
      FlattenEnds(rest);
      assert Flatten(segs) == segs[0] + Flatten(rest);
      assert rest[|rest| - 1] == segs[|segs| - 1];
      hide Flatten;
      ConcatEnds(segs[0], Flatten(rest));
    }
  }

  lemma ConcatEnds(a: seq<Vec>, b: seq<Vec>)
    requires a != [] && b != []
    ensures (a + b)[0] == a[0] && (a + b)[|a + b| - 1] == b[|b| - 1]
  {
  }

  /** The last segment of `x` and the first of `y` become one. */
  function Seam(x: seq<seq<Vec>>, y: seq<seq<Vec>>): seq<seq<Vec>>
    requires x != [] && y != []
  {
    x[..|x| - 1] + [x[|x| - 1] + y[0]] + y[1..]
  }

  lemma FlattenSeam(x: seq<seq<Vec>>, y: seq<seq<Vec>>)
    requires x != [] && y != []
    ensures Flatten(Seam(x, y)) == Flatten(x) + Flatten(y)
  {
    var init, a, c, rest := x[..|x| - 1], x[|x| - 1], y[0], y[1..];
    assert x == init + [a];
    assert Flatten(y) == c + Flatten(rest);
    hide Flatten;
    FlattenConcat(init, [a]);
    FlattenOne(a);
    FlattenConcat(init + [a + c], rest);
    FlattenConcat(init, [a + c]);
    FlattenOne(a + c);
    Regroup(Flatten(init), a, c, Flatten(rest));
  }

  lemma Regroup(p: seq<Vec>, q: seq<Vec>, r: seq<Vec>, s: seq<Vec>)
    ensures p + (q + r) + s == p + q + (r + s)
  {
  }

  /** Joined across the seam: one segment fewer, and the joined one counts for either end. */
  lemma Across(lim: Limits, v: seq<Vec>, n: nat, f: nat, b: nat, v': seq<Vec>, n': nat, f': nat, b': nat)
    requires Explained(lim, v, n, f, b) && Explained(lim, v', n', f', b') && n > 0 && n' > 0 && v != [] && v' != []
    requires Joins(lim, false, v[|v| - 1], v'[0]) && b + f' <= lim.maxSize
    ensures Explained(lim, v + v', n + n' - 1, if n == 1 then b + f' else f, if n' == 1 then b + f' else b')
  {
    hide Flatten, Size;
    var x :| Cuts(lim, x, v, n, f, b);
    var y :| Cuts(lim, y, v', n', f', b');
    FlattenEnds(x);
    FlattenEnds(y);
    JoinSegments(lim, x[n - 1], y[0]);
    FlattenSeam(x, y);
    assert Cuts(lim, Seam(x, y), v + v', n + n' - 1, if n == 1 then b + f' else f, if n' == 1 then b + f' else b');
  }

  lemma Loosen(lim: Limits, v: seq<Vec>, n: nat, f: nat, b: nat, f': nat, b': nat)
    requires Explained(lim, v, n, f, b) && f <= f' && b <= b'
    ensures Explained(lim, v, n, f', b')
  {
    var x :| Cuts(lim, x, v, n, f, b);
    assert Cuts(lim, x, v, n, f', b');
  }

  // ---------------------------------------------------------------- counting one chain of bios

  /** The size the open segment reaches before the next one is opened. */
  function OpenSize(lim: Limits, counting: bool, prev: Vec, size: nat, v: seq<Vec>): nat
    decreases |v|
  {
    if v != [] && size + v[0].len <= lim.maxSize && Joins(lim, counting, prev, v[0]) then
      OpenSize(lim, counting, v[0], size + v[0].len, v[1..])
    else size
  }

  /** The size of the segment that is open at the end. */
  function LastSize(lim: Limits, counting: bool, prev: Vec, size: nat, v: seq<Vec>): nat
    decreases |v|
  {
    if v == [] then size
    else if size + v[0].len <= lim.maxSize && Joins(lim, counting, prev, v[0]) then
      LastSize(lim, counting, v[0], size + v[0].len, v[1..])
    else LastSize(lim, counting, v[0], v[0].len, v[1..])
  }

  /** The segments themselves, starting from the open one. */
  function Cut(lim: Limits, counting: bool, open: seq<Vec>, v: seq<Vec>): seq<seq<Vec>>
    requires open != []
    decreases |v|
  {
    if v == [] then [open]
    else if Size(open) + v[0].len <= lim.maxSize && Joins(lim, counting, open[|open| - 1], v[0]) then
      Cut(lim, counting, open + [v[0]], v[1..])
    else [open] + Cut(lim, counting, [v[0]], v[1..])
  }

  lemma ValidExtend(lim: Limits, counting: bool, open: seq<Vec>, x: Vec)
    requires ValidSegment(lim, open) && Size(open) + x.len <= lim.maxSize && Joins(lim, counting, open[|open| - 1], x)
    ensures ValidSegment(lim, open + [x]) && Size(open + [x]) == Size(open) + x.len
  {
    var c := open + [x];
    assert c[..|open|] == open;
    assert Size(c) == Size(open) + x.len;
    hide Size;
    forall i | 0 < i < |c| ensures Joins(lim, false, c[i - 1], c[i]) {
      if i < |open| { assert Joins(lim, false, open[i - 1], open[i]); }
    }
  }

  lemma {:induction false} CutCovers(lim: Limits, counting: bool, open: seq<Vec>, v: seq<Vec>)
    requires ValidSegment(lim, open)
    ensures var segs := Cut(lim, counting, open, v);
            Flatten(segs) == open + v && forall i :: 0 <= i < |segs| ==> ValidSegment(lim, segs[i])
    decreases |v|
  {
    if v == [] {
      FlattenOne(open);
      assert open + v == open;
    } else if Size(open) + v[0].len <= lim.maxSize && Joins(lim, counting, open[|open| - 1], v[0]) {
      ValidExtend(lim, counting, open, v[0]);
      CutCovers(lim, counting, open + [v[0]], v[1..]);
      assert open + [v[0]] + v[1..] == open + v;
    } else {
      CutCovers(lim, counting, [v[0]], v[1..]);
      var rest := Cut(lim, counting, [v[0]], v[1..]);
      assert ([open] + rest)[1..] == rest;
      assert [v[0]] + v[1..] == v;
    }
  }

  lemma {:induction false} CutMeasures(lim: Limits, counting: bool, open: seq<Vec>, v: seq<Vec>)
    requires open != []
    ensures var prev, size := open[|open| - 1], Size(open); var segs := Cut(lim, counting, open, v);
            && |segs| == 1 + Opens(lim, counting, prev, size, v)
            && Size(segs[0]) == OpenSize(lim, counting, prev, size, v)
            && Size(segs[|segs| - 1]) == LastSize(lim, counting, prev, size, v)
    decreases |v|
  {
    if v != [] {
      if Size(open) + v[0].len <= lim.maxSize && Joins(lim, counting, open[|open| - 1], v[0]) {
        assert (open + [v[0]])[..|open|] == open;
        CutMeasures(lim, counting, open + [v[0]], v[1..]);
      } else {
        SizeOne(v[0]);
        CutMeasures(lim, counting, [v[0]], v[1..]);
      }
    }
  }

  /** What `__blk_recalc_rq_segments` counts and measures is sound. */
  lemma CountExplained(lim: Limits, v: seq<Vec>)
    requires v != []
    ensures Explained(lim, v, Count(lim, true, v),
                      OpenSize(lim, true, v[0], v[0].len, v[1..]), LastSize(lim, true, v[0], v[0].len, v[1..]))
  {
    SizeOne(v[0]);
    CutCovers(lim, true, [v[0]], v[1..]);
    CutMeasures(lim, true, [v[0]], v[1..]);
    assert [v[0]] + v[1..] == v;
    var segs := Cut(lim, true, [v[0]], v[1..]);
    assert Cuts(lim, segs, v, Count(lim, true, v), OpenSize(lim, true, v[0], v[0].len, v[1..]),
                LastSize(lim, true, v[0], v[0].len, v[1..]));
  }

  function Max(a: nat, b: nat): nat { if a > b then a else b }

  datatype Bio = Bio(vecs: seq<Vec>, sectors: nat, front: nat, back: nat, segs: nat, counted: bool)

  function Vecs(bios: seq<Bio>): seq<Vec> {
    if bios == [] then [] else bios[0].vecs + Vecs(bios[1..])
  }

  /** `__blk_recalc_rq_segments`: the count, and the sizes to record in the first and last bio. */
  method Recalc(lim: Limits, bios: seq<Bio>) returns (n: nat, front: nat, back: nat)
    requires bios != []
    ensures var v := Vecs(bios);
            && n == Count(lim, true, v)
            && front == (if v == [] then bios[0].front
                         else Max(bios[0].front, OpenSize(lim, true, v[0], v[0].len, v[1..])))
            && back == (if v == [] then bios[|bios| - 1].back
                        else Max(bios[|bios| - 1].back, LastSize(lim, true, v[0], v[0].len, v[1..])))
  {
    hide Counting, Vecs, Count;
    n, front, back := 0, bios[0].front, bios[|bios| - 1].back;
    var segSize: nat := 0;
    var prev := Vec(0, 0, 0, true);
    ghost var v := Vecs(bios);
    var i := 0;
    assert bios[0..] == bios;
    assert Counting(lim, v, v, n, prev, segSize, front, bios[0].front) by { CountingStart(lim, v, prev, front); }
    while i < |bios|
      invariant 0 <= i <= |bios|
      invariant Counting(lim, v, Vecs(bios[i..]), n, prev, segSize, front, bios[0].front)
    {
      var k := 0;
      assert bios[i].vecs[0..] + Vecs(bios[i + 1..]) == Vecs(bios[i..]) by { VecsStep(bios, i); }
      while k < |bios[i].vecs|
        invariant 0 <= k <= |bios[i].vecs|
        invariant Counting(lim, v, bios[i].vecs[k..] + Vecs(bios[i + 1..]), n, prev, segSize, front, bios[0].front)
      {
        var bv := bios[i].vecs[k];
        ghost var rest := bios[i].vecs[k + 1..] + Vecs(bios[i + 1..]);
        assert bios[i].vecs[k..] + Vecs(bios[i + 1..]) == [bv] + rest;
        CountingStep(lim, v, bv, rest, n, prev, segSize, front, bios[0].front);
        if !bv.high && !prev.high && lim.cluster && segSize + bv.len <= lim.maxSize && lim.contig(prev, bv) {
          segSize := segSize + bv.len;
        } else {
          if n == 1 && segSize > front { front := segSize; }
          n := n + 1;
          segSize := bv.len;
        }
        prev := bv;
        k := k + 1;
      }
      assert bios[i].vecs[k..] + Vecs(bios[i + 1..]) == Vecs(bios[i + 1..]);
      i := i + 1;
    }
    assert Vecs(bios[i..]) == [] by { VecsEnd(bios); }
    CountingEnd(lim, v, n, prev, segSize, front, bios[0].front);
    if n == 1 && segSize > front { front := segSize; }
    if segSize > back { back := segSize; }
  }

  /** Progress of the counting loop: `rest` is still to be scanned. */
  ghost predicate Counting(lim: Limits, v: seq<Vec>, rest: seq<Vec>, n: nat, prev: Vec, size: nat, front: nat,
                           front0: nat)
  {
    if n == 0 then rest == v && size == 0 && front == front0 && prev.high
    else
      && v != []
      && n + Opens(lim, true, prev, size, rest) == Count(lim, true, v)
      && LastSize(lim, true, prev, size, rest) == LastSize(lim, true, v[0], v[0].len, v[1..])
      && (var first := OpenSize(lim, true, v[0], v[0].len, v[1..]);
          if n == 1 then front == front0 && OpenSize(lim, true, prev, size, rest) == first
          else front == Max(front0, first))
  }

  lemma VecsStep(bios: seq<Bio>, i: nat)
    requires i < |bios|
    ensures Vecs(bios[i..]) == bios[i].vecs[0..] + Vecs(bios[i + 1..])
  {
    assert bios[i..][1..] == bios[i + 1..] && bios[i].vecs[0..] == bios[i].vecs;
  }

  lemma VecsEnd(bios: seq<Bio>)
    ensures Vecs(bios[|bios|..]) == []
  {
  }

  lemma CountingStart(lim: Limits, v: seq<Vec>, prev: Vec, front: nat)
    requires prev.high
    ensures Counting(lim, v, v, 0, prev, 0, front, front)
  {
  }

  lemma CountingStep(lim: Limits, v: seq<Vec>, bv: Vec, rest: seq<Vec>, n: nat, prev: Vec, size: nat, front: nat,
                     front0: nat)
    requires Counting(lim, v, [bv] + rest, n, prev, size, front, front0)
    ensures if size + bv.len <= lim.maxSize && Joins(lim, true, prev, bv)
            then Counting(lim, v, rest, n, bv, size + bv.len, front, front0)
            else Counting(lim, v, rest, n + 1, bv, bv.len, if n == 1 && size > front then size else front, front0)
  {
    assert ([bv] + rest)[1..] == rest;
  }

  lemma CountingEnd(lim: Limits, v: seq<Vec>, n: nat, prev: Vec, size: nat, front: nat, front0: nat)
    requires Counting(lim, v, [], n, prev, size, front, front0)
    ensures n == Count(lim, true, v)
    ensures v == [] ==> n == 0 && size == 0 && front == front0
    ensures v != [] ==>
              && size == LastSize(lim, true, v[0], v[0].len, v[1..])
              && (if n == 1 && size > front then size else front) ==
                  Max(front0, OpenSize(lim, true, v[0], v[0].len, v[1..]))
  {
  }
}
