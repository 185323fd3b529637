/** Which sectors a scrub verifies: the sequential and the staggered plan, and the VERIFY (10)
    commands they turn into. */
module ScrubPlan {

  const U64: nat := 0x1_0000_0000_0000_0000
  const U32: nat := 0x1_0000_0000

  /** Scrub `[start, end)`; all in sectors. */
  datatype Params = Params(start: nat, end: nat, seg: nat, reg: nat)

  datatype Job = Job(pos: nat, count: nat)

  predicate Within(j: Job, x: nat) { j.pos <= x < j.pos + j.count }

  /** How many of the jobs verify sector `x`. */
  function Cover(js: seq<Job>, x: nat): nat {
    if js == [] then 0 else (if Within(js[0], x) then 1 else 0) + Cover(js[1..], x)
  }

  lemma {:induction false} CoverConcat(a: seq<Job>, b: seq<Job>, x: nat)
    ensures Cover(a + b, x) == Cover(a, x) + Cover(b, x)
  {
    if a == [] {
      assert a + b == b;
    } else {
      CoverConcat(a[1..], b, x);
      assert (a + b)[1..] == a[1..] + b;
    }
  }

  // ---------------------------------------------------------------- arithmetic

  function Ceil(whole: nat, part: nat): nat
    requires part > 0
  {
    if whole % part == 0 then whole / part else 1 + whole / part
  }

  lemma MulLe(a: nat, b: nat, m: nat)
    requires a <= b
    ensures a * m <= b * m
  {
    assert b * m == a * m + (b - a) * m;
  }

  lemma MulSucc(a: nat, m: nat)
    ensures (a + 1) * m == a * m + m
  {
  }

  lemma DivMod(a: nat, m: nat)
    requires m > 0
    ensures a == (a / m) * m + a % m && a % m < m
  {
  }

  /** `n` is below the ceiling exactly when `n` parts do not fill the whole. */
  lemma CeilIs(whole: nat, part: nat, n: nat)
    requires part > 0
    ensures n < Ceil(whole, part) <==> n * part < whole
  {
    DivMod(whole, part);
    var q := whole / part;
    MulSucc(q, part);
    if n <= q { MulLe(n, q, part); } else { MulLe(q + 1, n, part); }
    if n < q { MulLe(n + 1, q, part); MulSucc(n, part); }
  }

  lemma DivUnique(a: nat, m: nat, q: nat)
    requires m > 0 && q * m <= a < (q + 1) * m
    ensures a / m == q
  {
    DivMod(a, m);
    if a / m < q { MulLe(a / m + 1, q, m); MulSucc(a / m, m); }
    if a / m > q { MulLe(q + 1, a / m, m); }
  }

  // ---------------------------------------------------------------- the plans

  /** How many sectors to verify at `pos`. */
  function Num(p: Params, pos: nat): nat {
    if (pos + p.seg) % U64 > p.end then
      (if p.seg > p.end then p.end else if pos <= p.end then p.end - pos else 0)
    else p.seg
  }

  /** What the 64-bit arithmetic needs. */
  predicate Fits(p: Params) {
    p.seg > 0 && p.reg > 0 && p.start < p.end && p.end + p.reg <= U64 && p.end + p.seg <= U64
  }

  lemma NumPositive(p: Params, pos: nat)
    requires Fits(p) && pos < p.end
    ensures Num(p, pos) > 0 && (p.seg <= p.end ==> Num(p, pos) == if pos + p.seg > p.end then p.end - pos else p.seg)
  {
  }

  /** `seqscrub`. */
  function Sequential(p: Params, pos: nat): seq<Job>
    requires Fits(p)
    decreases if pos < p.end then p.end - pos else 0
  {
    if pos >= p.end then []
    else
      NumPositive(p, pos);
      [Job(pos, Num(p, pos))] + Sequential(p, pos + Num(p, pos))
  }

  /** Where the `sn`-th segment of the `rn`-th region starts. */
  function Pos(p: Params, sn: nat, rn: nat): nat {
    (p.start + rn * p.reg + sn * p.seg) % U64
  }

  function Regions(p: Params): nat
    requires Fits(p)
  {
    Ceil(p.end - p.start, p.reg)
  }

  function Segments(p: Params): nat
    requires Fits(p)
  {
    Ceil(p.reg, p.seg)
  }

  function JobAt(p: Params, sn: nat, rn: nat): Job { Job(Pos(p, sn, rn), Num(p, Pos(p, sn, rn))) }

  function AtMost1(p: Params, sn: nat, rn: nat): seq<Job> {
    if Pos(p, sn, rn) < p.end then [JobAt(p, sn, rn)] else []
  }

  /** One segment of each region, from region `rn` on. */
  function Row(p: Params, sn: nat, rn: nat): seq<Job>
    requires Fits(p)
    decreases Regions(p) - rn
  {
    if rn >= Regions(p) then [] else AtMost1(p, sn, rn) + Row(p, sn, rn + 1)
  }

  /** `stgscrub`, from segment `sn` on. */
  function Staggered(p: Params, sn: nat): seq<Job>
    requires Fits(p)
    decreases Segments(p) - sn
  {
    if sn >= Segments(p) then [] else Row(p, sn, 0) + Staggered(p, sn + 1)
  }

  // ---------------------------------------------------------------- counting hits

  predicate Hit(p: Params, sn: nat, rn: nat, x: nat) {
    Pos(p, sn, rn) < p.end && Within(JobAt(p, sn, rn), x)
  }

  lemma CoverOne(p: Params, sn: nat, rn: nat, x: nat)
    ensures Cover(AtMost1(p, sn, rn), x) == if Hit(p, sn, rn, x) then 1 else 0
  {
    hide Pos, JobAt;
    if Pos(p, sn, rn) < p.end {
      var j := JobAt(p, sn, rn);
      assert [j][1..] == [];
      assert Cover([j], x) == (if Within(j, x) then 1 else 0) + Cover([], x);
    }
  }

  lemma RowStep(p: Params, sn: nat, rn: nat, x: nat)
    requires Fits(p) && rn < Regions(p)
    ensures Cover(Row(p, sn, rn), x) == (if Hit(p, sn, rn, x) then 1 else 0) + Cover(Row(p, sn, rn + 1), x)
  {
    hide Hit, AtMost1, Fits;
    CoverOne(p, sn, rn, x);
    CoverConcat(AtMost1(p, sn, rn), Row(p, sn, rn + 1), x);
  }

  /** No hit in the row. */
  lemma {:induction false} RowNone(p: Params, sn: nat, rn: nat, x: nat)
    requires Fits(p) && forall r :: rn <= r < Regions(p) ==> !Hit(p, sn, r, x)
    ensures Cover(Row(p, sn, rn), x) == 0
    decreases Regions(p) - rn
  {
    hide Hit, Fits, Regions;
    if rn < Regions(p) {
      RowStep(p, sn, rn, x);
      RowNone(p, sn, rn + 1, x);
    }
  }

  /** One hit in the row. */
  lemma {:induction false} RowOne(p: Params, sn: nat, rn: nat, x: nat, r0: nat)
    requires Fits(p) && rn <= r0 < Regions(p) && Hit(p, sn, r0, x)
    ensures Cover(Row(p, sn, rn), x) >= 1
    ensures (forall r :: rn <= r < Regions(p) && r != r0 ==> !Hit(p, sn, r, x)) ==> Cover(Row(p, sn, rn), x) == 1
    decreases Regions(p) - rn
  {
    hide Hit, Fits, Regions;
    RowStep(p, sn, rn, x);
    if rn == r0 {
      if forall r :: rn <= r < Regions(p) && r != r0 ==> !Hit(p, sn, r, x) { RowNone(p, sn, rn + 1, x); }
    } else {
      RowOne(p, sn, rn + 1, x, r0);
    }
  }

  /** Two hits in the row. */
  lemma {:induction false} RowTwo(p: Params, sn: nat, rn: nat, x: nat, r0: nat, r1: nat)
    requires Fits(p) && rn <= r0 < r1 < Regions(p) && Hit(p, sn, r0, x) && Hit(p, sn, r1, x)
    ensures Cover(Row(p, sn, rn), x) >= 2
    decreases Regions(p) - rn
  {
    hide Hit, Fits, Regions;
    RowStep(p, sn, rn, x);
    if rn == r0 { RowOne(p, sn, rn + 1, x, r1); } else { RowTwo(p, sn, rn + 1, x, r0, r1); }
  }

  lemma PlanStep(p: Params, sn: nat, x: nat)
    requires Fits(p) && sn < Segments(p)
    ensures Cover(Staggered(p, sn), x) == Cover(Row(p, sn, 0), x) + Cover(Staggered(p, sn + 1), x)
  {
    CoverConcat(Row(p, sn, 0), Staggered(p, sn + 1), x);
  }

  ghost predicate Missed(p: Params, from: nat, x: nat)
    requires Fits(p)
  {
    forall s, r :: from <= s < Segments(p) && 0 <= r < Regions(p) ==> !Hit(p, s, r, x)
  }

  lemma {:induction false} PlanNone(p: Params, sn: nat, x: nat)
    requires Fits(p) && Missed(p, sn, x)
    ensures Cover(Staggered(p, sn), x) == 0
    decreases Segments(p) - sn
  {
    hide Hit, Fits, Regions, Segments;
    if sn < Segments(p) {
      PlanStep(p, sn, x);
      RowNone(p, sn, 0, x);
      PlanNone(p, sn + 1, x);
    }
  }

  ghost predicate OnlyHit(p: Params, from: nat, x: nat, s0: nat, r0: nat)
    requires Fits(p)
  {
    forall s, r :: from <= s < Segments(p) && 0 <= r < Regions(p) && (s != s0 || r != r0) ==> !Hit(p, s, r, x)
  }

  lemma {:induction false} PlanOne(p: Params, sn: nat, x: nat, s0: nat, r0: nat)
    requires Fits(p) && sn <= s0 < Segments(p) && r0 < Regions(p) && Hit(p, s0, r0, x)
    ensures Cover(Staggered(p, sn), x) >= 1
    ensures OnlyHit(p, sn, x, s0, r0) ==> Cover(Staggered(p, sn), x) == 1
    decreases Segments(p) - sn
  {
    hide Hit, Fits, Regions, Segments;
    PlanStep(p, sn, x);
    if sn == s0 {
      RowOne(p, sn, 0, x, r0);
      if OnlyHit(p, sn, x, s0, r0) { PlanNone(p, sn + 1, x); }
    } else {
      PlanOne(p, sn + 1, x, s0, r0);
      if OnlyHit(p, sn, x, s0, r0) { RowNone(p, sn, 0, x); }
    }
  }

  lemma PlanTwo(p: Params, x: nat, s0: nat)
    requires Fits(p) && s0 < Segments(p) && Regions(p) > 1 && Hit(p, s0, 0, x) && Hit(p, 0, 1, x)
    ensures Cover(Staggered(p, 0), x) >= 2
  {
    hide Hit, Fits, Regions, Segments;
    PlanStep(p, 0, x);
    if s0 == 0 {
      RowTwo(p, 0, 0, x, 0, 1);
    } else {
      RowOne(p, 0, 0, x, 1);
      PlanOne(p, 1, x, s0, 0);
    }
  }

  // ---------------------------------------------------------------- which sectors are hit

  /** Nothing wraps. */
  lemma PosIs(p: Params, sn: nat, rn: nat)
    requires Fits(p) && sn < Segments(p) && rn < Regions(p)
    ensures Pos(p, sn, rn) == p.start + rn * p.reg + sn * p.seg
    ensures rn * p.reg < p.end - p.start && sn * p.seg < p.reg
  {
    CeilIs(p.end - p.start, p.reg, rn);
    CeilIs(p.reg, p.seg, sn);
  }

  /** With segments no larger than the device, a job hits exactly its segment up to the end. */
  lemma HitIs(p: Params, sn: nat, rn: nat, x: nat)
    requires Fits(p) && p.seg <= p.end && sn < Segments(p) && rn < Regions(p)
    ensures Hit(p, sn, rn, x) <==>
            var at := p.start + rn * p.reg + sn * p.seg;
            x < p.end && at <= x < at + p.seg
  {
    PosIs(p, sn, rn);
    hide Pos, Regions, Segments;
    if Pos(p, sn, rn) < p.end { NumPositive(p, Pos(p, sn, rn)); }
  }

  /** The region and segment a sector belongs to. */
  function RegionOf(p: Params, x: nat): nat
    requires Fits(p) && p.start <= x
  {
    (x - p.start) / p.reg
  }

  function SegmentOf(p: Params, x: nat): nat
    requires Fits(p) && p.start <= x
  {
    ((x - p.start) % p.reg) / p.seg
  }

  lemma Found(p: Params, x: nat)
    requires Fits(p) && p.seg <= p.end && p.start <= x < p.end
    ensures RegionOf(p, x) < Regions(p) && SegmentOf(p, x) < Segments(p) && Hit(p, SegmentOf(p, x), RegionOf(p, x), x)
  {
    hide Ceil, Hit;
    var off := x - p.start;
    DivMod(off, p.reg);
    DivMod(off % p.reg, p.seg);
    FoundAt(p, x, SegmentOf(p, x), RegionOf(p, x), off % p.reg);
  }

  lemma FoundAt(p: Params, x: nat, s: nat, r: nat, rest: nat)
    requires Fits(p) && p.seg <= p.end && p.start <= x < p.end
    requires x == p.start + r * p.reg + rest && s * p.seg <= rest < p.reg && rest < s * p.seg + p.seg
    ensures r < Regions(p) && s < Segments(p) && Hit(p, s, r, x)
  {
    hide Ceil, Hit;
    CeilIs(p.end - p.start, p.reg, r);
    CeilIs(p.reg, p.seg, s);
    HitIs(p, s, r, x);
  }

  /** Outside `[start, end)` nothing is verified. */
  lemma Outside(p: Params, x: nat)
    requires Fits(p) && p.seg <= p.end && !(p.start <= x < p.end)
    ensures Missed(p, 0, x)
  {
    hide Hit, Regions, Segments, Fits;
    forall s, r | 0 <= s < Segments(p) && 0 <= r < Regions(p) ensures !Hit(p, s, r, x) {
      OutsideAt(p, x, s, r);
    }
  }

  lemma OutsideAt(p: Params, x: nat, s: nat, r: nat)
    requires Fits(p) && p.seg <= p.end && !(p.start <= x < p.end) && s < Segments(p) && r < Regions(p)
    ensures !Hit(p, s, r, x)
  {
    hide Hit, Regions, Segments, Fits;
    HitIs(p, s, r, x);
    MulLe(0, r, p.reg);
    MulLe(0, s, p.seg);
  }

  /** Segments tile the regions. */
  ghost predicate Tiles(p: Params)
    requires Fits(p)
  {
    p.reg % p.seg == 0 || p.end - p.start <= p.reg
  }

  lemma TiledSegment(p: Params, s: nat, r: nat, x: nat)
    requires Fits(p) && p.seg <= p.end && Tiles(p) && s < Segments(p) && r < Regions(p) && Hit(p, s, r, x)
    ensures p.start <= x && r == RegionOf(p, x) && s == SegmentOf(p, x)
  {
    HitIs(p, s, r, x);
    var off := x - p.start;
    MulSucc(r, p.reg);
    MulSucc(s, p.seg);
    if p.reg % p.seg == 0 {
      var n := p.reg / p.seg;
      DivMod(p.reg, p.seg);
      CeilIs(p.reg, p.seg, s);
      assert s + 1 <= n;
      MulLe(s + 1, n, p.seg);
    } else {
      CeilIs(p.end - p.start, p.reg, 1);
      assert r == 0;
    }
    assert r * p.reg <= off < (r + 1) * p.reg;
    DivUnique(off, p.reg, r);
    DivMod(off, p.reg);
    assert off % p.reg == off - r * p.reg;
    DivUnique(off % p.reg, p.seg, s);
  }

  lemma Once(p: Params, x: nat)
    requires Fits(p) && p.seg <= p.end && Tiles(p) && p.start <= x < p.end
    ensures Cover(Staggered(p, 0), x) == 1
  {
    hide Hit, Regions, Segments, Tiles, RegionOf, SegmentOf;
    Found(p, x);
    var s0, r0 := SegmentOf(p, x), RegionOf(p, x);
    forall s, r | 0 <= s < Segments(p) && 0 <= r < Regions(p) && (s != s0 || r != r0) ensures !Hit(p, s, r, x) {
      if Hit(p, s, r, x) { TiledSegment(p, s, r, x); }
    }
    PlanOne(p, 0, x, s0, r0);
  }

  /** Otherwise the first sector of the second region is verified twice. */
  lemma Twice(p: Params)
    requires Fits(p) && p.seg <= p.end && !Tiles(p)
    ensures p.start + p.reg < p.end && Cover(Staggered(p, 0), p.start + p.reg) >= 2
  {
    var x := p.start + p.reg;
    CeilIs(p.end - p.start, p.reg, 1);
    var n := Segments(p);
    CeilIs(p.reg, p.seg, n);
    CeilIs(p.reg, p.seg, n - 1);
    MulSucc(n - 1, p.seg);
    DivMod(p.reg, p.seg);
    assert n * p.seg != p.reg by { if n * p.seg == p.reg { MulMod(n, p.seg); } }
    HitIs(p, n - 1, 0, x);
    HitIs(p, 0, 1, x);
    PlanTwo(p, x, n - 1);
  }

  lemma MulMod(a: nat, m: nat)
    requires m > 0
    ensures (a * m) % m == 0
  {
    MulSucc(a, m);
    DivUnique(a * m, m, a);
    DivMod(a * m, m);
  }

  /** With segments no larger than the end of the range, every sector of the range is verified, and
      each exactly once exactly when segments tile the regions or there is one region. */
  lemma StaggeredOnce(p: Params)
    requires Fits(p) && p.seg <= p.end
    ensures (forall x: nat :: p.start <= x < p.end ==> Cover(Staggered(p, 0), x) == 1) <==> Tiles(p)
  {
    if Tiles(p) {
      forall x: nat | p.start <= x < p.end ensures Cover(Staggered(p, 0), x) == 1 { Once(p, x); }
    } else {
      Twice(p);
    }
  }

  ghost predicate ExactlyCovers(js: seq<Job>, p: Params) {
    forall x: nat :: Cover(js, x) > 0 <==> p.start <= x < p.end
  }

  lemma StaggeredCovers(p: Params)
    requires Fits(p) && p.seg <= p.end
    ensures ExactlyCovers(Staggered(p, 0), p)
  {
    hide Hit, Regions, Segments, Fits, Missed;
    forall x: nat ensures Cover(Staggered(p, 0), x) > 0 <==> p.start <= x < p.end {
      if p.start <= x < p.end {
        Found(p, x);
        PlanOne(p, 0, x, SegmentOf(p, x), RegionOf(p, x));
      } else {
        Outside(p, x);
        PlanNone(p, 0, x);
      }
    }
  }

  /** A segment larger than the end of the range is cut to the whole device, wherever it starts; then
      the plan is right only if it consists of one job from sector 0. */
  lemma OversizedHit(p: Params, rn: nat)
    requires Fits(p) && p.seg > p.end && rn < Regions(p) && p.start + rn * p.reg > 0
    ensures var x := p.start + rn * p.reg + p.end - 1;
            x >= p.end && Cover(Staggered(p, 0), x) > 0
  {
    var x := p.start + rn * p.reg + p.end - 1;
    CeilIs(p.reg, p.seg, 0);
    PosIs(p, 0, rn);
    assert Hit(p, 0, rn, x);
    PlanOne(p, 0, x, 0, rn);
  }

  lemma OversizedOnly(p: Params, x: nat)
    requires Fits(p) && p.seg > p.end && p.start == 0 && p.end <= p.reg
    ensures Cover(Staggered(p, 0), x) == if x < p.end then 1 else 0
  {
    CeilIs(p.end, p.reg, 1);
    CeilIs(p.reg, p.seg, 0);
    CeilIs(p.end, p.reg, 0);
    PosIs(p, 0, 0);
    forall s, r | 0 <= s < Segments(p) && 0 <= r < Regions(p) && (s != 0 || r != 0 || x >= p.end)
      ensures !Hit(p, s, r, x)
    {
      PosIs(p, s, r);
      if s > 0 { MulLe(1, s, p.seg); }
    }
    if x < p.end {
      assert Hit(p, 0, 0, x);
      PlanOne(p, 0, x, 0, 0);
    } else {
      PlanNone(p, 0, x);
    }
  }

  lemma StaggeredExactly(p: Params)
    requires Fits(p)
    ensures ExactlyCovers(Staggered(p, 0), p) <==> p.seg <= p.end || (p.start == 0 && p.end <= p.reg)
  {
    hide Staggered, Cover;
    if p.seg <= p.end {
      StaggeredCovers(p);
    } else if p.start == 0 && p.end <= p.reg {
      forall x: nat ensures Cover(Staggered(p, 0), x) > 0 <==> p.start <= x < p.end { OversizedOnly(p, x); }
    } else if p.start > 0 {
      CeilIs(p.end - p.start, p.reg, 0);
      OversizedHit(p, 0);
    } else {
      CeilIs(p.end - p.start, p.reg, 1);
      OversizedHit(p, 1);
    }
  }

  // ---------------------------------------------------------------- the sequential plan

  lemma {:induction false} SequentialOnce(p: Params, pos: nat, x: nat)
    requires Fits(p) && p.seg <= p.end
    ensures Cover(Sequential(p, pos), x) == if pos <= x < p.end then 1 else 0
    decreases if pos < p.end then p.end - pos else 0
  {
    if pos < p.end {
      NumPositive(p, pos);
      SequentialOnce(p, pos + Num(p, pos), x);
      hide Sequential;
      SequentialStep(p, pos, x);
    }
  }

  lemma SequentialStep(p: Params, pos: nat, x: nat)
    requires Fits(p) && pos < p.end
    ensures Cover(Sequential(p, pos), x)
         == (if Within(Job(pos, Num(p, pos)), x) then 1 else 0) + Cover(Sequential(p, pos + Num(p, pos)), x)
  {
    var s := Sequential(p, pos);
    assert s[1..] == Sequential(p, pos + Num(p, pos));
  }

  lemma SequentialExactly(p: Params)
    requires Fits(p)
    ensures ExactlyCovers(Sequential(p, p.start), p) <==> p.seg <= p.end || p.start == 0
    ensures p.seg <= p.end || p.start == 0 ==>
              forall x: nat :: p.start <= x < p.end ==> Cover(Sequential(p, p.start), x) == 1
  {
    hide Sequential, Cover;
    if p.seg <= p.end {
      forall x: nat ensures Cover(Sequential(p, p.start), x) == if p.start <= x < p.end then 1 else 0 {
        SequentialOnce(p, p.start, x);
      }
    } else {
      forall x: nat ensures Cover(Sequential(p, p.start), x) == if p.start <= x < p.start + p.end then 1 else 0 {
        SequentialStep(p, p.start, x);
        SequentialPast(p, p.start + p.end, x);
      }
      if p.start > 0 { assert Cover(Sequential(p, p.start), p.start + p.end - 1) == 1; }
    }
  }

  lemma SequentialPast(p: Params, pos: nat, x: nat)
    requires Fits(p) && pos >= p.end
    ensures Cover(Sequential(p, pos), x) == 0
  {
  }

  /** Both plans verify the same sectors. */
  lemma SameSectors(p: Params, x: nat)
    requires Fits(p) && p.seg <= p.end
    ensures Cover(Sequential(p, p.start), x) > 0 <==> Cover(Staggered(p, 0), x) > 0
  {
    StaggeredExactly(p);
    SequentialExactly(p);
    hide Sequential, Cover, Staggered;
  }
}
