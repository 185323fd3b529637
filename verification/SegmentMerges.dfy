/** Back, front and request-to-request merges, and the scatter list the merged request maps to. */
module SegmentMerges {
  import opened Segments

  datatype Req = Req(bios: seq<Bio>, nr: nat, sectors: nat)

  /** `blk_recount_segments`, unless the bio is marked as counted already. */
  function Recounted(lim: Limits, b: Bio): Bio {
    if b.counted then b
    else if b.vecs == [] then b.(segs := 0, counted := true)
    else
      var v := b.vecs;
      b.(segs := Count(lim, true, v), counted := true,
         front := Max(b.front, OpenSize(lim, true, v[0], v[0].len, v[1..])),
         back := Max(b.back, LastSize(lim, true, v[0], v[0].len, v[1..])))
  }

  /** `blk_rq_bio_prep` */
  function FromBio(lim: Limits, b: Bio): Req {
    var b1 := if b.vecs == [] then b else Recounted(lim, b);
    Req([b1], if b.vecs == [] then 0 else b1.segs, b.sectors)
  }

  /** `ll_back_merge_fn` and the linking in `__make_request`; refused merges leave their recounts. */
  function BackMerge(lim: Limits, r: Req, b: Bio): (Req, bool)
    requires r.bios != []
  {
    if r.sectors + b.sectors > lim.maxSectors then (r, false)
    else
      var z := |r.bios| - 1;
      var r1 := r.(bios := r.bios[z := Recounted(lim, r.bios[z])]);
      var b1 := Recounted(lim, b);
      if r.nr + b1.segs > lim.maxSegments then (r1, false)
      else (Req(r1.bios + [b1], r.nr + b1.segs, r.sectors + b.sectors), true)
  }

  /** `ll_front_merge_fn` */
  function FrontMerge(lim: Limits, r: Req, b: Bio): (Req, bool)
    requires r.bios != []
  {
    if r.sectors + b.sectors > lim.maxSectors then (r, false)
    else
      var r1 := r.(bios := r.bios[0 := Recounted(lim, r.bios[0])]);
      var b1 := Recounted(lim, b);
      if r.nr + b1.segs > lim.maxSegments then (r1, false)
      else (Req([b1] + r1.bios, r.nr + b1.segs, r.sectors + b.sectors), true)
  }

  /** `blk_phys_contig_segment`: may the last segment of `a` grow into the first of `b`? */
  predicate Contiguous(lim: Limits, a: Bio, b: Bio) {
    && lim.cluster
    && a.back + b.front <= lim.maxSize
    && (a.vecs == [] || (b.vecs != [] && lim.contig(a.vecs[|a.vecs| - 1], b.vecs[0])))
  }

  /** The recorded sizes of the two outer ends, when the joined segment reaches them. */
  function SetFront(r: Req, size: nat): Req
    requires r.bios != []
  {
    if r.nr == 1 then r.(bios := r.bios[0 := r.bios[0].(front := size)]) else r
  }

  function SetBack(r: Req, size: nat): Req
    requires r.bios != []
  {
    if r.nr == 1 then r.(bios := r.bios[|r.bios| - 1 := r.bios[|r.bios| - 1].(back := size)]) else r
  }

  /** `nr_phys_segments` is an unsigned short. */
  function Stored(total: int): nat { total % 0x1_0000 }

  /** `ll_merge_requests_fn` and the splice in `attempt_merge`.  The sizes are updated before the
      segment limit is checked, so a refused merge leaves them changed. */
  function MergeRequests(lim: Limits, r: Req, next: Req): (Req, Req, bool)
    requires r.bios != [] && next.bios != []
  {
    if r.sectors + next.sectors > lim.maxSectors then (r, next, false)
    else
      var a, b := r.bios[|r.bios| - 1], next.bios[0];
      var size := a.back + b.front;
      var contig := Contiguous(lim, a, b);
      var r1 := if contig then SetFront(r, size) else r;
      var n1 := if contig then SetBack(next, size) else next;
      var total := r.nr + next.nr - (if contig then 1 else 0);
      if total > lim.maxSegments then (r1, n1, false)
      else (Req(r1.bios + n1.bios, Stored(total), r.sectors + next.sectors), n1, true)
  }

  // ---------------------------------------------------------------- the invariant

  predicate HasData(b: Bio) { b.vecs != [] }

  ghost predicate BioOk(lim: Limits, b: Bio) {
    b.counted ==> Explained(lim, b.vecs, b.segs, b.front, b.back)
  }

  /** Some segmentation has exactly the recorded count, and fits the sizes recorded at those ends
      that carry data. */
  ghost predicate Tallied(lim: Limits, r: Req, f: nat, b: nat)
    requires r.bios != []
  {
    && Explained(lim, Vecs(r.bios), r.nr, f, b)
    && (HasData(r.bios[0]) ==> f <= r.bios[0].front)
    && (HasData(r.bios[|r.bios| - 1]) ==> b <= r.bios[|r.bios| - 1].back)
  }

  ghost predicate Ok(lim: Limits, r: Req) {
    r.bios != [] && r.nr <= lim.maxSegments < 0x1_0000 && exists f: nat, b: nat :: Tallied(lim, r, f, b)
  }

  lemma RecountedOk(lim: Limits, b: Bio)
    requires BioOk(lim, b)
    ensures var b1 := Recounted(lim, b);
            b1.vecs == b.vecs && b1.front >= b.front && b1.back >= b.back
            && Explained(lim, b1.vecs, b1.segs, b1.front, b1.back)
  {
    hide Explained;
    var v := b.vecs;
    if !b.counted {
      if v == [] {
        NoData(lim, b.front, b.back);
      } else {
        CountExplained(lim, v);
        Loosen(lim, v, Count(lim, true, v), OpenSize(lim, true, v[0], v[0].len, v[1..]),
               LastSize(lim, true, v[0], v[0].len, v[1..]),
               Recounted(lim, b).front, Recounted(lim, b).back);
      }
    }
  }

  /** There are segments exactly where there is data. */
  lemma SomeSegment(lim: Limits, v: seq<Vec>, n: nat, f: nat, b: nat)
    requires Explained(lim, v, n, f, b)
    ensures n > 0 <==> v != []
  {
    var segs :| Cuts(lim, segs, v, n, f, b);
    if n > 0 { assert Flatten(segs) == segs[0] + Flatten(segs[1..]); }
  }

  lemma NoData(lim: Limits, f: nat, b: nat)
    ensures Explained(lim, [], 0, f, b)
  {
    assert Cuts(lim, [], [], 0, f, b);
  }

  /** Side by side, whether or not there is data on both sides. */
  lemma Next(lim: Limits, v: seq<Vec>, n: nat, f: nat, b: nat, v': seq<Vec>, n': nat, f': nat, b': nat)
    requires Explained(lim, v, n, f, b) && Explained(lim, v', n', f', b')
    ensures Explained(lim, v + v', n + n', if n > 0 then f else f', if n' > 0 then b' else b)
  {
    hide Explained;
    SomeSegment(lim, v, n, f, b);
    SomeSegment(lim, v', n', f', b');
    if v == [] {
      assert v + v' == v';
      if v' == [] { NoData(lim, f', b); }
    } else if v' == [] {
      assert v + v' == v;
    } else {
      Beside(lim, v, n, f, b, v', n', f', b');
    }
  }

  lemma RecountKeeps(lim: Limits, b: Bio)
    ensures var b1 := Recounted(lim, b); b1.vecs == b.vecs && b1.front >= b.front && b1.back >= b.back
  {
  }

  lemma {:induction false} VecsConcat(a: seq<Bio>, b: seq<Bio>)
    ensures Vecs(a + b) == Vecs(a) + Vecs(b)
    decreases |a|
  {
    if a == [] {
      assert a + b == b;
    } else {
      assert (a + b)[1..] == a[1..] + b;
      VecsConcat(a[1..], b);
    }
  }

  lemma VecsOne(b: Bio)
    ensures Vecs([b]) == b.vecs
  {
    assert [b][1..] == [];
  }

  /** Changing recorded numbers of one bio does not change the data. */
  lemma {:induction false} VecsUpdate(bios: seq<Bio>, i: nat, b: Bio)
    requires i < |bios| && b.vecs == bios[i].vecs
    ensures Vecs(bios[i := b]) == Vecs(bios)
    decreases |bios|
  {
    if i == 0 {
      assert bios[i := b][1..] == bios[1..];
    } else {
      assert bios[i := b][1..] == bios[1..][i - 1 := b];
      VecsUpdate(bios[1..], i - 1, b);
    }
  }

  lemma {:induction false} VecsEnds(bios: seq<Bio>)
    requires bios != []
    ensures var v, a, z := Vecs(bios), bios[0].vecs, bios[|bios| - 1].vecs;
            && (a != [] ==> v != [] && v[0] == a[0])
            && (z != [] ==> v != [] && v[|v| - 1] == z[|z| - 1])
    decreases |bios|
  {
    if |bios| == 1 {
      assert bios == [bios[0]];
      VecsOne(bios[0]);
    } else {
      var rest := bios[1..];
      VecsEnds(rest);
      var v, w := Vecs(bios), Vecs(rest);
      assert v == bios[0].vecs + w && rest[|rest| - 1] == bios[|bios| - 1];
      hide Vecs;
    }
  }

  /** Raising the recorded sizes of one bio keeps the request sound. */
  lemma UpdateOk(lim: Limits, r: Req, i: nat, b: Bio)
    requires Ok(lim, r) && i < |r.bios| && b.vecs == r.bios[i].vecs
    requires i == 0 ==> r.bios[0].front <= b.front
    requires i == |r.bios| - 1 ==> r.bios[i].back <= b.back
    ensures Ok(lim, r.(bios := r.bios[i := b]))
  {
    hide Explained;
    VecsUpdate(r.bios, i, b);
    var f: nat, g: nat :| Tallied(lim, r, f, g);
    assert Tallied(lim, r.(bios := r.bios[i := b]), f, g);
  }

  lemma FromBioOk(lim: Limits, b: Bio)
    requires BioOk(lim, b) && FromBio(lim, b).nr <= lim.maxSegments < 0x1_0000
    ensures Ok(lim, FromBio(lim, b))
  {
    hide Explained;
    RecountedOk(lim, b);
    VecsOne(FromBio(lim, b).bios[0]);
    NoData(lim, b.front, b.back);
    var b1 := FromBio(lim, b).bios[0];
    assert Tallied(lim, FromBio(lim, b), b1.front, b1.back);
  }

  /** Two stretches put side by side, each sound at its ends. */
  lemma ConcatOk(lim: Limits, r: Req, next: Req, total: nat, sectors: nat)
    requires Ok(lim, r) && Ok(lim, next) && total == r.nr + next.nr <= lim.maxSegments
    ensures Ok(lim, Req(r.bios + next.bios, total, sectors))
    ensures Vecs(r.bios + next.bios) == Vecs(r.bios) + Vecs(next.bios)
  {
    hide Explained;
    VecsConcat(r.bios, next.bios);
    VecsEnds(r.bios);
    VecsEnds(next.bios);
    var f: nat, b: nat :| Tallied(lim, r, f, b);
    var f': nat, b': nat :| Tallied(lim, next, f', b');
    SomeSegment(lim, Vecs(r.bios), r.nr, f, b);
    SomeSegment(lim, Vecs(next.bios), next.nr, f', b');
    Next(lim, Vecs(r.bios), r.nr, f, b, Vecs(next.bios), next.nr, f', b');
    assert Tallied(lim, Req(r.bios + next.bios, total, sectors),
                   if r.nr > 0 then f else f', if next.nr > 0 then b' else b);
  }

  /** A single bio as a request. */
  lemma BioAsRequest(lim: Limits, b: Bio)
    requires Explained(lim, b.vecs, b.segs, b.front, b.back) && b.segs <= lim.maxSegments < 0x1_0000
    ensures Ok(lim, Req([b], b.segs, b.sectors)) && Vecs([b]) == b.vecs
  {
    VecsOne(b);
    assert Tallied(lim, Req([b], b.segs, b.sectors), b.front, b.back);
  }

  lemma BackMergeOk(lim: Limits, r: Req, b: Bio)
    requires Ok(lim, r) && BioOk(lim, b)
    ensures Ok(lim, BackMerge(lim, r, b).0)
    ensures BackMerge(lim, r, b).1 ==> Vecs(BackMerge(lim, r, b).0.bios) == Vecs(r.bios) + b.vecs
    ensures !BackMerge(lim, r, b).1 ==> Vecs(BackMerge(lim, r, b).0.bios) == Vecs(r.bios)
  {
    hide Explained, Recounted, Tallied, Vecs;
    var z := |r.bios| - 1;
    RecountKeeps(lim, r.bios[z]);
    RecountedOk(lim, b);
    UpdateOk(lim, r, z, Recounted(lim, r.bios[z]));
    VecsUpdate(r.bios, z, Recounted(lim, r.bios[z]));
    var r1 := r.(bios := r.bios[z := Recounted(lim, r.bios[z])]);
    var b1 := Recounted(lim, b);
    if r.nr + b1.segs <= lim.maxSegments {
      BioAsRequest(lim, b1);
      ConcatOk(lim, r1, Req([b1], b1.segs, b1.sectors), r.nr + b1.segs, r.sectors + b.sectors);
    }
  }

  lemma FrontMergeOk(lim: Limits, r: Req, b: Bio)
    requires Ok(lim, r) && BioOk(lim, b)
    ensures Ok(lim, FrontMerge(lim, r, b).0)
    ensures FrontMerge(lim, r, b).1 ==> Vecs(FrontMerge(lim, r, b).0.bios) == b.vecs + Vecs(r.bios)
    ensures !FrontMerge(lim, r, b).1 ==> Vecs(FrontMerge(lim, r, b).0.bios) == Vecs(r.bios)
  {
    hide Explained, Recounted, Tallied, Vecs;
    RecountKeeps(lim, r.bios[0]);
    RecountedOk(lim, b);
    UpdateOk(lim, r, 0, Recounted(lim, r.bios[0]));
    VecsUpdate(r.bios, 0, Recounted(lim, r.bios[0]));
    var r1 := r.(bios := r.bios[0 := Recounted(lim, r.bios[0])]);
    var b1 := Recounted(lim, b);
    if r.nr + b1.segs <= lim.maxSegments {
      BioAsRequest(lim, b1);
      ConcatOk(lim, Req([b1], b1.segs, b1.sectors), r1, r.nr + b1.segs, r.sectors + b.sectors);
    }
  }

  /** With a single segment, what bounds one end bounds the other. */
  lemma SingleSegment(lim: Limits, v: seq<Vec>, f: nat, b: nat, x: nat)
    requires Explained(lim, v, 1, f, b)
    ensures b <= x ==> Explained(lim, v, 1, x, b)
    ensures f <= x ==> Explained(lim, v, 1, f, x)
  {
    var s :| Cuts(lim, s, v, 1, f, b);
    assert b <= x ==> Cuts(lim, s, v, 1, x, b);
    assert f <= x ==> Cuts(lim, s, v, 1, f, x);
  }

  lemma SetFrontOk(lim: Limits, r: Req, size: nat)
    requires Ok(lim, r) && HasData(r.bios[|r.bios| - 1]) && r.bios[|r.bios| - 1].back <= size
    ensures Ok(lim, SetFront(r, size)) && Vecs(SetFront(r, size).bios) == Vecs(r.bios)
  {
    hide Explained;
    if r.nr == 1 {
      VecsUpdate(r.bios, 0, r.bios[0].(front := size));
      var f: nat, b: nat :| Tallied(lim, r, f, b);
      SingleSegment(lim, Vecs(r.bios), f, b, size);
      assert Tallied(lim, SetFront(r, size), size, b);
    }
  }

  lemma SetBackOk(lim: Limits, r: Req, size: nat)
    requires Ok(lim, r) && HasData(r.bios[0]) && r.bios[0].front <= size
    ensures Ok(lim, SetBack(r, size)) && Vecs(SetBack(r, size).bios) == Vecs(r.bios)
  {
    hide Explained;
    if r.nr == 1 {
      var z := |r.bios| - 1;
      VecsUpdate(r.bios, z, r.bios[z].(back := size));
      var f: nat, b: nat :| Tallied(lim, r, f, b);
      SingleSegment(lim, Vecs(r.bios), f, b, size);
      assert Tallied(lim, SetBack(r, size), f, size);
    }
  }

  lemma JoinedOk(lim: Limits, r: Req, next: Req, sectors: nat)
    requires Ok(lim, r) && Ok(lim, next) && Contiguous(lim, r.bios[|r.bios| - 1], next.bios[0])
    requires HasData(r.bios[|r.bios| - 1]) && r.nr + next.nr - 1 <= lim.maxSegments
    ensures var size := r.bios[|r.bios| - 1].back + next.bios[0].front;
            var bios := SetFront(r, size).bios + SetBack(next, size).bios;
            && Vecs(bios) == Vecs(r.bios) + Vecs(next.bios)
            && r.nr + next.nr >= 1 && Ok(lim, Req(bios, r.nr + next.nr - 1, sectors))
  {
    hide Explained, Vecs;
    var a, b := r.bios[|r.bios| - 1], next.bios[0];
    var size := a.back + b.front;
    VecsEnds(r.bios);
    VecsEnds(next.bios);
    SetFrontOk(lim, r, size);
    SetBackOk(lim, next, size);
    var r1, n1 := SetFront(r, size).bios, SetBack(next, size).bios;
    VecsConcat(r1, n1);
    var f: nat, g: nat :| Tallied(lim, r, f, g);
    var f': nat, g': nat :| Tallied(lim, next, f', g');
    SomeSegment(lim, Vecs(r.bios), r.nr, f, g);
    SomeSegment(lim, Vecs(next.bios), next.nr, f', g');
    Across(lim, Vecs(r.bios), r.nr, f, g, Vecs(next.bios), next.nr, f', g');
    assert Tallied(lim, Req(r1 + n1, r.nr + next.nr - 1, sectors),
                   if r.nr == 1 then g + f' else f, if next.nr == 1 then g + f' else g');
  }

  /** The seam between two requests is judged by data on both sides, or taken to be none. */
  predicate DataSeam(lim: Limits, r: Req, next: Req)
    requires r.bios != [] && next.bios != []
  {
    HasData(r.bios[|r.bios| - 1]) || !Contiguous(lim, r.bios[|r.bios| - 1], next.bios[0])
  }

  /** A seam that the merge gets to look at is judged by data. */
  predicate Judged(lim: Limits, r: Req, next: Req)
    requires r.bios != [] && next.bios != []
  {
    r.sectors + next.sectors <= lim.maxSectors ==> DataSeam(lim, r, next)
  }

  lemma MergedOk(lim: Limits, r: Req, next: Req)
    requires Ok(lim, r) && Ok(lim, next) && MergeRequests(lim, r, next).2 && Judged(lim, r, next)
    ensures Ok(lim, MergeRequests(lim, r, next).0)
    ensures Vecs(MergeRequests(lim, r, next).0.bios) == Vecs(r.bios) + Vecs(next.bios)
  {
    hide Tallied, Vecs, Contiguous;
    var a, b := r.bios[|r.bios| - 1], next.bios[0];
    if Contiguous(lim, a, b) {
      JoinedOk(lim, r, next, r.sectors + next.sectors);
    } else {
      ConcatOk(lim, r, next, r.nr + next.nr, r.sectors + next.sectors);
    }
  }

  /** A refused merge leaves both requests sound, although it may have changed recorded sizes. */
  lemma RefusedOk(lim: Limits, r: Req, next: Req)
    requires Ok(lim, r) && Ok(lim, next) && !MergeRequests(lim, r, next).2 && Judged(lim, r, next)
    ensures var (r', next', _) := MergeRequests(lim, r, next);
            && Ok(lim, r') && Vecs(r'.bios) == Vecs(r.bios) && r'.nr == r.nr
            && Ok(lim, next') && Vecs(next'.bios) == Vecs(next.bios) && next'.nr == next.nr
  {
    hide Tallied, Vecs;
    var a, b := r.bios[|r.bios| - 1], next.bios[0];
    if r.sectors + next.sectors <= lim.maxSectors && Contiguous(lim, a, b) {
      SetFrontOk(lim, r, a.back + b.front);
      SetBackOk(lim, next, a.back + b.front);
    }
  }

  /** The mapping fits the recorded count, and the count fits the queue. */
  predicate Fits(lim: Limits, r: Req) {
    Count(lim, false, Vecs(r.bios)) <= r.nr <= lim.maxSegments
  }

  lemma OkFits(lim: Limits, r: Req)
    requires Ok(lim, r)
    ensures Fits(lim, r)
  {
    hide Count, Vecs, Explained;
    var f: nat, b: nat :| Tallied(lim, r, f, b);
    ExplainedBoundsMapping(lim, Vecs(r.bios), r.nr, f, b);
  }

  lemma MergedVecs(lim: Limits, r: Req, next: Req)
    requires r.bios != [] && next.bios != [] && MergeRequests(lim, r, next).2
    ensures Vecs(MergeRequests(lim, r, next).0.bios) == Vecs(r.bios) + Vecs(next.bios)
  {
    hide Vecs, Contiguous;
    var size := r.bios[|r.bios| - 1].back + next.bios[0].front;
    var z := |next.bios| - 1;
    VecsUpdate(r.bios, 0, r.bios[0].(front := size));
    VecsUpdate(next.bios, z, next.bios[z].(back := size));
    VecsConcat(r.bios, next.bios);
    VecsConcat(SetFront(r, size).bios, SetBack(next, size).bios);
  }

  lemma NoSegments(lim: Limits, r: Req)
    requires Ok(lim, r)
    ensures r.nr == 0 <==> Vecs(r.bios) == []
  {
    hide Explained, Vecs;
    var f: nat, b: nat :| Tallied(lim, r, f, b);
    SomeSegment(lim, Vecs(r.bios), r.nr, f, b);
  }

  /** Exactly when an accepted merge fits: the seam is judged by data; or, although a bio without data
      was taken to be contiguous with what follows, the counts had a segment to spare; or there is no
      data at all and the count that wrapped around to 65535 is within the limit. */
  lemma MergeFits(lim: Limits, r: Req, next: Req)
    requires Ok(lim, r) && Ok(lim, next) && MergeRequests(lim, r, next).2
    ensures var v := Vecs(r.bios) + Vecs(next.bios);
            Fits(lim, MergeRequests(lim, r, next).0) <==>
              || DataSeam(lim, r, next)
              || Count(lim, false, v) < r.nr + next.nr
              || (v == [] && lim.maxSegments == 0xFFFF)
  {
    if DataSeam(lim, r, next) {
      hide MergeRequests, Ok, Fits, Vecs;
      MergedOk(lim, r, next);
      OkFits(lim, MergeRequests(lim, r, next).0);
    } else {
      hide Vecs, Ok, Count;
      MergedVecs(lim, r, next);
      NoSegments(lim, r);
      NoSegments(lim, next);
      MergedCount(lim, r, next);
      NothingToCount(lim);
    }
  }

  /** Where no data judges the seam, a segment is subtracted. */
  lemma MergedCount(lim: Limits, r: Req, next: Req)
    requires Ok(lim, r) && Ok(lim, next) && MergeRequests(lim, r, next).2 && !DataSeam(lim, r, next)
    ensures var total := r.nr + next.nr - 1;
            total <= lim.maxSegments < 0x1_0000
            && MergeRequests(lim, r, next).0.nr == if total < 0 then 0xFFFF else total
  {
    hide Tallied;
  }

  lemma NothingToCount(lim: Limits)
    ensures Count(lim, false, []) == 0
  {
  }

  // ---------------------------------------------------------------- every history of merges

  /** How a request came about.  A refused request-to-request merge leaves two requests behind:
      `Join` stands for the merged or the first one, `Left` for the second one. */
  datatype History =
    | Fresh(b: Bio)
    | Back(h: History, b: Bio)
    | Front(h: History, b: Bio)
    | Join(h: History, next: History)
    | Left(h: History, next: History)

  function Build(lim: Limits, h: History): (r: Req)
    ensures r.bios != []
  {
    match h
    case Fresh(b) => FromBio(lim, b)
    case Back(g, b) => BackMerge(lim, Build(lim, g), b).0
    case Front(g, b) => FrontMerge(lim, Build(lim, g), b).0
    case Join(g, n) => MergeRequests(lim, Build(lim, g), Build(lim, n)).0
    case Left(g, n) => MergeRequests(lim, Build(lim, g), Build(lim, n)).1
  }

  /** Bios counted earlier are counted soundly, single bios fit the limit (which is what the code that
      builds bios ensures), and requests meet at seams judged by data. */
  ghost predicate Feasible(lim: Limits, h: History) {
    match h
    case Fresh(b) => BioOk(lim, b) && FromBio(lim, b).nr <= lim.maxSegments
    case Back(g, b) => Feasible(lim, g) && BioOk(lim, b)
    case Front(g, b) => Feasible(lim, g) && BioOk(lim, b)
    case Join(g, n) => Feasible(lim, g) && Feasible(lim, n) && Judged(lim, Build(lim, g), Build(lim, n))
    case Left(g, n) =>
      && Feasible(lim, g) && Feasible(lim, n) && Judged(lim, Build(lim, g), Build(lim, n))
      && !MergeRequests(lim, Build(lim, g), Build(lim, n)).2
  }

  lemma {:induction false} BuildOk(lim: Limits, h: History)
    requires lim.maxSegments < 0x1_0000 && Feasible(lim, h)
    ensures Ok(lim, Build(lim, h))
  {
    hide Ok, BioOk, BackMerge, FrontMerge, MergeRequests, FromBio, Judged;
    match h
    case Fresh(b) => FromBioOk(lim, b);
    case Back(g, b) => BuildOk(lim, g); BackMergeOk(lim, Build(lim, g), b);
    case Front(g, b) => BuildOk(lim, g); FrontMergeOk(lim, Build(lim, g), b);
    case Join(g, n) =>
      BuildOk(lim, g);
      BuildOk(lim, n);
      if MergeRequests(lim, Build(lim, g), Build(lim, n)).2 {
        MergedOk(lim, Build(lim, g), Build(lim, n));
      } else {
        RefusedOk(lim, Build(lim, g), Build(lim, n));
      }
    case Left(g, n) =>
      BuildOk(lim, g);
      BuildOk(lim, n);
      RefusedOk(lim, Build(lim, g), Build(lim, n));
  }

  /** Whatever the history, with or without bios that carry no data, the mapping fits. */
  lemma MappingFits(lim: Limits, h: History)
    requires lim.maxSegments < 0x1_0000 && Feasible(lim, h)
    ensures Fits(lim, Build(lim, h))
  {
    hide Feasible, Build, Ok, Fits;
    BuildOk(lim, h);
    OkFits(lim, Build(lim, h));
  }

  /** The next accepted merge fits exactly under the condition of `MergeFits`. */
  lemma JoinFits(lim: Limits, g: History, n: History)
    requires lim.maxSegments < 0x1_0000 && Feasible(lim, g) && Feasible(lim, n)
    requires MergeRequests(lim, Build(lim, g), Build(lim, n)).2
    ensures var r, next := Build(lim, g), Build(lim, n);
            var v := Vecs(r.bios) + Vecs(next.bios);
            Fits(lim, Build(lim, Join(g, n))) <==>
              || DataSeam(lim, r, next)
              || Count(lim, false, v) < r.nr + next.nr
              || (v == [] && lim.maxSegments == 0xFFFF)
  {
    hide Feasible, Ok, Fits, MergeRequests, DataSeam, Vecs, Count;
    BuildOk(lim, g);
    BuildOk(lim, n);
    MergeFits(lim, Build(lim, g), Build(lim, n));
  }

  /** So merging a request without data in front loses a segment of any exactly counted request. */
  lemma DatalessUndercounts(lim: Limits, b: Bio, next: Req)
    requires !HasData(b) && Ok(lim, next) && lim.cluster
    requires b.back + next.bios[0].front <= lim.maxSize && b.sectors + next.sectors <= lim.maxSectors
    ensures var (r, _, ok) := MergeRequests(lim, FromBio(lim, b), next);
            ok && (Fits(lim, r) <==> Count(lim, false, Vecs(next.bios)) < next.nr
                                     || (Vecs(next.bios) == [] && lim.maxSegments == 0xFFFF))
  {
    var r0 := FromBio(lim, b);
    VecsOne(r0.bios[0]);
    NoData(lim, 0, 0);
    assert Tallied(lim, r0, 0, 0);
    hide Vecs, Explained, Tallied, Count, Fits;
    assert [] + Vecs(next.bios) == Vecs(next.bios);
    MergeFits(lim, r0, next);
  }

  // ---------------------------------------------------------------- in place

  /** The entry lengths of a segmentation. */
  function Lengths(segs: seq<seq<Vec>>): (l: seq<nat>)
    ensures |l| == |segs|
    ensures forall i :: 0 <= i < |l| ==> l[i] == Size(segs[i])
  {
    seq(|segs|, i requires 0 <= i < |segs| => Size(segs[i]))
  }

  /** `blk_rq_map_sg`: the lengths of the scatter-list entries, before padding and drain. */
  method MapSg(lim: Limits, bios: seq<Bio>) returns (sg: seq<nat>)
    ensures |sg| == Count(lim, false, Vecs(bios))
    ensures var v := Vecs(bios); v != [] ==> sg == Lengths(Cut(lim, false, [v[0]], v[1..]))
  {
    hide Vecs, Cut;
    sg := [];
    ghost var v := Vecs(bios);
    var prev := Vec(0, 0, 0, false);
    ghost var closed: seq<seq<Vec>>, open: seq<Vec> := [], [];
    var i := 0;
    assert bios[0..] == bios;
    while i < |bios|
      invariant 0 <= i <= |bios|
      invariant Mapping(lim, v, Vecs(bios[i..]), sg, closed, open, prev)
    {
      var k := 0;
      VecsStep(bios, i);
      while k < |bios[i].vecs|
        invariant 0 <= k <= |bios[i].vecs|
        invariant Mapping(lim, v, bios[i].vecs[k..] + Vecs(bios[i + 1..]), sg, closed, open, prev)
      {
        var bv := bios[i].vecs[k];
        ghost var rest := bios[i].vecs[k + 1..] + Vecs(bios[i + 1..]);
        assert bios[i].vecs[k..] + Vecs(bios[i + 1..]) == [bv] + rest;
        MappingStep(lim, v, bv, rest, sg, closed, open, prev);
        if sg != [] && lim.cluster && sg[|sg| - 1] + bv.len <= lim.maxSize && lim.contig(prev, bv) {
          sg := sg[..|sg| - 1] + [sg[|sg| - 1] + bv.len];
          open := open + [bv];
        } else {
          if sg != [] { closed := closed + [open]; }
          sg := sg + [bv.len];
          open := [bv];
        }
        prev := bv;
        k := k + 1;
      }
      assert bios[i].vecs[k..] + Vecs(bios[i + 1..]) == Vecs(bios[i + 1..]);
      i := i + 1;
    }
    VecsEnd(bios);
    MappingEnd(lim, v, sg, closed, open, prev);
  }

  /** Progress of the mapping loop: entries for `closed` are final, the last one is still open. */
  ghost predicate Mapping(lim: Limits, v: seq<Vec>, rest: seq<Vec>, sg: seq<nat>, closed: seq<seq<Vec>>,
                          open: seq<Vec>, prev: Vec)
  {
    if sg == [] then rest == v && closed == [] && open == []
    else
      && v != [] && open != [] && open[|open| - 1] == prev
      && sg == Lengths(closed + [open])
      && closed + Cut(lim, false, open, rest) == Cut(lim, false, [v[0]], v[1..])
  }

  lemma MappingStep(lim: Limits, v: seq<Vec>, bv: Vec, rest: seq<Vec>, sg: seq<nat>, closed: seq<seq<Vec>>,
                    open: seq<Vec>, prev: Vec)
    requires Mapping(lim, v, [bv] + rest, sg, closed, open, prev)
    ensures if sg != [] && lim.cluster && sg[|sg| - 1] + bv.len <= lim.maxSize && lim.contig(prev, bv)
            then Mapping(lim, v, rest, sg[..|sg| - 1] + [sg[|sg| - 1] + bv.len], closed, open + [bv], bv)
            else Mapping(lim, v, rest, sg + [bv.len], if sg != [] then closed + [open] else closed, [bv], bv)
  {
    assert ([bv] + rest)[1..] == rest;
    SizeOne(bv);
    if sg != [] {
      assert (closed + [open])[|closed|] == open;
      assert (open + [bv])[..|open|] == open;
      if lim.cluster && sg[|sg| - 1] + bv.len <= lim.maxSize && lim.contig(prev, bv) {
        assert sg[..|sg| - 1] + [sg[|sg| - 1] + bv.len] == Lengths(closed + [open + [bv]]);
      } else {
        assert sg + [bv.len] == Lengths(closed + [open] + [[bv]]);
        assert closed + [open] + Cut(lim, false, [bv], rest) == closed + ([open] + Cut(lim, false, [bv], rest));
      }
    } else {
      assert [] + [[bv]] == [[bv]];
      assert sg + [bv.len] == Lengths([] + [[bv]]);
      assert [] + Cut(lim, false, [bv], rest) == Cut(lim, false, [bv], rest);
    }
  }

  lemma MappingEnd(lim: Limits, v: seq<Vec>, sg: seq<nat>, closed: seq<seq<Vec>>, open: seq<Vec>, prev: Vec)
    requires Mapping(lim, v, [], sg, closed, open, prev)
    ensures |sg| == Count(lim, false, v)
    ensures v != [] ==> sg == Lengths(Cut(lim, false, [v[0]], v[1..]))
  {
    if sg != [] {
      SizeOne(v[0]);
      CutMeasures(lim, false, [v[0]], v[1..]);
    }
  }

  /** A request that merges update in place. */
  class Request {
    var bios: seq<Bio>
    var nr: nat
    var sectors: nat

    ghost function View(): Req
      reads this
    {
      Req(bios, nr, sectors)
    }

    constructor (lim: Limits, bio: Bio)
      ensures View() == FromBio(lim, bio)
    {
      var b := bio;
      var n := 0;
      if b.vecs != [] {
        b := Recount(lim, b);
        n := b.segs;
      }
      bios, nr, sectors := [b], n, bio.sectors;
    }

    static method Recount(lim: Limits, bio: Bio) returns (b: Bio)
      ensures b == Recounted(lim, bio)
    {
      b := bio;
      if !b.counted {
        var n, front, back := Recalc(lim, [b]);
        VecsOne(b);
        b := b.(segs := n, front := front, back := back, counted := true);
      }
    }

    /** `ll_new_hw_segment` */
    method NewSegments(lim: Limits, segs: nat) returns (ok: bool)
      modifies this`nr
      ensures ok == (old(nr) + segs <= lim.maxSegments)
      ensures nr == if ok then old(nr) + segs else old(nr)
    {
      if nr + segs > lim.maxSegments { return false; }
      nr := nr + segs;
      ok := true;
    }

    method BackMergeBio(lim: Limits, bio: Bio) returns (ok: bool)
      requires bios != []
      modifies this
      ensures (View(), ok) == old(BackMerge(lim, View(), bio))
    {
      if sectors + bio.sectors > lim.maxSectors { return false; }
      var z := |bios| - 1;
      var tail := Recount(lim, bios[z]);
      bios := bios[z := tail];
      var b := Recount(lim, bio);
      ok := NewSegments(lim, b.segs);
      if ok {
        bios := bios + [b];
        sectors := sectors + bio.sectors;
      }
    }

    method FrontMergeBio(lim: Limits, bio: Bio) returns (ok: bool)
      requires bios != []
      modifies this
      ensures (View(), ok) == old(FrontMerge(lim, View(), bio))
    {
      if sectors + bio.sectors > lim.maxSectors { return false; }
      var b := Recount(lim, bio);
      var head := Recount(lim, bios[0]);
      bios := bios[0 := head];
      ok := NewSegments(lim, b.segs);
      if ok {
        bios := [b] + bios;
        sectors := sectors + bio.sectors;
      }
    }

    /** `attempt_merge`: `next` gives up its bios when the merge succeeds. */
    method MergeWith(lim: Limits, next: Request) returns (ok: bool)
      requires bios != [] && next.bios != [] && next != this
      modifies this, next
      ensures var (r, n, done) := old(MergeRequests(lim, View(), next.View()));
              && ok == done && View() == r
              && (if ok then next.bios == [] else next.View() == n)
    {
      if sectors + next.sectors > lim.maxSectors { return false; }
      var z, y := |bios| - 1, |next.bios| - 1;
      var a, b := bios[z], next.bios[0];
      var size := a.back + b.front;
      var total: int := nr + next.nr;
      if Contiguous(lim, a, b) {
        if nr == 1 { bios := bios[0 := bios[0].(front := size)]; }
        if next.nr == 1 { next.bios := next.bios[y := next.bios[y].(back := size)]; }
        total := total - 1;
      }
      if total > lim.maxSegments { return false; }
      nr := Stored(total);
      bios := bios + next.bios;
      sectors := sectors + next.sectors;
      next.bios := [];
      ok := true;
    }
  }
}
