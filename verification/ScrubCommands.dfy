/** From scrub jobs to VERIFY (10) commands, and the loops that issue them. */
module ScrubCommands {
  import opened ScrubPlan

  type Octet = x: nat | x < 256

  // ---------------------------------------------------------------- the command descriptor block

  /** The bytes of a VERIFY (10) command: operation code 0x2f, flags, big-endian address, group,
      big-endian length, control. */
  function Encode(flags: Octet, lba: nat, len: nat): (cdb: seq<Octet>)
    ensures |cdb| == 10
  {
    [0x2f, flags,
     lba / 0x100_0000 % 256, lba / 0x1_0000 % 256, lba / 0x100 % 256, lba % 256,
     0, len / 0x100 % 256, len % 256, 0]
  }

  /** How the request is set up from the bytes: start sector and number of sectors. */
  function Decode(cdb: seq<Octet>): Job
    requires |cdb| == 10
  {
    Job((cdb[2] as nat) * 0x100_0000 + (cdb[3] as nat) * 0x1_0000 + (cdb[4] as nat) * 0x100 + cdb[5] as nat,
        (cdb[7] as nat) * 0x100 + cdb[8] as nat)
  }

  /** The fields survive, up to their width. */
  lemma DecodeEncode(flags: Octet, lba: nat, len: nat)
    ensures Decode(Encode(flags, lba, len)) == Job(lba % U32, len % 0x1_0000)
  {
    Low16(lba);
    Low24(lba);
    Low32(lba);
    Low16(len);
  }

  lemma Low16(x: nat)
    ensures x % 0x1_0000 == (x / 0x100 % 256) * 0x100 + x % 256
  {
  }

  lemma Low24(x: nat)
    ensures x % 0x100_0000 == (x / 0x1_0000 % 256) * 0x1_0000 + x % 0x1_0000
  {
  }

  lemma Low32(x: nat)
    ensures x % U32 == (x / 0x100_0000 % 256) * 0x100_0000 + x % 0x100_0000
  {
  }

  // ---------------------------------------------------------------- splitting a job

  const MAX_LEN: nat := 65535

  /** A worker verifies at most 65535 sectors with one command. */
  function Pieces(j: Job): seq<Job>
    decreases j.count
  {
    if j.count <= MAX_LEN then [j]
    else [Job(j.pos, MAX_LEN)] + Pieces(Job(j.pos + MAX_LEN, j.count - MAX_LEN))
  }

  lemma {:induction false} PiecesCover(j: Job, x: nat)
    ensures Cover(Pieces(j), x) == if Within(j, x) then 1 else 0
    ensures forall i | 0 <= i < |Pieces(j)| ::
              var q := Pieces(j)[i];
              q.count <= MAX_LEN && j.pos <= q.pos && q.pos + q.count <= j.pos + j.count
    decreases j.count
  {
    if j.count <= MAX_LEN {
      assert [j][1..] == [];
    } else {
      var rest := Job(j.pos + MAX_LEN, j.count - MAX_LEN);
      PiecesCover(rest, x);
      var first := [Job(j.pos, MAX_LEN)];
      assert Pieces(j)[1..] == Pieces(rest);
      forall i | 0 < i < |Pieces(j)| ensures Pieces(j)[i] == Pieces(rest)[i - 1] { }
    }
  }

  /** The commands a plan turns into. */
  function Commands(flags: Octet, js: seq<Job>): seq<seq<Octet>> {
    if js == [] then [] else Issue(flags, Pieces(js[0])) + Commands(flags, js[1..])
  }

  function Issue(flags: Octet, ps: seq<Job>): (cs: seq<seq<Octet>>)
    ensures |cs| == |ps| && forall i :: 0 <= i < |cs| ==> |cs[i]| == 10
  {
    seq(|ps|, i requires 0 <= i < |ps| => Encode(flags, ps[i].pos, ps[i].count))
  }

  /** The sector ranges the device is asked for. */
  function Ranges(cs: seq<seq<Octet>>): seq<Job> {
    seq(|cs|, i requires 0 <= i < |cs| => if |cs[i]| == 10 then Decode(cs[i]) else Job(0, 0))
  }

  lemma IssueRanges(flags: Octet, ps: seq<Job>)
    requires forall i :: 0 <= i < |ps| ==> ps[i].pos < U32 && ps[i].count <= MAX_LEN
    ensures Ranges(Issue(flags, ps)) == ps
  {
    hide Encode, Decode;
    forall i | 0 <= i < |ps| ensures Ranges(Issue(flags, ps))[i] == ps[i] {
      DecodeEncode(flags, ps[i].pos, ps[i].count);
    }
  }

  /** Encoding, splitting and decoding lose and add nothing. */
  lemma {:induction false} CommandsCover(flags: Octet, js: seq<Job>, x: nat)
    requires forall i :: 0 <= i < |js| ==> js[i].count > 0 && js[i].pos + js[i].count <= U32
    ensures Cover(Ranges(Commands(flags, js)), x) == Cover(js, x)
  {
    hide Pieces, Encode, Decode;
    if js != [] {
      CommandsCover(flags, js[1..], x);
      var ps := Pieces(js[0]);
      PiecesCover(js[0], x);
      PiecesPositive(js[0]);
      IssueRanges(flags, ps);
      var a, b := Issue(flags, ps), Commands(flags, js[1..]);
      assert Ranges(a + b) == Ranges(a) + Ranges(b);
      CoverConcat(Ranges(a), Ranges(b), x);
    }
  }

  lemma {:induction false} PiecesPositive(j: Job)
    requires j.count > 0
    ensures forall i :: 0 <= i < |Pieces(j)| ==> Pieces(j)[i].count > 0 && Pieces(j)[i].pos < j.pos + j.count
    decreases j.count
  {
    if j.count > MAX_LEN {
      var rest := Job(j.pos + MAX_LEN, j.count - MAX_LEN);
      PiecesPositive(rest);
      forall i | 0 < i < |Pieces(j)| ensures Pieces(j)[i] == Pieces(rest)[i - 1] { }
    }
  }

  // ---------------------------------------------------------------- whole scrubs

  ghost predicate JobsBelow(js: seq<Job>, end: nat) {
    forall i :: 0 <= i < |js| ==> js[i].count > 0 && js[i].pos + js[i].count <= end
  }

  lemma JobsConcat(a: seq<Job>, b: seq<Job>, end: nat)
    requires JobsBelow(a, end) && JobsBelow(b, end)
    ensures JobsBelow(a + b, end)
  {
  }

  lemma AtMost1Below(p: Params, sn: nat, rn: nat)
    requires Fits(p) && p.seg <= p.end
    ensures JobsBelow(AtMost1(p, sn, rn), p.end)
  {
    hide Pos;
    if Pos(p, sn, rn) < p.end { NumPositive(p, Pos(p, sn, rn)); }
  }

  lemma {:induction false} RowBelow(p: Params, sn: nat, rn: nat)
    requires Fits(p) && p.seg <= p.end
    ensures JobsBelow(Row(p, sn, rn), p.end)
    decreases Regions(p) - rn
  {
    hide Regions, AtMost1;
    if rn < Regions(p) {
      AtMost1Below(p, sn, rn);
      RowBelow(p, sn, rn + 1);
      JobsConcat(AtMost1(p, sn, rn), Row(p, sn, rn + 1), p.end);
    }
  }

  lemma {:induction false} StaggeredBelow(p: Params, sn: nat)
    requires Fits(p) && p.seg <= p.end
    ensures JobsBelow(Staggered(p, sn), p.end)
    decreases Segments(p) - sn
  {
    hide Segments, Row;
    if sn < Segments(p) {
      RowBelow(p, sn, 0);
      StaggeredBelow(p, sn + 1);
      JobsConcat(Row(p, sn, 0), Staggered(p, sn + 1), p.end);
    }
  }

  lemma {:induction false} SequentialBelow(p: Params, pos: nat)
    requires Fits(p) && p.seg <= p.end
    ensures JobsBelow(Sequential(p, pos), p.end)
    decreases if pos < p.end then p.end - pos else 0
  {
    if pos < p.end {
      NumPositive(p, pos);
      SequentialBelow(p, pos + Num(p, pos));
      JobsConcat([Job(pos, Num(p, pos))], Sequential(p, pos + Num(p, pos)), p.end);
    }
  }

  /** The commands of a staggered scrub ask for exactly the sectors of the range, the same ones as
      those of a sequential scrub, and for each once when segments tile the regions. */
  lemma ScrubVerifies(p: Params, flags: Octet, x: nat)
    requires Fits(p) && p.seg <= p.end <= U32
    ensures var stag := Cover(Ranges(Commands(flags, Staggered(p, 0))), x);
            var seql := Cover(Ranges(Commands(flags, Sequential(p, p.start))), x);
            && (stag > 0 <==> p.start <= x < p.end)
            && seql == (if p.start <= x < p.end then 1 else 0)
            && (Tiles(p) ==> stag == seql)
  {
    hide Cover, Ranges, Commands, Staggered, Sequential;
    StaggeredBelow(p, 0);
    SequentialBelow(p, p.start);
    CommandsCover(flags, Staggered(p, 0), x);
    CommandsCover(flags, Sequential(p, p.start), x);
    StaggeredExactly(p);
    SequentialOnce(p, p.start, x);
    if Tiles(p) && p.start <= x < p.end { Once(p, x); }
  }

  // ---------------------------------------------------------------- the loops

  /** What a bound on the number of requests leaves of a plan: it is noticed one job late. */
  function Bounded(js: seq<Job>, bound: nat): seq<Job> {
    if bound == 0 || |js| <= bound + 1 then js else js[..bound + 1]
  }

  /** `seqscrub`: the jobs it hands out. */
  method SeqScrub(p: Params, bound: nat) returns (jobs: seq<Job>)
    requires Fits(p)
    ensures jobs == Bounded(Sequential(p, p.start), bound)
  {
    hide Num, Sequential;
    ghost var plan := Sequential(p, p.start);
    jobs := [];
    var pos, reqcount := p.start, 0;
    while pos < p.end
      invariant jobs + Sequential(p, pos) == plan
      invariant bound > 0 ==> reqcount == |jobs| <= bound
      decreases if pos < p.end then p.end - pos else 0
    {
      var num := SegmentLength(p, pos);
      SequentialUnfold(p, pos);
      ghost var rest := Sequential(p, pos + num);
      assert jobs + ([Job(pos, num)] + rest) == jobs + [Job(pos, num)] + rest;
      jobs := jobs + [Job(pos, num)];
      if bound > 0 {
        reqcount := reqcount + 1;
        if reqcount > bound {
          PrefixOf(jobs, rest, plan);
          return;
        }
      }
      pos := pos + num;
    }
    SequentialUnfold(p, pos);
    assert jobs + [] == jobs;
  }

  /** How much of the segment at `pos` to verify. */
  method SegmentLength(p: Params, pos: nat) returns (num: nat)
    requires Fits(p) && pos < p.end
    ensures num == Num(p, pos) > 0
  {
    NumPositive(p, pos);
    if (pos + p.seg) % U64 > p.end {
      num := if p.seg > p.end then p.end else p.end - pos;
    } else {
      num := p.seg;
    }
  }

  lemma SequentialUnfold(p: Params, pos: nat)
    requires Fits(p)
    ensures Sequential(p, pos)
         == if pos < p.end then [Job(pos, Num(p, pos))] + Sequential(p, pos + Num(p, pos)) else []
  {
    if pos < p.end { NumPositive(p, pos); }
  }

  /** `lceil`. */
  method CeilDiv(whole: nat, part: nat) returns (r: nat)
    requires part > 0
    ensures r == Ceil(whole, part)
    ensures whole <= r * part && (r > 0 ==> (r - 1) * part < whole)
  {
    CeilIs(whole, part, Ceil(whole, part));
    if whole % part == 0 {
      r := whole / part;
    } else {
      r := 1 + whole / part;
    }
    if r > 0 { CeilIs(whole, part, r - 1); }
  }

  /** `stgscrub`. */
  method StgScrub(p: Params, bound: nat) returns (jobs: seq<Job>)
    requires Fits(p)
    ensures jobs == Bounded(Staggered(p, 0), bound)
  {
    hide Pos, Num, Ceil, Row, Staggered;
    ghost var plan := Staggered(p, 0);
    jobs := [];
    var regnum := CeilDiv(p.end - p.start, p.reg);
    var segnum := CeilDiv(p.reg, p.seg);
    var sn := 0;
    assert [] + plan == plan;
    while sn < segnum
      invariant sn <= segnum && jobs + Staggered(p, sn) == plan
      invariant bound > 0 ==> |jobs| <= bound
    {
      StaggeredUnfold(p, sn);
      var stop;
      ghost var was, later := jobs, Staggered(p, sn + 1);
      jobs, stop := ScrubRow(p, sn, regnum, jobs, bound);
      RowPrefix(was, jobs, Row(p, sn, 0), later, plan);
      if stop {
        return;
      }
      sn := sn + 1;
    }
    StaggeredUnfold(p, sn);
    assert jobs + [] == jobs;
  }

  /** The inner loop: one segment of each region.  It stops the scrub when the count of requests
      passes the bound. */
  method ScrubRow(p: Params, sn: nat, regnum: nat, before: seq<Job>, bound: nat) returns (jobs: seq<Job>, stop: bool)
    requires Fits(p) && regnum == Regions(p) && (bound > 0 ==> |before| <= bound)
    ensures jobs <= before + Row(p, sn, 0)
    ensures if stop then bound > 0 && |jobs| == bound + 1
            else jobs == before + Row(p, sn, 0) && (bound > 0 ==> |jobs| <= bound)
  {
    hide Pos, Num, Ceil, Row;
    jobs, stop := before, false;
    var reqcount := |before|;
    var rn := 0;
    while rn < regnum
      invariant rn <= regnum && jobs + Row(p, sn, rn) == before + Row(p, sn, 0)
      invariant bound > 0 ==> reqcount == |jobs| <= bound
    {
      RowUnfold(p, sn, rn, jobs);
      var pos := Pos(p, sn, rn);
      if pos < p.end {
        var num := SegmentLength(p, pos);
        jobs := jobs + [Job(pos, num)];
        if bound > 0 {
          reqcount := reqcount + 1;
          if reqcount > bound {
            stop := true;
            return;
          }
        }
      }
      rn := rn + 1;
    }
    RowEnds(p, sn, rn);
    assert jobs + [] == jobs;
  }

  lemma RowPrefix(was: seq<Job>, jobs: seq<Job>, row: seq<Job>, later: seq<Job>, plan: seq<Job>)
    requires was + (row + later) == plan && jobs <= was + row
    ensures jobs <= plan && (jobs == was + row ==> jobs + later == plan)
  {
    assert was + (row + later) == was + row + later;
  }

  lemma StaggeredUnfold(p: Params, sn: nat)
    requires Fits(p)
    ensures Staggered(p, sn) == if sn >= Segments(p) then [] else Row(p, sn, 0) + Staggered(p, sn + 1)
  {
  }

  lemma RowEnds(p: Params, sn: nat, rn: nat)
    requires Fits(p) && rn >= Regions(p)
    ensures Row(p, sn, rn) == []
  {
  }

  lemma PrefixOf(a: seq<Job>, b: seq<Job>, plan: seq<Job>)
    requires a + b == plan
    ensures a == plan[..|a|] && |a| <= |plan|
  {
  }

  lemma RowUnfold(p: Params, sn: nat, rn: nat, jobs: seq<Job>)
    requires Fits(p) && rn < Regions(p)
    ensures jobs + Row(p, sn, rn) == jobs + AtMost1(p, sn, rn) + Row(p, sn, rn + 1)
    ensures Pos(p, sn, rn) < p.end ==> AtMost1(p, sn, rn) == [Job(Pos(p, sn, rn), Num(p, Pos(p, sn, rn)))]
    ensures Pos(p, sn, rn) >= p.end ==> jobs + AtMost1(p, sn, rn) == jobs
  {
    assert jobs + [] == jobs;
  }

  /** The worker's loop over one job. */
  method RunJob(flags: Octet, j: Job) returns (cs: seq<seq<Octet>>)
    ensures cs == Issue(flags, Pieces(j))
  {
    hide Encode, Pieces;
    cs := [];
    var pos, count := j.pos, j.count;
    ghost var before: seq<Job> := [];
    while true
      invariant before + Pieces(Job(pos, count)) == Pieces(j) && cs == Issue(flags, before)
      decreases count
    {
      PiecesUnfold(Job(pos, count));
      var num := if count > 65535 then 65535 else count;
      cs := cs + [Encode(flags, pos, num)];
      ghost var was := before;
      before := before + [Job(pos, num)];
      assert cs == Issue(flags, before);
      if count <= 65535 {
        return;
      }
      assert was + ([Job(pos, num)] + Pieces(Job(pos + 65535, count - 65535)))
          == before + Pieces(Job(pos + 65535, count - 65535));
      count, pos := count - 65535, pos + 65535;
    }
  }

  lemma PiecesUnfold(j: Job)
    ensures Pieces(j) == if j.count <= 65535 then [j]
                         else [Job(j.pos, 65535)] + Pieces(Job(j.pos + 65535, j.count - 65535))
  {
  }

  /** `scrubdev`: sizes arrive in kilobytes; no count, or one past the device, means up to its end. */
  function Setup(start: nat, count: nat, capacity: nat, segKb: nat, regKb: nat): (p: Params)
    ensures p.end <= capacity && p.start == start
    ensures count > 0 && start + count <= capacity ==> p.end - p.start == count
    ensures p.seg * 512 == segKb * 1024 && p.reg * 512 == regKb * 1024
  {
    Params(start, if count == 0 || start + count > capacity then capacity else start + count, segKb * 2, regKb * 2)
  }
}
