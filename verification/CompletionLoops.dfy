/** `blk_update_request` and `blk_rq_err_bytes` as they work on bios, vectors and counters. */
module CompletionLoops {
  import opened Completion

  /** A run of bytes in one page. */
  datatype Vec = Vec(page: nat, offset: nat, len: nat)

  /** `idx` is the first vector not yet done, `size` the bytes left. */
  datatype Bio = Bio(id: nat, vecs: seq<Vec>, idx: nat, size: nat, uptodate: bool, ff: set<Failfast>)

  function VecBytes(v: Vec): seq<Byte> {
    seq(v.len, i requires 0 <= i < v.len => Byte(v.page, v.offset + i))
  }

  function Live(vs: seq<Vec>): seq<Byte> {
    if vs == [] then [] else VecBytes(vs[0]) + Live(vs[1..])
  }

  lemma {:induction false} LiveConcat(a: seq<Vec>, b: seq<Vec>)
    ensures Live(a + b) == Live(a) + Live(b)
  {
    if a == [] {
      assert a + b == b;
    } else {
      LiveConcat(a[1..], b);
      assert (a + b)[1..] == a[1..] + b;
      calc {
        Live(a + b);
        VecBytes(a[0]) + Live(a[1..] + b);
        VecBytes(a[0]) + (Live(a[1..]) + Live(b));
        VecBytes(a[0]) + Live(a[1..]) + Live(b);
        Live(a) + Live(b);
      }
    }
  }

  /** The vectors left add up to the size left. */
  ghost predicate Sound(b: Bio) {
    b.idx <= |b.vecs| && |Live(b.vecs[b.idx..])| == b.size
  }

  function ToPart(b: Bio): Part
    requires b.idx <= |b.vecs|
  {
    Part(b.id, Live(b.vecs[b.idx..]), b.uptodate, b.ff)
  }

  function Parts(bs: seq<Bio>): (ps: seq<Part>)
    requires forall i :: 0 <= i < |bs| ==> bs[i].idx <= |bs[i].vecs|
    ensures |ps| == |bs|
  {
    seq(|bs|, i requires 0 <= i < |bs| => ToPart(bs[i]))
  }

  ghost predicate AllSound(bs: seq<Bio>) {
    forall i :: 0 <= i < |bs| ==> Sound(bs[i])
  }

  function Told(b: Bio, error: int): int {
    if error != 0 then error else if !b.uptodate then -EIO else 0
  }

  lemma PartsTail(bs: seq<Bio>)
    requires AllSound(bs) && bs != []
    ensures AllSound(bs[1..]) && Parts(bs)[1..] == Parts(bs[1..]) && Parts(bs)[0] == ToPart(bs[0])
  {
  }

  // ---------------------------------------------------------------- inside one bio

  /** `next` vectors of the bio, `done` bytes in all, have been passed. */
  ghost predicate Mid(b: Bio, next: nat, done: nat) {
    b.idx + next <= |b.vecs| && |Live(b.vecs[b.idx..b.idx + next])| == done
  }

  lemma HeadSound(bs: seq<Bio>)
    requires AllSound(bs) && bs != []
    ensures Sound(bs[0])
  {
  }

  lemma MidStart(bs: seq<Bio>)
    requires AllSound(bs) && bs != []
    ensures Mid(bs[0], 0, 0)
  {
    assert Sound(bs[0]);
    assert bs[0].vecs[bs[0].idx..bs[0].idx] == [];
  }

  lemma MidStep(b: Bio, next: nat, done: nat)
    requires Sound(b) && Mid(b, next, done) && done < b.size
    ensures b.idx + next < |b.vecs| && Mid(b, next + 1, done + b.vecs[b.idx + next].len)
    ensures done + b.vecs[b.idx + next].len <= b.size
  {
    var vs := b.vecs[b.idx..];
    assert b.vecs[b.idx..b.idx + next] == vs[..next];
    assert vs[..|vs|] == vs;
    assert next < |vs|;
    assert vs == vs[..next + 1] + vs[next + 1..];
    LiveConcat(vs[..next + 1], vs[next + 1..]);
    assert vs[..next + 1] == vs[..next] + [vs[next]];
    LiveConcat(vs[..next], [vs[next]]);
    assert Live([vs[next]]) == VecBytes(vs[next]) + Live([]);
    assert b.vecs[b.idx..b.idx + next + 1] == vs[..next + 1];
  }

  /** A vector whose first `k` bytes are done. */
  function Trim(v: Vec, k: nat): Vec
    requires k <= v.len
  {
    v.(offset := v.offset + k, len := v.len - k)
  }

  /** Moving to the vector reached and trimming it drops exactly the bytes passed. */
  lemma TrimDrops(b: Bio, next: nat, done: nat, k: nat)
    requires Sound(b) && Mid(b, next, done) && b.idx + next < |b.vecs| && k <= b.vecs[b.idx + next].len
    requires done + k <= b.size
    ensures var at := b.idx + next;
            Live(b.vecs[at := Trim(b.vecs[at], k)][at..]) == Live(b.vecs[b.idx..])[done + k..]
  {
    var at := b.idx + next;
    var vs := b.vecs[b.idx..];
    assert b.vecs[b.idx..at] == vs[..next];
    assert vs == vs[..next] + vs[next..];
    LiveConcat(vs[..next], vs[next..]);
    var tail := vs[next..];
    var vs' := b.vecs[at := Trim(b.vecs[at], k)];
    assert tail[1..] == b.vecs[at + 1..] == vs'[at..][1..];
    assert VecBytes(Trim(tail[0], k)) == VecBytes(tail[0])[k..];
    assert Live(vs'[at..]) == VecBytes(tail[0])[k..] + Live(tail[1..]);
  }

  // ---------------------------------------------------------------- the loop's specification

  /** What is still to be done equals what is left of the whole completion. */
  ghost predicate Toward(bs: seq<Bio>, n: nat, log: seq<Ending>, error: int, rest: seq<Part>, final: seq<Ending>) {
    && AllSound(bs)
    && Drop(Parts(bs), error, n) == rest
    && log + Ended(Parts(bs), error, n) == final
  }

  lemma TowardMid(bs: seq<Bio>, n: nat, log: seq<Ending>, error: int, rest: seq<Part>, final: seq<Ending>)
    requires Toward(bs, n, log, error, rest, final) && bs != [] && n < bs[0].size
    ensures log == final
    ensures rest == if n == 0 then Parts(bs) else [Advance(ToPart(bs[0]), error, n)] + Parts(bs[1..])
  {
    PartsTail(bs);
    assert log + [] == log;
  }

  lemma PartsReplace(bs: seq<Bio>, b: Bio)
    requires AllSound(bs) && bs != [] && Sound(b)
    ensures AllSound([b] + bs[1..]) && Parts([b] + bs[1..]) == [ToPart(b)] + Parts(bs[1..])
  {
  }

  /** Where the loop stops with bios left: the place reached in the first one. */
  ghost predicate Stopped(bs: seq<Bio>, error: int, rest: seq<Part>, nr: nat, done: nat, next: nat) {
    && AllSound(bs)
    && (bs == [] ==> rest == [])
    && (bs != [] && done == 0 ==> rest == Parts(bs))
    && (bs != [] && done > 0 ==>
          && done < bs[0].size && nr <= done && Mid(bs[0], next, done - nr)
          && bs[0].idx + next < |bs[0].vecs| && nr <= bs[0].vecs[bs[0].idx + next].len
          && rest == [Advance(ToPart(bs[0]), error, done)] + Parts(bs[1..]))
  }

  lemma TowardEnd(bs: seq<Bio>, n: nat, log: seq<Ending>, error: int, rest: seq<Part>, final: seq<Ending>)
    requires Toward(bs, n, log, error, rest, final) && bs != [] && n >= bs[0].size
    ensures var log' := log + [Ending(bs[0].id, Told(bs[0], error))];
            && AllSound(bs[1..])
            && (if n == bs[0].size && |bs| > 1 then Stopped(bs[1..], error, rest, 0, 0, 0) && log' == final
                else Toward(bs[1..], n - bs[0].size, log', error, rest, final))
  {
    PartsTail(bs);
    var e := Ending(bs[0].id, Verdict(ToPart(bs[0]), error));
    assert forall x: seq<Ending> :: log + ([e] + x) == log + [e] + x;
  }

  lemma StopInside(bs: seq<Bio>, n: nat, log: seq<Ending>, error: int, rest: seq<Part>, final: seq<Ending>, nr: nat,
                   next: nat)
    requires Toward(bs, n, log, error, rest, final) && bs != [] && n < bs[0].size
    requires nr <= n && Mid(bs[0], next, n - nr)
    requires nr > 0 ==> bs[0].idx + next < |bs[0].vecs| && nr <= bs[0].vecs[bs[0].idx + next].len
    ensures Stopped(bs, error, rest, nr, n, next) && log == final
  {
    hide Drop, Ended, Parts, Live;
    TowardMid(bs, n, log, error, rest, final);
    if nr == 0 { MidStep(bs[0], next, n); }
  }

  lemma StopAtEnd(bs: seq<Bio>, log: seq<Ending>, error: int, rest: seq<Part>, final: seq<Ending>, n: nat)
    requires Toward(bs, n, log, error, rest, final) && bs == []
    ensures Stopped(bs, error, rest, n, 0, 0) && log == final
  {
    assert log + [] == log;
  }

  lemma TowardStart(bs: seq<Bio>, n: nat, log: seq<Ending>, error: int)
    requires AllSound(bs)
    ensures Toward(bs, n, log, error, Drop(Parts(bs), error, n), log + Ended(Parts(bs), error, n))
  {
  }

  lemma NoFailures(error: int)
    ensures AllSound([]) && Failures(Parts([]), error) == []
  {
  }

  /** A request that had bytes and has none left has no bio left. */
  lemma NoneLeft(r: Req, error: int, n: nat)
    requires Inv(r) && r.len > 0
    ensures Completion.Update(r, error, n).len == 0 ==> Completion.Update(r, error, n).bios == []
  {
    Lone(r);
    UpdateFinishes(r, error, n);
  }

  lemma EagerFrom(ps: seq<Part>, ff: set<Failfast>, i: nat)
    requires i <= |ps|
    ensures ps[..0] == [] && ps[0..] == ps && Bytes(ps[..0]) == []
    ensures i < |ps| ==> Eager(ps[i..], ff) == if ff <= ps[i].ff then 1 + Eager(ps[After(i)..], ff) else 0
    ensures i == |ps| ==> Eager(ps[i..], ff) == 0
  {
    if i < |ps| { assert ps[i..][1..] == ps[i + 1..]; }
  }

  function After(i: nat): nat { i + 1 }

  lemma BytesUpTo(ps: seq<Part>, i: nat)
    requires i < |ps|
    ensures |Bytes(ps[..i + 1])| == |Bytes(ps[..i])| + |ps[i].bytes|
  {
    assert ps[..i + 1] == ps[..i] + [ps[i]];
    BytesConcat(ps[..i], [ps[i]]);
    assert Bytes([ps[i]]) == ps[i].bytes + Bytes([]);
  }

  lemma NoParts()
    ensures AllSound([]) && Parts([]) == [] && Bytes([]) == []
  {
  }

  /** The bytes of the vector a driver would look at next. */
  function CurBytes(b: Bio): nat {
    if b.idx < |b.vecs| then b.vecs[b.idx].len else b.size
  }

  /** The length of a request is never below its current vector. */
  lemma HeadPart(bs: seq<Bio>)
    requires AllSound(bs) && bs != []
    ensures CurBytes(bs[0]) <= |Bytes(Parts(bs))| && Parts(bs)[0].ff == bs[0].ff
  {
    var b := bs[0];
    assert Sound(b);
    assert Parts(bs)[0] == ToPart(b);
    assert |Bytes(Parts(bs))| >= b.size;
    if b.idx < |b.vecs| { assert b.vecs[b.idx..][0] == b.vecs[b.idx]; }
  }

  /** Advancing the bio in place is advancing its bytes. */
  lemma TrimmedBio(bs: seq<Bio>, error: int, done: nat, nr: nat, next: nat)
    requires AllSound(bs) && bs != [] && 0 < done < bs[0].size && nr <= done && Mid(bs[0], next, done - nr)
    requires bs[0].idx + next < |bs[0].vecs| && nr <= bs[0].vecs[bs[0].idx + next].len
    ensures var b := bs[0];
            var at := b.idx + next;
            var b' := b.(size := b.size - done, uptodate := b.uptodate && error == 0, idx := at,
                         vecs := b.vecs[at := Trim(b.vecs[at], nr)]);
            && AllSound([b'] + bs[1..])
            && Parts([b'] + bs[1..]) == [Advance(ToPart(b), error, done)] + Parts(bs[1..])
  {
    hide Live;
    var b := bs[0];
    assert Sound(b);
    TrimDrops(b, next, done - nr, nr);
    var at := b.idx + next;
    var b' := b.(size := b.size - done, uptodate := b.uptodate && error == 0, idx := at,
                 vecs := b.vecs[at := Trim(b.vecs[at], nr)]);
    assert Sound(b');
    PartsReplace(bs, b');
  }

  class Request {
    var bios: seq<Bio>
    var len: nat
    var sector: nat
    var addressed: bool
    var mixed: bool
    var ff: set<Failfast>
    var log: seq<Ending>

    ghost predicate Valid()
      reads this
    {
      AllSound(bios) && len == |Bytes(Parts(bios))|
    }

    ghost function View(): Req
      requires AllSound(bios)
      reads this
    {
      Req(Parts(bios), len, sector, addressed, mixed, ff, log)
    }

    /** `req_bio_endio`: take the bytes off the bio; when none are left, tell its owner. */
    method EndBio(b: Bio, bytes: nat, error: int) returns (b': Bio)
      modifies this`log
      ensures var n := if bytes > b.size then b.size else bytes;
              && b' == b.(size := b.size - n, uptodate := b.uptodate && error == 0)
              && log == old(log)
                     + (if n == b.size then [Ending(b.id, Told(b, error))] else [])
    {
      b' := b;
      var e, n := error, bytes;
      if error != 0 {
        b' := b'.(uptodate := false);
      } else if !b.uptodate {
        e := -EIO;
      }
      if n > b.size {
        n := b.size;
      }
      b' := b'.(size := b.size - n);
      if b'.size == 0 {
        log := log + [Ending(b.id, e)];
      }
    }

    /** The loop: end every bio the bytes cover, then find the place in the next one. */
    method Consume(error: int, bytes: nat, ghost rest: seq<Part>, ghost final: seq<Ending>)
        returns (nr: nat, total: nat, done: nat, next: nat)
      requires AllSound(bios) && bios != [] && Toward(bios, bytes, log, error, rest, final)
      modifies this`bios, this`log
      ensures Stopped(bios, error, rest, nr, done, next) && log == final
      ensures bios != [] ==> total == bytes
    {
      hide Told, Drop, Ended, Parts, Mid, Sound, AllSound, Toward, Stopped, ToPart, Live;
      nr, total, done, next := bytes, 0, 0, 0;
      MidStart(bios);
      while bios != []
        invariant AllSound(bios) && Toward(bios, nr + done, log, error, rest, final) && total + nr == bytes
        invariant next == 0 ==> done == 0
        invariant bios != [] ==> Mid(bios[0], next, done)
        invariant next > 0 ==> bios != [] && nr + done < bios[0].size
        decreases |bios|, if bios == [] then 0 else |bios[0].vecs| - next
      {
        var b := bios[0];
        var n;
        if nr >= b.size {
          TowardEnd(bios, nr, log, error, rest, final);
          bios := bios[1..];
          n := b.size;
          var _ := EndBio(b, n, error);
          next, done := 0, 0;
          if bios != [] { MidStart(bios); }
        } else {
          var i := b.idx + next;
          HeadSound(bios);
          MidStep(b, next, done);
          if i >= |b.vecs| {
            break;
          }
          n := b.vecs[i].len;
          if n > nr {
            StopInside(bios, nr + done, log, error, rest, final, nr, next);
            done := done + nr;
            total := total + nr;
            break;
          }
          next := next + 1;
          done := done + n;
          if nr == n { StopInside(bios, done, log, error, rest, final, 0, next); }
        }
        total := total + n;
        nr := nr - n;
        if bios != [] && nr == 0 {
          assert Stopped(bios, error, rest, nr, done, next);
          break;
        }
      }
      if bios == [] { StopAtEnd(bios, log, error, rest, final, nr); }
    }

    /** `blk_update_request`: the bytes reported done are taken off the front of the request. */
    method Update(error: int, bytes: nat) returns (more: bool)
      requires Valid()
      modifies this
      ensures Valid() && View() == Completion.Update(old(View()), error, bytes)
      ensures more <==> bios != []
    {
      hide Drop, Ended, Parts, Bytes, Mid, Toward, Live;
      if bios == [] {
        return false;
      }
      ghost var ps := Parts(bios);
      ghost var rest := Drop(ps, error, bytes);
      ghost var final := log + Ended(ps, error, bytes);
      TowardStart(bios, bytes, log, error);
      var nr, total, done, next := Consume(error, bytes, rest, final);
      if bios == [] {
        len := 0;
        NoParts();
        return false;
      }
      if done > 0 {
        var b := EndBio(bios[0], done, error);
        var at := b.idx + next;
        TrimmedBio(bios, error, done, nr, next);
        b := b.(idx := at, vecs := b.vecs[at := Trim(b.vecs[at], nr)]);
        bios := [b] + bios[1..];
      }
      assert AllSound(bios) && Parts(bios) == rest;
      DropWithin(ps, error, bytes);
      DropBytes(ps, error, bytes);
      len := len - total;
      if addressed {
        sector := sector + total / 512;
      }
      HeadPart(bios);
      if mixed {
        ff := bios[0].ff;
      }
      assert CurBytes(bios[0]) <= len;
      return true;
    }

    /** `blk_rq_err_bytes`: how many bytes from the front may fail together. */
    method ErrBytes() returns (bytes: nat)
      requires Valid() && Kept(View())
      ensures bytes == Completion.ErrBytes(View())
      ensures len > 0 ==> bytes <= len && (bytes > 0 <==> !mixed || EagerData(View()))
      ensures len > 0 && Completion.Inv(View()) ==> bytes > 0
    {
      hide Completion.Inv, Kept, EagerData, Bytes, Live;
      if len > 0 { ErrBytesPositive(View()); }
      if !mixed {
        return len;
      }
      bytes := 0;
      var i := 0;
      ghost var ps := Parts(bios);
      EagerFrom(ps, ff, 0);
      while i < |bios|
        invariant 0 <= i <= |bios| && i <= Eager(ps, ff)
        invariant bytes == |Bytes(ps[..i])| && Eager(ps, ff) == i + Eager(ps[i..], ff)
      {
        assert Sound(bios[i]);
        EagerFrom(ps, ff, i);
        if !(ff <= bios[i].ff) {
          break;
        }
        bytes := bytes + bios[i].size;
        BytesUpTo(ps, i);
        i := i + 1;
      }
      assert i == |bios| ==> Eager(ps[i..], ff) == 0;
    }

    /** `blk_rq_set_mixed_merge`: give each bio the request's failfast bits. */
    method SetMixed()
      requires AllSound(bios)
      modifies this`bios, this`mixed
      ensures AllSound(bios) && View() == Completion.SetMixed(old(View()))
    {
      if mixed {
        return;
      }
      var i := 0;
      while i < |bios|
        invariant 0 <= i <= |bios| == |old(bios)|
        invariant forall j :: 0 <= j < i ==> bios[j] == old(bios)[j].(ff := old(bios)[j].ff + ff)
        invariant forall j :: i <= j < |bios| ==> bios[j] == old(bios)[j]
      {
        bios := bios[i := bios[i].(ff := bios[i].ff + ff)];
        i := i + 1;
      }
      mixed := true;
      assert Parts(bios) == Spread(old(Parts(bios)), ff);
    }

    /** A bio joins at the back (the second merge case is at the front). */
    method BackMergeBio(b: Bio)
      requires AllSound(bios) && Sound(b)
      modifies this`bios, this`mixed, this`len
      ensures AllSound(bios) && View() == Completion.BackMerge(old(View()), ToPart(b))
    {
      if ff != b.ff {
        SetMixed();
      }
      hide Spread, Live;
      ghost var ps := Parts(bios);
      bios := bios + [b];
      len := len + b.size;
      assert Parts(bios) == ps + [ToPart(b)];
    }

    method FrontMergeBio(b: Bio, start: nat)
      requires AllSound(bios) && Sound(b)
      modifies this`bios, this`mixed, this`len, this`ff, this`sector
      ensures AllSound(bios) && View() == Completion.FrontMerge(old(View()), ToPart(b), start)
    {
      if ff != b.ff {
        SetMixed();
        ff := b.ff;
      }
      hide Spread, Live;
      ghost var ps := Parts(bios);
      bios := [b] + bios;
      sector := start;
      len := len + b.size;
      assert Parts(bios) == [ToPart(b)] + ps;
    }

    /** The failfast and bio-chain part of `attempt_merge`. */
    method Absorb(next: Request)
      requires next != this && AllSound(bios) && AllSound(next.bios)
      modifies this, next
      ensures AllSound(bios) && View() == Completion.MergeWith(old(View()), old(next.View()))
      ensures next.bios == []
    {
      if mixed || next.mixed || ff != next.ff {
        SetMixed();
        next.SetMixed();
      }
      hide Spread, Live;
      ghost var ps, qs := Parts(bios), Parts(next.bios);
      bios := bios + next.bios;
      len := len + next.len;
      assert Parts(bios) == ps + qs;
      next.bios := [];
    }

    /** Failing a request over and over comes to an end, and tells every bio about the error. */
    method FailAll(error: int)
      requires Valid() && Completion.Inv(View()) && error != 0
      modifies this
      ensures Valid() && len == 0
      ensures old(len) > 0 ==> bios == [] && log == old(log) + Failures(old(Parts(bios)), error)
    {
      hide Completion.Inv, Kept, EagerData, Completion.Update, Completion.ErrBytes, Bytes, Live, Parts, Failures;
      ghost var goal := log + Failures(Parts(bios), error);
      while len > 0
        invariant Valid() && Completion.Inv(View())
        invariant old(len) > 0 ==> log + Failures(Parts(bios), error) == goal
        invariant len == 0 && old(len) > 0 ==> bios == []
        decreases len
      {
        InvLen(View());
        var n := ErrBytes();
        FailLog(View(), error);
        UpdateInv(View(), error, n);
        NoneLeft(View(), error, n);
        var _ := Update(error, n);
      }
      if old(len) > 0 { NoFailures(error); }
    }
  }
}
