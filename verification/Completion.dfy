/** Completing requests part by part, and failing fast.

    A request carries a chain of bios; a driver reports how many bytes from the front are done.
    The specification sees each bio as the bytes it still has to transfer. */
module Completion {

  datatype Byte = Byte(page: nat, offset: nat)

  datatype Failfast = Dev | Transport | Driver

  /** One bio: its identity, the bytes left, whether it is still error free, its failfast bits. */
  datatype Part = Part(id: nat, bytes: seq<Byte>, uptodate: bool, ff: set<Failfast>)

  /** What a finished bio is told. */
  datatype Ending = Ending(id: nat, error: int)

  const EIO := 5

  // ---------------------------------------------------------------- the bytes of a chain

  function Bytes(bs: seq<Part>): seq<Byte> {
    if bs == [] then [] else bs[0].bytes + Bytes(bs[1..])
  }

  lemma {:induction false} BytesConcat(a: seq<Part>, b: seq<Part>)
    ensures Bytes(a + b) == Bytes(a) + Bytes(b)
  {
    if a == [] {
      assert a + b == b;
    } else {
      var rest := a[1..];
      BytesConcat(rest, b);
      assert (a + b)[1..] == rest + b && (a + b)[0] == a[0];
      Join3(a[0].bytes, Bytes(rest), Bytes(b));
    }
  }

  lemma Join3(x: seq<Byte>, y: seq<Byte>, z: seq<Byte>)
    ensures x + (y + z) == x + y + z
  {
  }

  // ---------------------------------------------------------------- one completion

  /** A bio some of whose bytes are done. */
  function Advance(p: Part, error: int, n: nat): Part
    requires n <= |p.bytes|
  {
    p.(bytes := p.bytes[n..], uptodate := p.uptodate && error == 0)
  }

  /** What the owner of a finished bio is told: the error of this completion, or that an earlier one
      failed. */
  function Verdict(p: Part, error: int): int {
    if error != 0 then error else if !p.uptodate then -EIO else 0
  }

  /** The chain once the first `n` bytes are reported done.  Having used up all bytes exactly at the
      end of a bio, the code stops without looking at the next one. */
  function Drop(bs: seq<Part>, error: int, n: nat): seq<Part> {
    if bs == [] then []
    else if n < |bs[0].bytes| then (if n == 0 then bs else [Advance(bs[0], error, n)] + bs[1..])
    else if n == |bs[0].bytes| && |bs| > 1 then bs[1..]
    else Drop(bs[1..], error, n - |bs[0].bytes|)
  }

  /** The bios that are ended on the way. */
  function Ended(bs: seq<Part>, error: int, n: nat): seq<Ending> {
    if bs == [] || n < |bs[0].bytes| then []
    else
      var e := Ending(bs[0].id, Verdict(bs[0], error));
      if n == |bs[0].bytes| && |bs| > 1 then [e]
      else [e] + Ended(bs[1..], error, n - |bs[0].bytes|)
  }

  /** Exactly the first `n` bytes are gone. */
  lemma {:induction false} DropBytes(bs: seq<Part>, error: int, n: nat)
    ensures Bytes(Drop(bs, error, n)) == if n <= |Bytes(bs)| then Bytes(bs)[n..] else []
  {
    if bs == [] {
    } else {
      var b := bs[0].bytes;
      assert Bytes(bs) == b + Bytes(bs[1..]);
      if n < |b| {
        if n > 0 {
          var d := [Advance(bs[0], error, n)] + bs[1..];
          assert d[1..] == bs[1..];
        }
      } else if n == |b| && |bs| > 1 {
      } else {
        DropBytes(bs[1..], error, n - |b|);
      }
    }
  }

  lemma {:induction false} DropWithin(bs: seq<Part>, error: int, n: nat)
    requires Drop(bs, error, n) != []
    ensures n <= |Bytes(bs)|
  {
    if n >= |bs[0].bytes| && !(n == |bs[0].bytes| && |bs| > 1) {
      DropWithin(bs[1..], error, n - |bs[0].bytes|);
    }
  }

  /** The ended bios are a prefix of the chain, in order, each told what happened to it; the rest of
      the chain stays, only its first bio may have advanced. */
  lemma {:induction false} EndedInOrder(bs: seq<Part>, error: int, n: nat)
    ensures var k := |Ended(bs, error, n)|;
            && k <= |bs|
            && (forall i :: 0 <= i < k ==> Ended(bs, error, n)[i] == Ending(bs[i].id, Verdict(bs[i], error)))
            && |Drop(bs, error, n)| == |bs| - k
            && (k < |bs| ==>
                  && Drop(bs, error, n)[1..] == bs[k..][1..]
                  && Drop(bs, error, n)[0].id == bs[k].id && Drop(bs, error, n)[0].ff == bs[k].ff)
  {
    if bs == [] || n < |bs[0].bytes| {
      assert bs[0..] == bs;
    } else {
      var b, rest := bs[0].bytes, bs[1..];
      if n != |b| || |bs| == 1 {
        EndedInOrder(rest, error, n - |b|);
        var e := Ended(rest, error, n - |b|);
        assert Drop(bs, error, n) == Drop(rest, error, n - |b|);
        assert Ended(bs, error, n) == [Ending(bs[0].id, Verdict(bs[0], error))] + e;
        hide Drop, Ended;
        assert bs[|e| + 1..] == rest[|e|..];
        forall i | 0 <= i < |e| + 1 ensures Ended(bs, error, n)[i] == Ending(bs[i].id, Verdict(bs[i], error)) {
          if i > 0 { assert bs[i] == rest[i - 1]; }
        }
      }
    }
  }

  /** They are wholly covered by the `n` bytes, and the first bio left is not, unless it is empty. */
  lemma {:induction false} EndedCovered(bs: seq<Part>, error: int, n: nat)
    ensures var k := |Ended(bs, error, n)|;
            && k <= |bs| && |Bytes(bs[..k])| <= n
            && (k < |bs| ==> n < |Bytes(bs[..k])| + |bs[k].bytes| || bs[k].bytes == [])
  {
    if bs == [] || n < |bs[0].bytes| {
      assert bs[..0] == [];
    } else {
      var b := bs[0].bytes;
      if n == |b| && |bs| > 1 {
        assert bs[..1] == [bs[0]] && Bytes([bs[0]]) == b + Bytes([]);
      } else {
        EndedCovered(bs[1..], error, n - |b|);
        var k := |Ended(bs[1..], error, n - |b|)|;
        assert bs[..k + 1][1..] == bs[1..][..k];
      }
    }
  }

  // ---------------------------------------------------------------- splitting a completion

  /** No bio but the first may be empty.  (Empty bios carry barriers, which are never merged.) */
  ghost predicate NoEmptyTail(bs: seq<Part>) {
    forall i :: 0 < i < |bs| ==> bs[i].bytes != []
  }

  ghost predicate SplitLaw(bs: seq<Part>, error: int, a: nat, b: nat) {
    && Drop(Drop(bs, error, a), error, b) == Drop(bs, error, a + b)
    && Ended(bs, error, a) + Ended(Drop(bs, error, a), error, b) == Ended(bs, error, a + b)
  }

  lemma {:induction false} Split(bs: seq<Part>, error: int, a: nat, b: nat)
    requires NoEmptyTail(bs)
    ensures SplitLaw(bs, error, a, b)
  {
    if bs == [] {
    } else {
      var s := bs[0].bytes;
      if a < |s| {
        if a > 0 {
          var p := Advance(bs[0], error, a);
          var d := [p] + bs[1..];
          assert d[1..] == bs[1..];
          assert Verdict(p, error) == Verdict(bs[0], error);
          if a + b < |s| && b > 0 {
            assert Advance(p, error, b).bytes == Advance(bs[0], error, a + b).bytes;
          }
        }
      } else if a == |s| && |bs| > 1 {
        assert bs[1].bytes != [];
      } else {
        Split(bs[1..], error, a - |s|, b);
        assert Ended(bs, error, a) == [Ending(bs[0].id, Verdict(bs[0], error))] + Ended(bs[1..], error, a - |s|);
      }
    }
  }

  /** Where an empty bio follows, reporting no more bytes still ends it. */
  lemma {:induction false} DropTo(bs: seq<Part>, error: int, i: nat)
    requires 0 < i < |bs| && (forall j :: 0 < j < i ==> bs[j].bytes != [])
    ensures Drop(bs, error, |Bytes(bs[..i])|) == bs[i..]
  {
    assert bs[..i][0] == bs[0] && bs[..i][1..] == bs[1..][..i - 1];
    if i == 1 {
      assert bs[1..][..0] == [];
    } else {
      var rest := bs[1..];
      assert forall j :: 0 < j < i - 1 ==> rest[j] == bs[j + 1];
      DropTo(rest, error, i - 1);
      assert rest[i - 1..] == bs[i..];
      assert rest[..i - 1][0] == bs[1];
    }
  }

  /** Reporting the parts of a completion one by one is the same as reporting them together, for
      every way to split it, exactly when only the first bio can be empty. */
  lemma SplitExactly(bs: seq<Part>, error: int)
    ensures (forall a: nat, b: nat :: SplitLaw(bs, error, a, b)) <==> NoEmptyTail(bs)
  {
    if NoEmptyTail(bs) {
      forall a: nat, b: nat ensures SplitLaw(bs, error, a, b) { Split(bs, error, a, b); }
    } else {
      var i := FirstEmpty(bs);
      DropTo(bs, error, i);
      var a := |Bytes(bs[..i])|;
      EndedInOrder(bs[i..], error, 0);
      assert |Drop(bs[i..], error, 0)| < |bs[i..]|;
      assert !SplitLaw(bs, error, a, 0);
    }
  }

  lemma FirstEmpty(bs: seq<Part>) returns (i: nat)
    requires !NoEmptyTail(bs)
    ensures 0 < i < |bs| && bs[i].bytes == [] && (forall j :: 0 < j < i ==> bs[j].bytes != [])
  {
    i := 1;
    while bs[i].bytes != []
      invariant 0 < i < |bs| && (forall j :: 0 < j < i ==> bs[j].bytes != [])
      decreases |bs| - i
    {
      i := i + 1;
      assert i < |bs|;
    }
  }

  lemma {:induction false} LastBytes(bs: seq<Part>)
    requires bs != []
    ensures |bs[|bs| - 1].bytes| <= |Bytes(bs)|
  {
    if |bs| > 1 { LastBytes(bs[1..]); }
  }

  /** When a completion finishes the chain.  More bytes than there are always do; reporting exactly
      all bytes does so unless a bio without data is left at the end of several. */
  lemma {:induction false} DropFinishes(bs: seq<Part>, error: int, n: nat)
    requires bs != []
    ensures Drop(bs, error, n) == [] <==>
              n > |Bytes(bs)| || (n == |Bytes(bs)| && (|bs| == 1 || bs[|bs| - 1].bytes != []))
  {
    var b, rest := bs[0].bytes, bs[1..];
    assert Bytes(bs) == b + Bytes(rest);
    if |bs| > 1 {
      LastBytes(rest);
      if n > |b| { DropFinishes(rest, error, n - |b|); }
      if |rest| == 1 { assert Bytes(rest) == rest[0].bytes + Bytes(rest[1..]); }
    }
  }

  // ---------------------------------------------------------------- requests and failing fast

  /** `len` is `__data_len`; `mixed` says the bios carry their own failfast bits. */
  datatype Req = Req(bios: seq<Part>, len: nat, sector: nat, addressed: bool, mixed: bool, ff: set<Failfast>,
                     log: seq<Ending>)

  /** A fresh request: read-ahead may always fail fast. */
  function FromBio(p: Part, sector: nat, ahead: bool): Req {
    Req([p], |p.bytes|, sector, true, false, if ahead then {Dev, Transport, Driver} else p.ff, [])
  }

  function Spread(bs: seq<Part>, ff: set<Failfast>): seq<Part> {
    seq(|bs|, i requires 0 <= i < |bs| => bs[i].(ff := bs[i].ff + ff))
  }

  function SetMixed(r: Req): Req {
    if r.mixed then r else r.(mixed := true, bios := Spread(r.bios, r.ff))
  }

  function BackMerge(r: Req, p: Part): Req {
    var r1 := if r.ff != p.ff then SetMixed(r) else r;
    r1.(bios := r1.bios + [p], len := r1.len + |p.bytes|)
  }

  function FrontMerge(r: Req, p: Part, sector: nat): Req {
    var r1 := if r.ff != p.ff then SetMixed(r).(ff := p.ff) else r;
    r1.(bios := [p] + r1.bios, len := r1.len + |p.bytes|, sector := sector)
  }

  function MergeWith(r: Req, next: Req): Req {
    var both := r.mixed || next.mixed || r.ff != next.ff;
    var r1 := if both then SetMixed(r) else r;
    var n1 := if both then SetMixed(next) else next;
    r1.(bios := r1.bios + n1.bios, len := r1.len + n1.len)
  }

  /** `blk_update_request`.  The sector moves only for requests that have one, and mixed failfast
      bits follow the first bio. */
  function Update(r: Req, error: int, n: nat): Req {
    if r.bios == [] then r
    else
      var rest := Drop(r.bios, error, n);
      var log := r.log + Ended(r.bios, error, n);
      if rest == [] then r.(bios := [], len := 0, log := log)
      else r.(bios := rest, log := log, len := |Bytes(rest)|,
              sector := if r.addressed then r.sector + n / 512 else r.sector,
              ff := if r.mixed then rest[0].ff else r.ff)
  }

  /** What every request keeps: the length is the bytes left, and the first bio of a mixed request
      may fail as fast as the request. */
  ghost predicate Kept(r: Req) {
    r.len == |Bytes(r.bios)| && (r.mixed && r.bios != [] ==> r.ff <= r.bios[0].ff)
  }

  /** A request in which only a lone bio may be without data. */
  ghost predicate Inv(r: Req) {
    Kept(r) && (|r.bios| > 1 ==> forall i :: 0 <= i < |r.bios| ==> r.bios[i].bytes != [])
  }

  lemma {:induction false} SpreadBytes(bs: seq<Part>, ff: set<Failfast>)
    ensures Bytes(Spread(bs, ff)) == Bytes(bs)
  {
    if bs != [] {
      SpreadBytes(bs[1..], ff);
      assert Spread(bs, ff)[1..] == Spread(bs[1..], ff);
    }
  }

  lemma SetMixedKept(r: Req)
    requires Kept(r)
    ensures Kept(SetMixed(r)) && Bytes(SetMixed(r).bios) == Bytes(r.bios)
    ensures Inv(r) ==> Inv(SetMixed(r))
  {
    SpreadBytes(r.bios, r.ff);
  }

  lemma Lone(r: Req)
    requires Inv(r) && r.len > 0
    ensures r.bios != [] && forall i :: 0 <= i < |r.bios| ==> r.bios[i].bytes != []
  {
    if |r.bios| == 1 { assert Bytes(r.bios) == r.bios[0].bytes + Bytes(r.bios[1..]); }
  }

  lemma BackMergeInv(r: Req, p: Part)
    requires Kept(r) && r.bios != []
    ensures Kept(BackMerge(r, p)) && Bytes(BackMerge(r, p).bios) == Bytes(r.bios) + p.bytes
    ensures Inv(r) && p.bytes != [] && r.len > 0 ==> Inv(BackMerge(r, p))
  {
    SetMixedKept(r);
    if Inv(r) && r.len > 0 { Lone(r); }
    var r1 := if r.ff != p.ff then SetMixed(r) else r;
    BytesConcat(r1.bios, [p]);
    assert Bytes([p]) == p.bytes + Bytes([]);
  }

  lemma FrontMergeInv(r: Req, p: Part, sector: nat)
    requires Kept(r)
    ensures Kept(FrontMerge(r, p, sector)) && Bytes(FrontMerge(r, p, sector).bios) == p.bytes + Bytes(r.bios)
    ensures Inv(r) && p.bytes != [] && r.len > 0 ==> Inv(FrontMerge(r, p, sector))
  {
    SetMixedKept(r);
    if Inv(r) && r.len > 0 { Lone(r); }
    var r1 := if r.ff != p.ff then SetMixed(r) else r;
    assert ([p] + r1.bios)[1..] == r1.bios;
  }

  lemma MergeWithInv(r: Req, next: Req)
    requires Kept(r) && Kept(next) && r.bios != []
    ensures Kept(MergeWith(r, next)) && Bytes(MergeWith(r, next).bios) == Bytes(r.bios) + Bytes(next.bios)
    ensures Inv(r) && Inv(next) && r.len > 0 && next.len > 0 ==> Inv(MergeWith(r, next))
  {
    SetMixedKept(r);
    SetMixedKept(next);
    if Inv(r) && r.len > 0 { Lone(r); }
    if Inv(next) && next.len > 0 { Lone(next); }
    var both := r.mixed || next.mixed || r.ff != next.ff;
    BytesConcat(if both then SetMixed(r).bios else r.bios, if both then SetMixed(next).bios else next.bios);
  }

  lemma UpdateInv(r: Req, error: int, n: nat)
    requires Kept(r)
    ensures Kept(Update(r, error, n)) && (Inv(r) ==> Inv(Update(r, error, n)))
  {
    DropBytes(r.bios, error, n);
    EndedInOrder(r.bios, error, n);
    EndedCovered(r.bios, error, n);
    var rest := Drop(r.bios, error, n);
    var k := |Ended(r.bios, error, n)|;
    if |rest| > 1 && Inv(r) {
      forall i | 0 <= i < |rest| ensures rest[i].bytes != [] {
        if i > 0 {
          assert rest[i] == rest[1..][i - 1] == r.bios[k..][1..][i - 1] == r.bios[k + i];
        } else {
          DropHead(r.bios, error, n);
        }
      }
    }
  }

  /** The first bio left has bytes left if it had any. */
  lemma {:induction false} DropHead(bs: seq<Part>, error: int, n: nat)
    requires Drop(bs, error, n) != [] && forall i :: 0 <= i < |bs| ==> bs[i].bytes != []
    ensures Drop(bs, error, n)[0].bytes != []
  {
    if n >= |bs[0].bytes| && !(n == |bs[0].bytes| && |bs| > 1) {
      DropHead(bs[1..], error, n - |bs[0].bytes|);
    }
  }

  /** Completing `a` bytes and then `b` is completing `a + b`: the same bios are told the same, the
      same bytes are left, and the failfast bits agree.  The start sector agrees exactly when the
      two remainders do not add up to a sector. */
  ghost predicate SplitSame(r: Req, error: int, a: nat, b: nat) {
    var one := Update(r, error, a + b);
    var two := Update(Update(r, error, a), error, b);
    && two.bios == one.bios && two.len == one.len && two.log == one.log && two.mixed == one.mixed
    && (one.bios != [] ==>
          two.ff == one.ff && (two.sector == one.sector <==> !r.addressed || a % 512 + b % 512 < 512))
  }

  /** So for every way to split, exactly when no bio but the first is without data. */
  lemma RequestSplit(r: Req, error: int)
    ensures (forall a: nat, b: nat :: SplitSame(r, error, a, b)) <==> NoEmptyTail(r.bios)
  {
    hide Drop, Ended, Bytes, SplitLaw, SplitSame, NoEmptyTail;
    SplitExactly(r.bios, error);
    if NoEmptyTail(r.bios) {
      forall a: nat, b: nat ensures SplitSame(r, error, a, b) {
        assert SplitLaw(r.bios, error, a, b);
        SplitRequest(r, error, a, b);
      }
    } else {
      var a: nat, b: nat :| !SplitLaw(r.bios, error, a, b);
      SplitRequest(r, error, a, b);
    }
  }

  lemma SplitRequest(r: Req, error: int, a: nat, b: nat)
    ensures SplitSame(r, error, a, b) <==> SplitLaw(r.bios, error, a, b)
  {
    hide Drop, Ended, Bytes;
    DropNothing(error, a);
    DropNothing(error, b);
    DropNothing(error, a + b);
    var first := Update(r, error, a);
    assert first.bios == Drop(r.bios, error, a);
    var e1, e2, e := Ended(r.bios, error, a), Ended(first.bios, error, b), Ended(r.bios, error, a + b);
    assert r.log + e1 + e2 == r.log + (e1 + e2);
    assert (r.log + (e1 + e2))[|r.log|..] == e1 + e2 && (r.log + e)[|r.log|..] == e;
    SectorsAdd(a, b);
  }

  lemma DropNothing(error: int, n: nat)
    ensures Drop([], error, n) == [] && Ended([], error, n) == []
  {
  }

  lemma SectorsAdd(a: nat, b: nat)
    ensures a / 512 + b / 512 == (a + b) / 512 <==> a % 512 + b % 512 < 512
  {
  }

  /** When a request has nothing left.  The promise that reporting all its bytes finishes it is met
      exactly when no bio without data ends a chain of several. */
  lemma UpdateFinishes(r: Req, error: int, n: nat)
    requires Kept(r) && r.bios != []
    ensures Update(r, error, n).bios == [] <==>
              n > r.len || (n == r.len && (|r.bios| == 1 || r.bios[|r.bios| - 1].bytes != []))
    ensures Bytes(Update(r, error, n).bios) == if n <= r.len then Bytes(r.bios)[n..] else []
  {
    DropFinishes(r.bios, error, n);
    DropBytes(r.bios, error, n);
  }

  /** A bio without data merged behind one with data stays when all bytes are reported. */
  lemma EmptyTailStays(p: Part, e: Part, sector: nat, ahead: bool, error: int)
    requires p.bytes != [] && e.bytes == []
    ensures var r := BackMerge(FromBio(p, sector, ahead), e);
            Update(r, error, r.len).bios != []
  {
    var r0 := FromBio(p, sector, ahead);
    assert Bytes([p]) == p.bytes + Bytes([]);
    BackMergeInv(r0, e);
    UpdateFinishes(BackMerge(r0, e), error, BackMerge(r0, e).len);
  }

  // ---------------------------------------------------------------- every history

  datatype Event =
    | Back(p: Part)
    | Front(p: Part, sector: nat)
    | Absorb(next: History)
    | Done(error: int, n: nat)

  /** How a request came to be: a first bio, then merges (of bios and of whole requests) and partial
      completions. */
  datatype History = First(p: Part, sector: nat, ahead: bool) | Then(before: History, e: Event)

  /** A finished request takes no merges. */
  function Build(h: History): Req {
    match h
    case First(p, sector, ahead) => FromBio(p, sector, ahead)
    case Then(before, e) =>
      var r := Build(before);
      match e
      case Back(p) => if r.bios != [] then BackMerge(r, p) else r
      case Front(p, sector) => if r.bios != [] then FrontMerge(r, p, sector) else r
      case Absorb(next) => if r.bios != [] && Build(next).bios != [] then MergeWith(r, Build(next)) else r
      case Done(error, n) => Update(r, error, n)
  }

  /** Only what carries data is merged. */
  ghost predicate Full(h: History) {
    h.Then? ==>
      && Full(h.before)
      && (!h.e.Done? ==> Build(h.before).len > 0)
      && (h.e.Back? || h.e.Front? ==> h.e.p.bytes != [])
      && (h.e.Absorb? ==> Full(h.e.next) && Build(h.e.next).len > 0)
  }

  lemma {:induction false} BuildInv(h: History)
    ensures Kept(Build(h)) && (Full(h) ==> Inv(Build(h)))
  {
    match h
    case First(p, sector, ahead) =>
      assert Bytes([p]) == p.bytes + Bytes([]);
    case Then(before, e) =>
      BuildInv(before);
      var r := Build(before);
      match e {
        case Back(p) => if r.bios != [] { BackMergeInv(r, p); }
        case Front(p, sector) => if r.bios != [] { FrontMergeInv(r, p, sector); }
        case Absorb(next) =>
          BuildInv(next);
          if r.bios != [] { MergeWithInv(r, Build(next)); }
        case Done(error, n) => UpdateInv(r, error, n);
      }
  }

  // ---------------------------------------------------------------- how much to fail

  /** How many bios from the front are at least as eager to fail as the request. */
  function Eager(bs: seq<Part>, ff: set<Failfast>): (k: nat)
    ensures k <= |bs|
  {
    if bs == [] || !(ff <= bs[0].ff) then 0 else 1 + Eager(bs[1..], ff)
  }

  /** `blk_rq_err_bytes`. */
  function ErrBytes(r: Req): nat {
    if !r.mixed then r.len else |Bytes(r.bios[..Eager(r.bios, r.ff)])|
  }

  lemma {:induction false} EagerPrefix(bs: seq<Part>, ff: set<Failfast>)
    ensures forall i :: 0 <= i < Eager(bs, ff) ==> ff <= bs[i].ff
    ensures Eager(bs, ff) < |bs| ==> !(ff <= bs[Eager(bs, ff)].ff)
  {
    if bs != [] && ff <= bs[0].ff {
      EagerPrefix(bs[1..], ff);
    }
  }

  /** Some bio with data, and all bios in front of it, are as eager to fail as the request. */
  ghost predicate EagerData(r: Req) {
    exists i :: 0 <= i < |r.bios| && r.bios[i].bytes != [] && forall j :: 0 <= j <= i ==> r.ff <= r.bios[j].ff
  }

  lemma {:induction false} SomeBytes(bs: seq<Part>)
    ensures Bytes(bs) != [] <==> exists i :: 0 <= i < |bs| && bs[i].bytes != []
  {
    if bs != [] {
      SomeBytes(bs[1..]);
      if i :| 0 <= i < |bs| && bs[i].bytes != [] { assert i == 0 || bs[1..][i - 1] == bs[i]; }
    }
  }

  /** While bytes remain there is something to fail, so the assertion in `blk_rq_err_bytes` holds,
      exactly when nothing less eager comes before the first data; so always when all bios carry
      data. */
  lemma ErrBytesPositive(r: Req)
    requires Kept(r) && r.len > 0
    ensures ErrBytes(r) <= r.len
    ensures ErrBytes(r) > 0 <==> !r.mixed || EagerData(r)
    ensures Inv(r) ==> ErrBytes(r) > 0
  {
    if r.mixed {
      var k := Eager(r.bios, r.ff);
      assert r.bios == r.bios[..k] + r.bios[k..];
      BytesConcat(r.bios[..k], r.bios[k..]);
      SomeBytes(r.bios[..k]);
      EagerPrefix(r.bios, r.ff);
      if i :| 0 <= i < k && r.bios[..k][i].bytes != [] { assert EagerData(r); }
      if EagerData(r) {
        var i :| 0 <= i < |r.bios| && r.bios[i].bytes != [] && forall j :: 0 <= j <= i ==> r.ff <= r.bios[j].ff;
        assert r.bios[..k][i].bytes != [];
      }
      if Inv(r) {
        Lone(r);
        assert r.bios[0].bytes != [] && r.ff <= r.bios[0].ff;
      }
    }
  }

  /** Failing that much ends the eager bios, whole, and touches nothing else. */
  lemma FailsWholeBios(r: Req, error: int)
    requires Inv(r) && r.len > 0
    ensures var k := if r.mixed then Eager(r.bios, r.ff) else |r.bios|;
            && Update(r, error, ErrBytes(r)).bios == r.bios[k..]
            && 0 < k && (k < |r.bios| ==> !(r.ff <= r.bios[k].ff))
  {
    Lone(r);
    EagerPrefix(r.bios, r.ff);
    var k := if r.mixed then Eager(r.bios, r.ff) else |r.bios|;
    assert r.bios[..|r.bios|] == r.bios;
    assert |Bytes(r.bios[..k])| == ErrBytes(r);
    if k < |r.bios| {
      DropTo(r.bios, error, k);
    } else {
      DropFinishes(r.bios, error, ErrBytes(r));
    }
  }

  /** What a failed chain reports: every bio in order. */
  function Failures(bs: seq<Part>, error: int): seq<Ending> {
    seq(|bs|, i requires 0 <= i < |bs| => Ending(bs[i].id, error))
  }

  lemma FailLog(r: Req, error: int)
    requires Inv(r) && r.len > 0 && error != 0
    ensures var r' := Update(r, error, ErrBytes(r));
            r'.log + Failures(r'.bios, error) == r.log + Failures(r.bios, error) && r'.len < r.len
  {
    hide Drop, Ended, Bytes, Eager, Failures, Inv, ErrBytes, Kept;
    var n := ErrBytes(r);
    InvLen(r);
    FailsWholeBios(r, error);
    ErrBytesPositive(r);
    UpdateFinishes(r, error, n);
    UpdateInv(r, error, n);
    InvLen(Update(r, error, n));
    EndedInOrder(r.bios, error, n);
    var k := if r.mixed then Eager(r.bios, r.ff) else |r.bios|;
    FailPrefix(r.bios, error, k, Ended(r.bios, error, n));
    assert r.log + (Ended(r.bios, error, n) + Failures(r.bios[k..], error))
        == r.log + Ended(r.bios, error, n) + Failures(r.bios[k..], error);
  }

  lemma InvLen(r: Req)
    requires Inv(r)
    ensures Kept(r) && r.len == |Bytes(r.bios)| && (r.len > 0 ==> r.bios != [])
  {
  }

  lemma FailPrefix(bs: seq<Part>, error: int, k: nat, ended: seq<Ending>)
    requires error != 0 && k <= |bs| && |ended| == k
    requires forall i :: 0 <= i < k ==> ended[i] == Ending(bs[i].id, Verdict(bs[i], error))
    ensures ended + Failures(bs[k..], error) == Failures(bs, error)
  {
    var f := ended + Failures(bs[k..], error);
    forall i | 0 <= i < |bs| ensures f[i] == Failures(bs, error)[i] {
      if i >= k { assert bs[k..][i - k] == bs[i]; }
    }
  }
}
