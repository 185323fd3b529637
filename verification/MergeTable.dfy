/** The merge hash as the elevator edits it in place. */
module MergeTable {
  import opened Lists
  import opened Options
  import opened MergeHash

  /** The nodes are on the lists they say. */
  ghost predicate Links(buckets: seq<seq<Id>>, linked: map<Id, nat>) {
    && (forall x :: x in linked ==> linked[x] < |buckets|)
    && (forall b, x :: 0 <= b < |buckets| ==> (x in buckets[b] <==> x in linked && linked[x] == b))
    && (forall b :: 0 <= b < |buckets| ==> Distinct(buckets[b]))
  }

  lemma UnhashAt(buckets: seq<seq<Id>>, x: Id, b: nat)
    requires b < |buckets| && Distinct(buckets[b])
    ensures var l := Unhash(buckets, x)[b];
            && Distinct(l) && (forall y :: y in l <==> y in buckets[b] && y != x)
            && l == Remove(buckets[b], x) && (x !in buckets[b] ==> l == buckets[b])
  {
    hide Remove;
    RemoveKeeps(buckets[b], x);
    if x !in buckets[b] { RemoveAbsent(buckets[b], x); }
  }

  lemma UnlinkLinks(buckets: seq<seq<Id>>, linked: map<Id, nat>, x: Id)
    requires Links(buckets, linked)
    ensures Links(Unhash(buckets, x), linked - {x})
  {
    hide Remove, Distinct;
    var bs, linked' := Unhash(buckets, x), linked - {x};
    assert |bs| == |buckets|;
    hide Unhash;
    forall b | 0 <= b < |bs| ensures Distinct(bs[b]) && forall y :: y in bs[b] <==> y in linked' && linked'[y] == b {
      UnhashAt(buckets, x, b);
    }
  }

  lemma UnlinkOk(buckets: seq<seq<Id>>, linked: map<Id, nat>, x: Id)
    requires Links(buckets, linked)
    ensures Links(Unhash(buckets, x), linked - {x})
    ensures x in linked ==>
              linked[x] < |buckets| && Unhash(buckets, x) == buckets[linked[x] := Remove(buckets[linked[x]], x)]
    ensures x !in linked ==> Unhash(buckets, x) == buckets && linked - {x} == linked
  {
    hide Remove, Distinct;
    UnlinkLinks(buckets, linked, x);
    forall b | 0 <= b < |buckets| && !(x in linked && linked[x] == b) ensures Unhash(buckets, x)[b] == buckets[b] {
      UnhashAt(buckets, x, b);
    }
  }

  lemma LinkOk(h: Hash, buckets: seq<seq<Id>>, linked: map<Id, nat>, x: Id, end: nat)
    requires Links(buckets, linked) && x !in linked && Bounded(h, |buckets|)
    ensures h(end) < |buckets| && Rehash(h, buckets, x, end) == buckets[h(end) := [x] + buckets[h(end)]]
    ensures Links(Rehash(h, buckets, x, end), linked[x := h(end)])
  {
    hide Distinct;
    PrependDistinct(x, buckets[h(end)]);
  }

  class Elevator {
    const h: Hash
    var rqs: map<Id, Rq>
    var buckets: array<seq<Id>>
    var linked: map<Id, nat>      // the list a request's hash node is on
    var last: Option<Id>

    ghost function View(): State
      reads this, buckets
    {
      State(rqs, buckets[..], last)
    }

    ghost predicate Linked()
      reads this, buckets
    {
      Links(buckets[..], linked) && Bounded(h, buckets.Length)
    }

    ghost predicate Valid()
      reads this, buckets
    {
      Linked() && Inv(h, View())
    }

    /** `elevator_alloc`: all lists are empty. */
    constructor (hash: Hash, entries: nat)
      requires Bounded(hash, entries)
      ensures Valid() && fresh(buckets) && h == hash && buckets.Length == entries && rqs == map[] && last == None
    {
      h, rqs, linked, last := hash, map[], map[], None;
      buckets := new seq<Id>[entries](_ => []);
    }

    /** `elv_rqhash_del`. */
    method RqhashDel(x: Id)
      requires Linked()
      modifies this`linked, buckets
      ensures Linked() && buckets[..] == Unhash(old(buckets[..]), x) && x !in linked
    {
      hide Links, Remove, Unhash;
      UnlinkOk(buckets[..], linked, x);
      if x in linked {
        var b := linked[x];
        buckets[b] := Remove(buckets[b], x);
      }
      linked := linked - {x};
    }

    /** `elv_rqhash_add`; the request must not be on the hash. */
    method RqhashAdd(x: Id)
      requires Linked() && x in rqs && x !in linked
      modifies this`linked, buckets
      ensures Linked() && buckets[..] == Rehash(h, old(buckets[..]), x, EndOf(rqs[x]))
    {
      hide Links, Rehash, Bounded;
      LinkOk(h, buckets[..], linked, x, EndOf(rqs[x]));
      var b := h(EndOf(rqs[x]));
      buckets[b] := [x] + buckets[b];
      linked := linked[x := b];
    }

    /** A request is inserted for sorting. */
    method InsertSort(x: Id, r: Rq)
      requires Valid() && x !in rqs
      modifies this, buckets
      ensures Valid() && buckets == old(buckets) && View() == Insert(h, old(View()), x, r)
    {
      hide Inv, Rehash, Links, Bounded;
      InsertInv(h, View(), x, r);
      NotLinked(h, View(), linked, x);
      rqs := rqs[x := r];
      if r.mergeable {
        RqhashAdd(x);
        if last.None? {
          last := Some(x);
        }
      }
    }

    /** A back merge of `k` sectors that brought no other request together with `x`. */
    method BackMerged(x: Id, k: nat)
      requires Valid() && x in rqs
      modifies this, buckets
      ensures Valid() && buckets == old(buckets) && View() == BackMerge(h, old(View()), x, k)
    {
      hide Inv, Rehash, Unhash, Links, Bounded;
      RepositionInv(h, View(), x, rqs[x].(len := rqs[x].len + k));
      rqs := rqs[x := rqs[x].(len := rqs[x].len + k)];
      RqhashDel(x);
      RqhashAdd(x);
      last := Some(x);
    }

    /** A front merge: only the one-hit entry changes besides the request. */
    method FrontMerged(x: Id, k: nat)
      requires Valid() && x in rqs && k <= rqs[x].start
      modifies this
      ensures Valid() && buckets == old(buckets) && View() == FrontMerge(old(View()), x, k)
    {
      hide Inv, Links, Bounded;
      FrontMergeInv(h, View(), x, k);
      rqs := rqs[x := rqs[x].(start := rqs[x].start - k, len := rqs[x].len + k)];
      last := Some(x);
    }

    /** `elv_merge_requests`. */
    method MergeRequests(r: Id, n: Id, k: nat)
      requires Valid() && r in rqs && n in rqs && r != n
      modifies this, buckets
      ensures Valid() && buckets == old(buckets) && View() == Absorb(h, old(View()), r, n, k)
    {
      hide Inv, Rehash, Unhash, Links, Bounded;
      AbsorbInv(h, View(), r, n, k);
      rqs := rqs[r := rqs[r].(len := rqs[r].len + k + rqs[n].len)];
      RqhashDel(r);
      RqhashAdd(r);
      RqhashDel(n);
      rqs := rqs - {n};
      last := Some(r);
    }

    /** The hash part of `elv_dispatch_sort` and `elv_dispatch_add_tail`. */
    method DispatchRequest(x: Id)
      requires Valid() && x in rqs
      modifies this, buckets
      ensures Valid() && buckets == old(buckets) && View() == Dispatch(old(View()), x)
    {
      hide Inv, Unhash, Links, Bounded;
      HashLast(h, View());
      DropInv(h, View(), x, if last == Some(x) then None else last);
      if last == Some(x) {
        last := None;
      }
      RqhashDel(x);
      rqs := rqs - {x};
    }

    /** `__elv_rqhash_del` of the entry at position `i` of list `b`. */
    method Unlink(b: nat, i: nat)
      requires Linked() && b < buckets.Length && i < |buckets[b]|
      modifies this`linked, buckets
      ensures Linked()
      ensures var l := old(buckets[b]); buckets[..] == old(buckets[..])[b := l[..i] + l[i + 1..]]
    {
      hide Links, Bounded;
      UnlinkAt(buckets[..], linked, b, i);
      var l := buckets[b];
      buckets[b] := l[..i] + l[i + 1..];
      linked := linked - {l[i]};
    }

    /** `elv_rqhash_find`: walk the list, unlinking what takes no merges. */
    method RqhashFind(sector: nat) returns (found: Option<Id>)
      requires Valid()
      modifies this`linked, buckets
      ensures Valid() && found == Find(h, old(View()), sector).0 && View() == Find(h, old(View()), sector).1
    {
      FindInv(h, View(), sector);
      hide Inv, Links, Walk, Bounded;
      ghost var s := View();
      var b := h(sector);
      found := WalkList(b, sector);
      assert View() == Find(h, s, sector).1;
    }

    /** The walk over list `b`. */
    method WalkList(b: nat, sector: nat) returns (found: Option<Id>)
      requires Linked() && b < buckets.Length
      modifies this`linked, buckets
      ensures Linked() && buckets[..] == old(buckets[..])[b := buckets[b]]
      ensures Walk(rqs, old(buckets[b]), sector) == (found, buckets[b])
    {
      hide EndOf, Links, Walk, Onward, Bounded;
      ghost var list0, all := buckets[b], buckets[..];
      OnwardStart(rqs, list0, sector);
      found := None;
      var i := 0;
      while i < |buckets[b]|
        invariant Linked() && i <= |buckets[b]|
        invariant buckets[..] == all[b := buckets[b]]
        invariant Onward(rqs, list0, buckets[b], i, sector)
        decreases |buckets[b]| - i
      {
        var x := buckets[b][i];
        OnwardStep(rqs, list0, buckets[b], i, sector);
        if x !in rqs || !rqs[x].mergeable {
          Unlink(b, i);
        } else if EndOf(rqs[x]) == sector {
          found := Some(x);
          return;
        } else {
          i := i + 1;
        }
      }
      OnwardEnd(rqs, list0, buckets[b], i, sector);
    }
  }

  lemma FindInv(h: Hash, s: State, sector: nat)
    requires Inv(h, s)
    ensures h(sector) < |s.buckets| && Inv(h, Find(h, s, sector).1)
    ensures Find(h, s, sector).1.rqs == s.rqs && Find(h, s, sector).1.last == s.last
  {
    FindIsScan(h, s, sector);
  }

  /** The part of the list from `i` on is still to be walked. */
  ghost predicate Onward(rqs: map<Id, Rq>, list0: seq<Id>, l: seq<Id>, i: nat, sector: nat) {
    && i <= |l|
    && Walk(rqs, list0, sector) == (Walk(rqs, l[i..], sector).0, l[..i] + Walk(rqs, l[i..], sector).1)
  }

  lemma OnwardStep(rqs: map<Id, Rq>, list0: seq<Id>, l: seq<Id>, i: nat, sector: nat)
    requires Onward(rqs, list0, l, i, sector) && i < |l|
    ensures var x := l[i];
            if x !in rqs || !rqs[x].mergeable then Onward(rqs, list0, l[..i] + l[i + 1..], i, sector)
            else if EndOf(rqs[x]) == sector then Walk(rqs, list0, sector) == (Some(x), l)
            else Onward(rqs, list0, l, i + 1, sector)
  {
    hide Walk, EndOf;
    WalkUnfold(rqs, l, i, sector);
    assert l == l[..i] + l[i..];
  }

  lemma OnwardStart(rqs: map<Id, Rq>, l: seq<Id>, sector: nat)
    ensures Onward(rqs, l, l, 0, sector)
  {
    assert l[0..] == l && l[..0] == [];
    assert [] + Walk(rqs, l, sector).1 == Walk(rqs, l, sector).1;
  }

  lemma OnwardEnd(rqs: map<Id, Rq>, list0: seq<Id>, l: seq<Id>, i: nat, sector: nat)
    requires Onward(rqs, list0, l, i, sector) && i == |l|
    ensures Walk(rqs, list0, sector) == (None, l)
  {
    assert l[..i] + [] == l;
  }

  lemma UnlinkAt(buckets: seq<seq<Id>>, linked: map<Id, nat>, b: nat, i: nat)
    requires Links(buckets, linked) && b < |buckets| && i < |buckets[b]|
    ensures var l := buckets[b]; Links(buckets[b := l[..i] + l[i + 1..]], linked - {l[i]})
  {
    hide Remove, Unhash;
    var x := buckets[b][i];
    assert x in buckets[b];
    UnlinkOk(buckets, linked, x);
    Without(buckets[b], i);
  }

  /** Nothing outside the elevator is on the hash. */
  lemma NotLinked(h: Hash, s: State, linked: map<Id, nat>, x: Id)
    requires x !in s.rqs && Inv(h, s) && Links(s.buckets, linked)
    ensures x !in linked
  {
    forall y | y in linked ensures y in s.rqs {
      assert BucketOk(h, s.rqs, linked[y], s.buckets[linked[y]]);
    }
  }

  lemma WalkUnfold(rqs: map<Id, Rq>, l: seq<Id>, i: nat, sector: nat)
    requires i < |l|
    ensures var x, rest := l[i], Walk(rqs, l[i + 1..], sector);
            && Walk(rqs, l[i..], sector) ==
               (if x !in rqs || !rqs[x].mergeable then rest
                else if EndOf(rqs[x]) == sector then (Some(x), l[i..])
                else (rest.0, [x] + rest.1))
            && l[..i + 1] == l[..i] + [x]
            && (l[..i] + l[i + 1..])[i..] == l[i + 1..] && (l[..i] + l[i + 1..])[..i] == l[..i]
            && l[..i] + ([x] + rest.1) == l[..i + 1] + rest.1
  {
    assert l[i..][0] == l[i] && l[i..][1..] == l[i + 1..];
  }

  lemma Without(l: seq<Id>, i: nat)
    requires Distinct(l) && i < |l|
    ensures Remove(l, l[i]) == l[..i] + l[i + 1..]
  {
    hide Remove;
    var j := RemoveAt(l, l[i]);
    assert j == i;
  }
}
