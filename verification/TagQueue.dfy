/** The tag map updated in place: a bitmap and an index array, replaced when the depth grows. */
module TagQueue {
  import opened Lists
  import opened Options
  import opened Tags

  /** `Overrun`: the copy would run past the end of the new arrays. */
  datatype Code = Done | EBusy | ENoMem | Overrun

  class TagMap {
    var bits: array<bool>
    var table: array<Option<Id>>
    var max: nat
    var refs: nat
    var tag: map<Id, nat>
    ghost var owner: map<Id, QId>
    ghost var stamp: map<Id, nat>
    ghost var clock: nat
    var busy: map<QId, seq<Id>>
    var head: map<QId, seq<Id>>

    ghost function View(): State
      reads this, bits, table
    {
      State(bits[..], table[..], max, refs, tag, owner, stamp, clock, busy, head)
    }

    ghost predicate Valid()
      reads this, bits, table
    {
      Inv(View())
    }

    /** `init_tag_map` for one queue. */
    constructor (depth: nat, requests: nat, q: QId)
      ensures Valid() && fresh(bits) && fresh(table)
      ensures bits.Length == Min(depth, 2 * requests) && max == bits.Length && refs == 1 && tag == map[]
      ensures busy == map[q := []] && head == map[q := []]
    {
      var d := Min(depth, 2 * requests);
      bits := new bool[d](_ => false);
      table := new Option<Id>[d](_ => None);
      max, refs, tag, owner, stamp, clock := d, 1, map[], map[], map[], 0;
      busy, head := map[q := []], map[q := []];
    }

    /** `find_first_zero_bit`. */
    method FindFirstZero(limit: nat) returns (t: nat)
      requires limit <= bits.Length
      ensures t == FirstFree(bits[..], 0, limit)
    {
      t := 0;
      while t < limit && bits[t]
        invariant t <= limit && FirstFree(bits[..], t, limit) == FirstFree(bits[..], 0, limit)
      {
        t := t + 1;
      }
    }

    /** The first half of `blk_queue_start_tag`: which tag, if any. */
    method PickTag(sync: bool, async: nat) returns (t: Option<nat>)
      requires Valid()
      ensures t == Choice(View(), sync, async)
    {
      Sizes(View());
      hide Inv, FirstFree;
      var limit := max;
      if !sync && limit > 1 {
        limit := limit - 2;
        if limit == 0 {
          limit := 1;
        }
        if async > limit {
          return None;
        }
      }
      var k := FindFirstZero(limit);
      return if k >= limit then None else Some(k);
    }

    /** `blk_queue_start_tag`. */
    method StartTag(q: QId, x: Id, sync: bool, async: nat) returns (refused: bool)
      requires Valid() && q in busy && x !in tag && forall p :: p in head && p != q ==> x !in head[p]
      modifies this, bits, table
      ensures Valid() && bits == old(bits) && table == old(table)
      ensures refused <==> Choice(old(View()), sync, async).None?
      ensures refused ==> View() == old(View())
      ensures !refused ==>
                var t := Choice(old(View()), sync, async).value;
                && q in old(head) && t < |old(bits[..])| && t < |old(table[..])|
                && View() == Start(old(View()), q, x, t)
    {
      hide Inv, Remove, Choice;
      ghost var s := View();
      Sizes(s);
      ChoiceIs(s, sync, async);
      var pick := PickTag(sync, async);
      if pick.None? {
        return true;
      }
      var t := pick.value;
      StartInv(s, q, x, t);
      bits[t] := true;
      tag := tag[x := t];
      table[t] := Some(x);
      head := head[q := Remove(head[q], x)];
      busy := busy[q := [x] + busy[q]];
      owner, stamp, clock := owner[x := q], stamp[x := clock], clock + 1;
      return false;
    }

    /** `blk_queue_end_tag`; `complaint` is any of its three error paths. */
    method EndTag(q: QId, x: Id) returns (complaint: bool)
      requires Valid() && q in busy && x in busy[q]
      modifies this, bits, table
      ensures Valid() && bits == old(bits) && table == old(table) && !complaint
      ensures x in old(tag) && old(tag)[x] < |old(bits[..])| && old(tag)[x] < |old(table[..])|
      ensures View() == End(old(View()), q, x)
    {
      hide Inv, Remove;
      EndInv(View(), q, x);
      complaint := false;
      var t := tag[x];
      if t >= bits.Length {
        return true;
      }
      busy := busy[q := Remove(busy[q], x)];
      tag := tag - {x};
      owner, stamp := owner - {x}, stamp - {x};
      if table[t].None? {
        complaint := true;
      }
      table[t] := None;
      if !bits[t] {
        return true;
      }
      bits[t] := false;
    }

    /** `blk_queue_resize_tags` on an existing map.  The method stops where the copy would overrun; the
        code goes on, and nothing can be said about what it leaves. */
    method ResizeTags(depth: nat, requests: nat, memory: bool) returns (code: Code)
      requires Valid()
      modifies this
      ensures Valid() && (bits == old(bits) || fresh(bits)) && (table == old(table) || fresh(table))
      ensures var r := Resize(Some(old(View())), depth, requests, memory);
              && (code.Done? <==> r.Ok?) && (code.EBusy? <==> r.Busy?) && (code.ENoMem? <==> r.NoMemory?)
              && (code.Overrun? <==>
                    depth > |old(bits[..])| && old(refs) == 1 && memory && 2 * requests < |old(bits[..])|)
              && View() == if r.Ok? then r.s else old(View())
    {
      hide Inv;
      Sizes(View());
      ResizeInv(View(), depth, requests, memory);
      assert bits.Length == table.Length;
      if depth <= bits.Length {
        max := depth;
        return Done;
      }
      if refs != 1 {
        return EBusy;
      }
      if !memory {
        return ENoMem;
      }
      var d := Min(depth, 2 * requests);
      if d < bits.Length {
        return Overrun;
      }
      var newBits, newTable := Enlarge(d);
      bits, table, max := newBits, newTable, d;
      return Done;
    }

    /** New arrays of size `d` with the old contents copied over. */
    method Enlarge(d: nat) returns (newBits: array<bool>, newTable: array<Option<Id>>)
      requires bits.Length == table.Length <= d
      ensures fresh(newBits) && fresh(newTable)
      ensures newBits[..] == bits[..] + seq(d - bits.Length, _ => false)
      ensures newTable[..] == table[..] + seq(d - bits.Length, _ => None)
    {
      newBits := new bool[d](_ => false);
      newTable := new Option<Id>[d](_ => None);
      var i := 0;
      while i < bits.Length
        invariant i <= bits.Length
        invariant forall k :: 0 <= k < i ==> newBits[k] == bits[k] && newTable[k] == table[k]
        invariant forall k :: i <= k < d ==> !newBits[k] && newTable[k].None?
        modifies newBits, newTable
      {
        newBits[i] := bits[i];
        newTable[i] := table[i];
        i := i + 1;
      }
    }

    /** `blk_requeue_request` with no ordered sequence active. */
    method RequeueRequest(q: QId, x: Id)
      requires Valid() && q in busy && x in busy[q]
      modifies this, bits, table
      ensures Valid() && bits == old(bits) && table == old(table)
      ensures q in old(head) && x in old(tag) && old(tag)[x] < |old(bits[..])| && old(tag)[x] < |old(table[..])|
      ensures View() == Requeue(old(View()), q, x)
    {
      hide Inv, Remove;
      Sizes(View());
      RequeueInv(View(), q, x);
      var _ := EndTag(q, x);
      head := head[q := [x] + head[q]];
    }

    /** `blk_queue_invalidate_tags`. */
    method InvalidateTags(q: QId)
      requires Valid() && q in busy
      modifies this, bits, table
      ensures Valid() && bits == old(bits) && table == old(table)
      ensures busy == old(busy)[q := []] && q in old(head)
      ensures head == old(head)[q := Reverse(old(busy)[q]) + old(head)[q]]
      ensures Freed(q, old(tag), old(owner), tag, owner)
    {
      hide Inv, Requeue, Freed;
      ghost var s := View();
      InvalidateIs(s, q);
      while busy[q] != []
        invariant q in busy && Valid() && bits == old(bits) && table == old(table)
        invariant Invalidate(View(), q) == Invalidate(s, q)
        decreases |busy[q]|
      {
        RequeueFirst(View(), q);
        RequeueRequest(q, busy[q][0]);
      }
    }
  }

  lemma Sizes(s: State)
    requires Inv(s)
    ensures |s.bits| == |s.table| && s.max <= |s.bits| && s.busy.Keys == s.head.Keys
  {
  }
}
