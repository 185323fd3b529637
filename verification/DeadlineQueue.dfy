/** The deadline scheduler as it updates its lists in place. */
module DeadlineQueue {
  import opened Lists
  import opened Options
  import opened Deadline
  import opened DeadlineSteps
  import opened DeadlineRuns

  class DeadlineData {
    const config: Config
    var pos: map<Id, nat>
    var due: map<Id, int>
    var dir: map<Id, Dir>
    var read: Half
    var write: Half
    var batching: nat
    var starved: nat
    var sorted: int
    ghost var clock: int
    var out: seq<Id>

    ghost function View(): State
      reads this
    {
      State(pos, due, dir, read, write, batching, starved, sorted, clock, out)
    }

    ghost predicate Valid()
      reads this
    {
      Inv(config, View())
    }

    constructor (c: Config)
      ensures Valid() && View() == Empty && config == c
    {
      config := c;
      pos, due, dir := map[], map[], map[];
      read, write := Half([], [], None), Half([], [], None);
      batching, starved, sorted, clock, out := 0, 0, 0, 0, [];
      new;
      StartInv(c);
    }

    function Side(d: Dir): Half
      reads this
    {
      if d.Read? then read else write
    }

    method SetSide(d: Dir, h: Half)
      modifies this`read, this`write
      ensures View() == WithHalf(old(View()), d, h)
    {
      if d.Read? { read := h; } else { write := h; }
    }

    /** `elv_rb_add` on the sector order: either a request already starts there, or `x` goes in. */
    method RbAdd(d: Dir, x: Id, p: nat) returns (alias: Option<Id>)
      requires SortOk(pos, Side(d).sort)
      modifies this`read, this`write
      ensures alias == Alias(pos, old(Side(d).sort), p)
      ensures alias.Some? ==> View() == old(View())
      ensures alias.None? ==>
                View() == WithHalf(old(View()), d, old(Side(d)).(sort := Insert(pos, old(Side(d).sort), x, p)))
    {
      var s := Side(d).sort;
      var i := 0;
      while i < |s| && pos[s[i]] < p
        invariant 0 <= i <= |s|
        invariant forall j :: 0 <= j < i ==> pos[s[j]] < p
      {
        i := i + 1;
      }
      Place(pos, s, x, p, i);
      if i < |s| && pos[s[i]] == p {
        return Some(s[i]);
      }
      SetSide(d, Side(d).(sort := s[..i] + [x] + s[i..]));
      return None;
    }

    /** `deadline_move_request`. */
    method MoveRequest(d: Dir, x: Id)
      modifies this`read, this`write, this`out, this`sorted
      ensures View() == Move(old(View()), d, x)
    {
      var h := Side(d);
      read := read.(next := None);
      write := write.(next := None);
      SetSide(d, Half(Remove(h.sort, x), Remove(h.fifo, x), Latter(h.sort, x)));
      sorted := sorted - 1;
      out := out + [x];
    }

    /** `deadline_add_rq_rb`. */
    method AddRqRb(d: Dir, x: Id, p: nat)
      requires SortOk(pos, Side(d).sort)
      modifies this`read, this`write, this`out, this`sorted
      ensures View() == Index(old(View()), d, x, p)
    {
      hide SortOk, Alias, Insert, Remove, Latter;
      ghost var s0 := View();
      var alias := RbAdd(d, x, p);
      while alias.Some?
        invariant alias.Some? ==> View() == s0 && alias == Alias(pos, Side(d).sort, p)
        invariant alias.None? ==> View() == Index(s0, d, x, p)
        decreases if alias.Some? then 1 else 0
      {
        AliasGone(pos, Side(d).sort, p, alias.value);
        MoveRequest(d, alias.value);
        alias := RbAdd(d, x, p);
      }
    }

    /** `deadline_add_request`, reached from `elv_insert`. */
    method AddRequest(x: Id, d: Dir, p: nat, now: int)
      requires Valid() && x !in dir && now >= clock
      modifies this
      ensures Valid() && View() == Add(config, old(View()), x, d, p, now)
    {
      hide Inv, Index;
      Unknown(config, View(), d, x);
      FreshSort(config, View(), d, x, p);
      AddInv(config, View(), x, d, p, now);
      sorted := sorted + 1;
      clock := now;
      pos := pos[x := p];
      dir := dir[x := d];
      AddRqRb(d, x, p);
      due := due[x := now + Expire(config, d)];
      SetSide(d, Side(d).(fifo := Side(d).fifo + [x]));
    }

    /** `deadline_merged_request` after a front merge. */
    method MergedRequest(d: Dir, x: Id, p: nat)
      requires Valid() && x in Side(d).fifo
      modifies this
      ensures Valid() && View() == FrontMerged(old(View()), d, x, p)
    {
      hide Inv, Index, Remove;
      FrontMergedInv(config, View(), d, x, p);
      ShrunkSort(config, View(), d, x, p);
      pos := pos[x := p];
      SetSide(d, Side(d).(sort := Remove(Side(d).sort, x)));
      AddRqRb(d, x, p);
    }

    /** `deadline_merged_requests`, together with the count kept by `elv_merge_requests`; `p` is where
        `n` starts after the bio that brought the two together. */
    method MergedRequests(d: Dir, r: Id, n: Id, p: nat)
      requires Valid() && r in Side(d).fifo && n in Side(d).fifo && r != n
      modifies this
      ensures Valid() && r in old(due) && n in old(due) && View() == FrontAbsorbed(old(View()), d, r, n, p)
    {
      hide Inv, Remove, InsertAfter, Latter;
      FrontAbsorbedInv(config, View(), d, r, n, p);
      pos := pos[n := p];
      if due[n] < due[r] {
        SetSide(d, Side(d).(fifo := InsertAfter(Remove(Side(d).fifo, r), n, r)));
        due := due[r := due[n]];
      }
      var h := Side(d);
      h := h.(fifo := Remove(h.fifo, n));
      if h.next == Some(n) {
        h := h.(next := Latter(h.sort, n));
      }
      SetSide(d, h.(sort := Remove(h.sort, n)));
      sorted := sorted - 1;
    }

    /** `deadline_dispatch_requests`. */
    method DispatchRequests(now: int) returns (moved: bool)
      requires Valid() && now >= clock
      modifies this
      ensures Valid() && (forall d :: HalfOf(old(View()), d).fifo != [] ==> HalfOf(old(View()), d).fifo[0] in old(due))
      ensures View() == Dispatch(config, old(View()), now)
      ensures moved <==> old(sorted) > 0
    {
      hide Inv, Move;
      DispatchInv(config, View(), now);
      Counted(config, View());
      NextQueued(config, View(), Read);
      NextQueued(config, View(), Write);
      clock := now;
      var d: Dir;
      var rq: Option<Id>;
      if write.next.Some? {
        rq, d := write.next, Write;
      } else {
        rq, d := read.next, Read;
      }
      var x: Id;
      if rq.Some? && batching < config.fifoBatch {
        x := rq.value;
        batching := batching + 1;
      } else {
        var readsWaiting, writesWaiting := read.fifo != [], write.fifo != [];
        if !readsWaiting && !writesWaiting {
          return false;
        }
        var turn := false;
        if readsWaiting && writesWaiting {
          turn := starved >= config.writesStarved;
          starved := starved + 1;
        }
        if readsWaiting && !turn {
          d := Read;
        } else {
          starved := 0;
          d := Write;
        }
        var h := Side(d);
        if now > due[h.fifo[0]] || h.next.None? {
          x := h.fifo[0];
        } else {
          x := h.next.value;
        }
        batching := 1;
      }
      MoveRequest(d, x);
      return true;
    }

    /** `elv_drain_elevator`: the message about broken forced dispatching is never printed. */
    method DrainElevator(now: int) returns (complaint: bool)
      requires Valid() && now >= clock
      modifies this
      ensures Valid() && sorted == 0 && read.fifo == [] && write.fifo == [] && !complaint
      ensures |out| == |old(out)| + old(sorted)
      ensures forall y :: y in out <==> y in old(out) || IsQueued(old(View()), y)
    {
      hide Inv, Dispatch;
      ghost var s0 := View();
      DrainEmpties(config, s0, now);
      DrainSteps(config, View(), now);
      var moved := DispatchRequests(now);
      while moved
        invariant Valid() && clock == now
        invariant Drain(config, View(), now).out == Drain(config, s0, now).out
        invariant !moved ==> sorted <= 0
        decreases sorted, moved
      {
        DrainSteps(config, View(), now);
        Counted(config, View());
        moved := DispatchRequests(now);
      }
      DrainEmpties(config, View(), now);
      Counted(config, View());
      complaint := sorted != 0;
    }
  }

  /** A scan of the sorted order stops at the alias or where `x` belongs. */
  lemma {:induction false} Place(pos: map<Id, nat>, s: seq<Id>, x: Id, p: nat, i: nat)
    requires SortOk(pos, s) && i <= |s| && (forall j :: 0 <= j < i ==> pos[s[j]] < p) && (i < |s| ==> pos[s[i]] >= p)
    ensures Alias(pos, s, p) == if i < |s| && pos[s[i]] == p then Some(s[i]) else None
    ensures !(i < |s| && pos[s[i]] == p) ==> Insert(pos, s, x, p) == s[..i] + [x] + s[i..]
    decreases |s|
  {
    if i < |s| && pos[s[i]] == p {
      AliasFinds(pos, s, p);
      OneAlias(pos, s, s[i]);
    } else {
      AliasFinds(pos, s, p);
      forall y | y in s ensures pos[y] != p {
        var j :| 0 <= j < |s| && s[j] == y;
        assert i < j ==> pos[s[i]] < pos[s[j]];
      }
      var k := InsertAt(pos, s, x, p);
      assert k == i;
    }
  }

  lemma AliasGone(pos: map<Id, nat>, s: seq<Id>, p: nat, a: Id)
    requires SortOk(pos, s) && Alias(pos, s, p) == Some(a)
    ensures SortOk(pos, Remove(s, a)) && Alias(pos, Remove(s, a), p).None?
  {
    hide Alias, Remove, Distinct, Ascending;
    AliasFinds(pos, s, p);
    OneAlias(pos, s, a);
    RemoveKeeps(s, a);
    RemoveAscending(pos, pos, s, a);
    AliasFinds(pos, Remove(s, a), p);
  }

  lemma FreshSort(c: Config, s: State, d: Dir, x: Id, p: nat)
    requires Inv(c, s) && x !in HalfOf(s, d).sort
    ensures SortOk(s.pos[x := p], HalfOf(s, d).sort)
  {
    assert HalfOk(c, s, d);
    SortFrame(s.pos, HalfOf(s, d).sort, x, p);
  }

  lemma ShrunkSort(c: Config, s: State, d: Dir, x: Id, p: nat)
    requires Inv(c, s) && x in HalfOf(s, d).fifo
    ensures SortOk(s.pos[x := p], Remove(HalfOf(s, d).sort, x))
  {
    hide SortOk, FifoOk, Remove;
    assert HalfOk(c, s, d);
    SortRemove(s.pos, HalfOf(s, d).sort, x, p);
  }

  lemma Counted(c: Config, s: State)
    requires Inv(c, s)
    ensures s.sorted == |s.read.fifo| + |s.write.fifo|
  {
  }

  lemma DrainSteps(c: Config, s: State, now: int)
    requires Inv(c, s) && now >= s.clock
    ensures forall d :: HalfOf(s, d).fifo != [] ==> HalfOf(s, d).fifo[0] in s.due
    ensures var s' := Dispatch(c, s, now);
            && Inv(c, s') && s'.clock == now && Drain(c, s', now).out == Drain(c, s, now).out
            && (s.sorted > 0 ==> s'.sorted < s.sorted) && (s.sorted == 0 ==> s'.sorted == 0)
  {
    hide Inv, Dispatch;
    Counted(c, s);
    DispatchInv(c, s, now);
    DispatchMoves(c, s, now);
    DispatchClock(c, s, now);
  }
}
