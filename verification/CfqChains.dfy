/** Cooperating queues of the CFQ scheduler.

    A queue scheduled to merge into another one points at it through `new_cfqq`.  The merge happens
    lazily, one io context at a time, so the references it will need are reserved when it is set up.
    The state holds the live sync queues and, for every io context that has one, its sync queue;
    a freed queue is gone from the map, and its identity may be reused. */
module CfqChains {
  import opened Options

  type QueueId = nat
  type CicId = nat

  datatype Queue = Queue(ref: int, rqs: nat, next: Option<QueueId>)

  type Queues = map<QueueId, Queue>

  datatype State = State(queues: Queues, cics: map<CicId, QueueId>)

  /** `cfqq_process_refs` */
  function ProcessRefs(q: Queue): int { q.ref - q.rqs }

  /** What follows position `i` of `p`. */
  function After(p: seq<QueueId>, i: nat): Option<QueueId> {
    if i + 1 < |p| then Some(p[i + 1]) else None
  }

  /** The merge chain of `p[0]`: follow `new_cfqq` to the end, visiting no queue twice. */
  ghost predicate IsChain(queues: Queues, p: seq<QueueId>) {
    && p != []
    && (forall i :: 0 <= i < |p| ==> p[i] in queues)
    && (forall i, j :: 0 <= i < j < |p| ==> p[i] != p[j])
    && (forall i :: 0 <= i < |p| ==> queues[p[i]].next == After(p, i))
  }

  ghost predicate HasChain(queues: Queues, q: QueueId) {
    exists p :: IsChain(queues, p) && p[0] == q
  }

  ghost function Chain(queues: Queues, q: QueueId): (p: seq<QueueId>)
    requires HasChain(queues, q)
    ensures IsChain(queues, p) && p[0] == q
  {
    var p :| IsChain(queues, p) && p[0] == q;
    p
  }

  lemma {:induction false} ChainUnique(queues: Queues, p: seq<QueueId>, p': seq<QueueId>)
    requires IsChain(queues, p) && IsChain(queues, p') && p[0] == p'[0]
    ensures p == p'
    decreases |p|
  {
    if |p| > 1 && |p'| > 1 {
      ChainTail(queues, p);
      ChainTail(queues, p');
      ChainUnique(queues, p[1..], p'[1..]);
      assert p == [p[0]] + p[1..] && p' == [p'[0]] + p'[1..];
    } else {
      assert After(p, 0) == queues[p[0]].next == After(p', 0);
    }
  }

  lemma ChainTail(queues: Queues, p: seq<QueueId>)
    requires IsChain(queues, p) && |p| > 1
    ensures IsChain(queues, p[1..])
  {
    SuffixIsChain(queues, p, 1);
  }

  lemma SuffixIsChain(queues: Queues, p: seq<QueueId>, k: nat)
    requires IsChain(queues, p) && k < |p|
    ensures IsChain(queues, p[k..])
  {
    var t := p[k..];
    forall i | 0 <= i < |t| ensures queues[t[i]].next == After(t, i) {
      assert t[i] == p[i + k] && After(t, i) == After(p, i + k);
    }
  }

  /** The last queue of a chain is the only one that points nowhere. */
  lemma ChainEnd(queues: Queues, p: seq<QueueId>, q: QueueId)
    requires IsChain(queues, p) && q in p && queues[q].next == None
    ensures q == p[|p| - 1]
  {
    var i :| 0 <= i < |p| && p[i] == q;
  }

  // ---------------------------------------------------------------- steps

  /** `cfq_put_queue`: the last reference frees the queue. */
  function Put(queues: Queues, q: QueueId): Queues
    requires q in queues
  {
    if queues[q].ref == 1 then queues - {q} else queues[q := queues[q].(ref := queues[q].ref - 1)]
  }

  /** One reference dropped on each queue of `p`. */
  function PutAll(queues: Queues, p: seq<QueueId>): Queues
    requires forall i :: 0 <= i < |p| ==> p[i] in queues
    requires forall i, j :: 0 <= i < j < |p| ==> p[i] != p[j]
  {
    if p == [] then queues else PutAll(Put(queues, p[0]), p[1..])
  }

  /** `cfq_setup_merge`, given the chain `p` of `b`. */
  function Link(queues: Queues, a: QueueId, p: seq<QueueId>): Queues
    requires a in queues && p != [] && p[|p| - 1] in queues
  {
    var t := p[|p| - 1];
    if a in p[1..] then queues
    else
      var refs, newRefs := ProcessRefs(queues[a]), ProcessRefs(queues[t]);
      if refs == 0 || newRefs == 0 then queues
      else if newRefs >= refs then
        var q1 := queues[a := queues[a].(next := Some(t))];
        q1[t := q1[t].(ref := q1[t].ref + refs)]
      else
        var q1 := queues[t := queues[t].(next := Some(a))];
        q1[a := q1[a].(ref := q1[a].ref + newRefs)]
  }

  datatype Op =
    | NewQueue(c: CicId, q: QueueId)      // cfq_get_queue for a context without a sync queue
    | SetupMerge(a: QueueId, b: QueueId)  // cfq_setup_merge
    | Merge(c: CicId)                     // cfq_merge_cfqqs
    | Split(c: CicId)                     // split_cfqq
    | Exit(c: CicId)                      // cfq_exit_cfqq for the sync queue
    | Alloc(c: CicId)                     // cfq_set_request takes a reference
    | Release(q: QueueId)                 // cfq_put_request drops it

  /** What the callers guarantee.  A merge is set up only for a queue not merging yet, and never
      with itself: the current queue has nothing pending, so the search cannot return it. */
  predicate Enabled(s: State, op: Op) {
    match op
    case NewQueue(c, q) => c !in s.cics && q !in s.queues
    case SetupMerge(a, b) => a in s.queues && b in s.queues && a != b && s.queues[a].next == None
    case Merge(c) => c in s.cics && s.cics[c] in s.queues && s.queues[s.cics[c]].next.Some?
    case Split(c) => c in s.cics && s.cics[c] in s.queues
    case Exit(c) => c in s.cics && s.cics[c] in s.queues
    case Alloc(c) => c in s.cics && s.cics[c] in s.queues
    case Release(q) => q in s.queues && s.queues[q].rqs > 0
  }

  /** The chains that the walking loops of `op` follow exist. */
  ghost predicate Walkable(s: State, op: Op)
    requires Enabled(s, op)
  {
    match op
    case SetupMerge(a, b) => ProcessRefs(s.queues[b]) != 0 ==> HasChain(s.queues, b)
    case Split(c) => HasChain(s.queues, s.cics[c])
    case Exit(c) => HasChain(s.queues, s.cics[c])
    case _ => true
  }

  /** Drop the reference on the queue of `c` and those reserved further down its chain. */
  ghost function Leave(s: State, c: CicId): State
    requires c in s.cics && HasChain(s.queues, s.cics[c])
  {
    var p := Chain(s.queues, s.cics[c]);
    State(PutAll(s.queues, p[1..] + [p[0]]), s.cics - {c})
  }

  ghost function Apply(s: State, op: Op): State
    requires Enabled(s, op) && Walkable(s, op)
  {
    match op
    case NewQueue(c, q) => State(s.queues[q := Queue(1, 0, None)], s.cics[c := q])
    case SetupMerge(a, b) =>
      if ProcessRefs(s.queues[b]) == 0 then s else s.(queues := Link(s.queues, a, Chain(s.queues, b)))
    case Merge(c) => State(Put(s.queues, s.cics[c]), s.cics[c := s.queues[s.cics[c]].next.value])
    case Split(c) => if ProcessRefs(s.queues[s.cics[c]]) == 1 then s else Leave(s, c)
    case Exit(c) => Leave(s, c)
    case Alloc(c) =>
      var q := s.queues[s.cics[c]];
      s.(queues := s.queues[s.cics[c] := q.(ref := q.ref + 1, rqs := q.rqs + 1)])
    case Release(q) =>
      s.(queues := Put(s.queues[q := s.queues[q].(rqs := s.queues[q].rqs - 1)], q))
  }

  // ---------------------------------------------------------------- the invariant

  type Paths = map<CicId, seq<QueueId>>

  ghost function Users(paths: Paths, q: QueueId): set<CicId> {
    set c | c in paths && q in paths[c]
  }

  ghost predicate PathsOk(s: State, paths: Paths) {
    && paths.Keys == s.cics.Keys
    && forall c :: c in paths ==> IsChain(s.queues, paths[c]) && paths[c][0] == s.cics[c]
  }

  ghost predicate RefsOk(queues: Queues, paths: Paths) {
    forall q :: q in queues ==> queues[q].ref > 0 && queues[q].ref == queues[q].rqs + |Users(paths, q)|
  }

  ghost predicate Inv(s: State, paths: Paths) {
    PathsOk(s, paths) && RefsOk(s.queues, paths)
  }

  /** A queue some context uses has a chain. */
  lemma UsedHasChain(s: State, paths: Paths, c: CicId, q: QueueId)
    requires PathsOk(s, paths) && c in paths && q in paths[c]
    ensures HasChain(s.queues, q)
    ensures exists i :: 0 <= i < |paths[c]| && paths[c][i] == q && IsChain(s.queues, paths[c][i..])
  {
    var p := paths[c];
    var i :| 0 <= i < |p| && p[i] == q;
    SuffixIsChain(s.queues, p, i);
  }

  lemma ReferencedHasChain(s: State, paths: Paths, q: QueueId)
    requires Inv(s, paths) && q in s.queues && ProcessRefs(s.queues[q]) != 0
    ensures HasChain(s.queues, q)
  {
    var u := Users(paths, q);
    assert |u| > 0;
    var c :| c in u;
    UsedHasChain(s, paths, c, q);
  }

  /** Both walking loops terminate on every reachable state: the chains they follow exist. */
  lemma AlwaysWalkable(s: State, paths: Paths, op: Op)
    requires Inv(s, paths) && Enabled(s, op)
    ensures Walkable(s, op)
  {
    match op
    case SetupMerge(a, b) =>
      if ProcessRefs(s.queues[b]) != 0 { ReferencedHasChain(s, paths, b); }
    case Split(c) => UsedHasChain(s, paths, c, s.cics[c]);
    case Exit(c) => UsedHasChain(s, paths, c, s.cics[c]);
    case _ =>
  }

  // ---------------------------------------------------------------- every step keeps it

  lemma KeepChain(queues: Queues, queues': Queues, p: seq<QueueId>)
    requires IsChain(queues, p)
    requires forall q :: q in p ==> q in queues' && queues'[q].next == queues[q].next
    ensures IsChain(queues', p)
  {
  }

  lemma {:induction false} PutAllResult(queues: Queues, p: seq<QueueId>, q: QueueId)
    requires forall i :: 0 <= i < |p| ==> p[i] in queues
    requires forall i, j :: 0 <= i < j < |p| ==> p[i] != p[j]
    ensures q in PutAll(queues, p) <==> q in queues && (q in p ==> queues[q].ref != 1)
    ensures q in PutAll(queues, p) ==>
              PutAll(queues, p)[q] == if q in p then queues[q].(ref := queues[q].ref - 1) else queues[q]
    decreases |p|
  {
    if p != [] {
      PutAllResult(Put(queues, p[0]), p[1..], q);
      assert q in p <==> q == p[0] || q in p[1..];
    }
  }

  lemma UsersDrop(paths: Paths, c: CicId, q: QueueId)
    requires c in paths
    ensures q in paths[c] ==> |Users(paths - {c}, q)| == |Users(paths, q)| - 1
    ensures q !in paths[c] ==> Users(paths - {c}, q) == Users(paths, q)
  {
    assert Users(paths - {c}, q) == Users(paths, q) - {c};
  }

  lemma UsersSet(paths: Paths, c: CicId, p: seq<QueueId>, q: QueueId)
    ensures |Users(paths[c := p], q)| == |Users(paths - {c}, q)| + (if q in p then 1 else 0)
  {
    var rest := Users(paths - {c}, q);
    assert c !in rest;
    assert Users(paths[c := p], q) == if q in p then rest + {c} else rest;
  }

  /** A freed queue was on no remaining path. */
  lemma NoUserLeft(paths: Paths, q: QueueId, c: CicId)
    requires |Users(paths, q)| == 0 && c in paths
    ensures q !in paths[c]
  {
    assert c !in Users(paths, q);
  }

  /** A context leaves its queue and the chain behind it. */
  lemma LeaveRefs(queues: Queues, paths: Paths, c: CicId, queues': Queues)
    requires RefsOk(queues, paths) && c in paths
    requires forall q :: q in queues' <==> q in queues && (q in paths[c] ==> queues[q].ref != 1)
    requires forall q :: q in queues' ==>
              queues'[q] == if q in paths[c] then queues[q].(ref := queues[q].ref - 1) else queues[q]
    ensures RefsOk(queues', paths - {c})
    ensures forall q, d :: d in paths - {c} && q in queues && q in paths[d] ==> q in queues'
  {
    forall q | q in queues' ensures queues'[q].ref > 0 && queues'[q].ref == queues'[q].rqs + |Users(paths - {c}, q)| {
      UsersDrop(paths, c, q);
    }
    forall q, d | d in paths - {c} && q in queues && q in paths[d] ensures q in queues' {
      UsersDrop(paths, c, q);
      if q !in queues' {
        NoUserLeft(paths - {c}, q, d);
      }
    }
  }

  /** The queues that every remaining chain runs through are still there, pointing where they did. */
  lemma KeepPaths(s: State, paths: Paths, s': State, paths': Paths)
    requires PathsOk(s, paths) && paths'.Keys == s'.cics.Keys && paths'.Keys <= paths.Keys
    requires forall d :: d in paths' ==> paths'[d] == paths[d] && s'.cics[d] == s.cics[d]
    requires forall d, q :: d in paths' && q in paths[d] && q in s.queues ==>
              q in s'.queues && s'.queues[q].next == s.queues[q].next
    ensures PathsOk(s', paths')
  {
    forall d | d in paths' ensures IsChain(s'.queues, paths'[d]) {
      KeepChain(s.queues, s'.queues, paths[d]);
    }
  }

  lemma OrderSame(p: seq<QueueId>, q: QueueId)
    requires p != []
    ensures q in p[1..] + [p[0]] <==> q in p
  {
    assert p == [p[0]] + p[1..];
  }

  lemma LeaveQueues(s: State, c: CicId, q: QueueId)
    requires c in s.cics && HasChain(s.queues, s.cics[c])
    ensures var s' := Leave(s, c); var p := Chain(s.queues, s.cics[c]);
            && (q in s'.queues <==> q in s.queues && (q in p ==> s.queues[q].ref != 1))
            && (q in s'.queues ==>
                  s'.queues[q] == if q in p then s.queues[q].(ref := s.queues[q].ref - 1) else s.queues[q])
  {
    var p := Chain(s.queues, s.cics[c]);
    OrderSame(p, q);
    PutAllResult(s.queues, p[1..] + [p[0]], q);
  }

  lemma LeaveInv(s: State, paths: Paths, c: CicId)
    requires Inv(s, paths) && c in s.cics && HasChain(s.queues, s.cics[c])
    ensures Inv(Leave(s, c), paths - {c})
  {
    hide IsChain, RefsOk, PutAll, HasChain;
    var s' := Leave(s, c);
    assert Chain(s.queues, s.cics[c]) == paths[c] by { ChainUnique(s.queues, Chain(s.queues, s.cics[c]), paths[c]); }
    forall q ensures q in s'.queues <==> q in s.queues && (q in paths[c] ==> s.queues[q].ref != 1)
      ensures q in s'.queues ==>
                s'.queues[q] == if q in paths[c] then s.queues[q].(ref := s.queues[q].ref - 1) else s.queues[q]
    {
      LeaveQueues(s, c, q);
    }
    LeaveRefs(s.queues, paths, c, s'.queues);
    KeepPaths(s, paths, s', paths - {c});
  }

  /** Taking the first step along a chain gives up one reference on the queue left behind. */
  lemma MergeRefs(queues: Queues, paths: Paths, c: CicId)
    requires RefsOk(queues, paths) && c in paths && paths[c] != [] && paths[c][0] in queues
    requires paths[c][0] !in paths[c][1..]
    ensures var queues', paths' := Put(queues, paths[c][0]), paths[c := paths[c][1..]];
            && RefsOk(queues', paths')
            && forall d :: d in paths' && paths[c][0] in paths'[d] ==> paths[c][0] in queues'
  {
    var p := paths[c];
    var q0 := p[0];
    var queues', paths' := Put(queues, q0), paths[c := p[1..]];
    assert p == [q0] + p[1..];
    forall q ensures |Users(paths', q)| == |Users(paths, q)| - (if q == q0 then 1 else 0) {
      UsersDrop(paths, c, q);
      UsersSet(paths, c, p[1..], q);
    }
    forall d | d in paths' && q0 in paths'[d] ensures q0 in queues' {
      assert d in Users(paths', q0);
      assert |Users(paths', q0)| > 0;
    }
  }

  lemma ChainHead(queues: Queues, p: seq<QueueId>)
    requires IsChain(queues, p)
    ensures p != [] && p[0] in queues && p[0] !in p[1..] && queues[p[0]].next == After(p, 0)
  {
  }

  lemma MergeInv(s: State, paths: Paths, c: CicId)
    requires Inv(s, paths) && Enabled(s, Merge(c))
    ensures Inv(Apply(s, Merge(c)), paths[c := paths[c][1..]])
  {
    hide IsChain, RefsOk;
    var s' := Apply(s, Merge(c));
    var p := paths[c];
    ChainHead(s.queues, p);
    MergeRefs(s.queues, paths, c);
    ChainTail(s.queues, p);
    var paths' := paths[c := p[1..]];
    forall d | d in paths' ensures IsChain(s'.queues, paths'[d]) {
      KeepChain(s.queues, s'.queues, paths'[d]) by {
        ChainMembers(s.queues, paths'[d]);
      }
    }
  }

  lemma ChainMembers(queues: Queues, p: seq<QueueId>)
    requires IsChain(queues, p)
    ensures forall q :: q in p ==> q in queues
  {
  }

  lemma Unused(s: State, paths: Paths, q: QueueId)
    requires PathsOk(s, paths) && q !in s.queues
    ensures Users(paths, q) == {}
  {
    forall d | d in paths ensures q !in paths[d] {
      ChainMembers(s.queues, paths[d]);
    }
  }

  lemma NewQueueInv(s: State, paths: Paths, c: CicId, q: QueueId)
    requires Inv(s, paths) && Enabled(s, NewQueue(c, q))
    ensures Inv(Apply(s, NewQueue(c, q)), paths[c := [q]])
  {
    hide IsChain;
    var s' := Apply(s, NewQueue(c, q));
    assert paths - {c} == paths;
    Unused(s, paths, q);
    forall x | x in s'.queues
      ensures s'.queues[x].ref > 0 && s'.queues[x].ref == s'.queues[x].rqs + |Users(paths[c := [q]], x)|
    {
      UsersSet(paths, c, [q], x);
    }
    forall d | d in paths ensures IsChain(s'.queues, paths[d]) {
      ChainMembers(s.queues, paths[d]);
      KeepChain(s.queues, s'.queues, paths[d]);
    }
    assert IsChain(s'.queues, [q]) by { SingleChain(s'.queues, q); }
  }

  lemma SingleChain(queues: Queues, q: QueueId)
    requires q in queues && queues[q].next == None
    ensures IsChain(queues, [q])
  {
  }

  lemma ReleaseInv(s: State, paths: Paths, q: QueueId)
    requires Inv(s, paths) && Enabled(s, Release(q))
    ensures Inv(Apply(s, Release(q)), paths)
  {
    hide IsChain;
    var s' := Apply(s, Release(q));
    forall d | d in paths ensures IsChain(s'.queues, paths[d]) {
      if q in paths[d] {
        assert d in Users(paths, q);
        assert |Users(paths, q)| > 0;
      }
      ChainMembers(s.queues, paths[d]);
      KeepChain(s.queues, s'.queues, paths[d]);
    }
  }

  lemma AllocInv(s: State, paths: Paths, c: CicId)
    requires Inv(s, paths) && Enabled(s, Alloc(c))
    ensures Inv(Apply(s, Alloc(c)), paths)
  {
    hide IsChain;
    var s' := Apply(s, Alloc(c));
    forall d | d in paths ensures IsChain(s'.queues, paths[d]) {
      ChainMembers(s.queues, paths[d]);
      KeepChain(s.queues, s'.queues, paths[d]);
    }
  }

  // ---------------------------------------------------------------- setting up a merge

  /** Every chain that ends in `a` now goes on to `t`. */
  ghost function Extended(paths: Paths, a: QueueId, t: QueueId): Paths {
    map c | c in paths :: if a in paths[c] then paths[c] + [t] else paths[c]
  }

  /** `a` starts to merge into `t`, with one reference on `t` for every context that uses `a`. */
  lemma JoinInv(s: State, paths: Paths, a: QueueId, t: QueueId, queues': Queues)
    requires Inv(s, paths) && a in s.queues && t in s.queues && a != t
    requires s.queues[a].next == None && s.queues[t].next == None
    requires queues' == s.queues[a := s.queues[a].(next := Some(t))]
                                [t := s.queues[t].(ref := s.queues[t].ref + ProcessRefs(s.queues[a]))]
    ensures Inv(s.(queues := queues'), Extended(paths, a, t))
  {
    hide IsChain, RefsOk;
    var paths' := Extended(paths, a, t);
    forall c | c in paths && a in paths[c] ensures t !in paths[c] && paths[c][|paths[c]| - 1] == a {
      ChainEnd(s.queues, paths[c], a);
      if t in paths[c] { ChainEnd(s.queues, paths[c], t); }
    }
    forall c | c in paths' ensures IsChain(queues', paths'[c]) && paths'[c] != [] && paths'[c][0] == s.cics[c] {
      JoinChain(s.queues, queues', paths[c], a, t);
      ChainHead(s.queues, paths[c]);
    }
    JoinRefs(s.queues, paths, a, t, queues');
  }

  lemma JoinChain(queues: Queues, queues': Queues, p: seq<QueueId>, a: QueueId, t: QueueId)
    requires IsChain(queues, p) && a in queues && t in queues && a != t && queues[t].next == None
    requires a in p ==> t !in p && p[|p| - 1] == a
    requires t in queues' && queues' == queues[a := queues[a].(next := Some(t))][t := queues'[t]]
    requires queues'[t].next == None
    ensures IsChain(queues', if a in p then p + [t] else p)
  {
    if a in p {
      var p' := p + [t];
      forall i | 0 <= i < |p'| ensures queues'[p'[i]].next == After(p', i) {
        if i < |p| - 1 {
          assert p[i] != p[|p| - 1];
          assert queues[p[i]].next == After(p, i);
        }
      }
    } else {
      KeepChain(queues, queues', p);
    }
  }

  lemma JoinRefs(queues: Queues, paths: Paths, a: QueueId, t: QueueId, queues': Queues)
    requires RefsOk(queues, paths) && a in queues && t in queues && a != t
    requires queues' == queues[a := queues[a].(next := Some(t))]
                              [t := queues[t].(ref := queues[t].ref + ProcessRefs(queues[a]))]
    requires forall c :: c in paths && a in paths[c] ==> t !in paths[c]
    ensures RefsOk(queues', Extended(paths, a, t))
  {
    var paths' := Extended(paths, a, t);
    forall q | q in queues' ensures queues'[q].ref > 0 && queues'[q].ref == queues'[q].rqs + |Users(paths', q)| {
      if q == t {
        assert Users(paths', t) == Users(paths, t) + Users(paths, a);
        assert Users(paths, t) !! Users(paths, a);
      } else {
        assert Users(paths', q) == Users(paths, q);
      }
    }
  }

  lemma ChainLast(queues: Queues, p: seq<QueueId>)
    requires IsChain(queues, p)
    ensures p != [] && p[|p| - 1] in queues && queues[p[|p| - 1]].next == None
  {
    assert queues[p[|p| - 1]].next == After(p, |p| - 1);
  }

  lemma SetupMergeInv(s: State, paths: Paths, a: QueueId, b: QueueId) returns (paths': Paths)
    requires Inv(s, paths) && Enabled(s, SetupMerge(a, b)) && Walkable(s, SetupMerge(a, b))
    ensures Inv(Apply(s, SetupMerge(a, b)), paths')
  {
    hide IsChain, PathsOk, RefsOk, HasChain;
    paths' := paths;
    if ProcessRefs(s.queues[b]) != 0 {
      var p := Chain(s.queues, b);
      ChainLast(s.queues, p);
      var t := p[|p| - 1];
      assert p == [p[0]] + p[1..];
      if a !in p[1..] && ProcessRefs(s.queues[a]) != 0 && ProcessRefs(s.queues[t]) != 0 {
        var queues' := Link(s.queues, a, p);
        assert t in p && a !in p;
        if ProcessRefs(s.queues[t]) >= ProcessRefs(s.queues[a]) {
          JoinInv(s, paths, a, t, queues');
          paths' := Extended(paths, a, t);
        } else {
          JoinInv(s, paths, t, a, queues');
          paths' := Extended(paths, t, a);
        }
      }
    }
  }

  lemma StepInv(s: State, paths: Paths, op: Op) returns (paths': Paths)
    requires Inv(s, paths) && Enabled(s, op)
    ensures Walkable(s, op) && Inv(Apply(s, op), paths')
  {
    AlwaysWalkable(s, paths, op);
    paths' := paths;
    match op
    case NewQueue(c, q) => NewQueueInv(s, paths, c, q); paths' := paths[c := [q]];
    case SetupMerge(a, b) => paths' := SetupMergeInv(s, paths, a, b);
    case Merge(c) => MergeInv(s, paths, c); paths' := paths[c := paths[c][1..]];
    case Split(c) =>
      if ProcessRefs(s.queues[s.cics[c]]) != 1 {
        LeaveInv(s, paths, c);
        paths' := paths - {c};
      }
    case Exit(c) => LeaveInv(s, paths, c); paths' := paths - {c};
    case Alloc(c) => AllocInv(s, paths, c);
    case Release(q) => ReleaseInv(s, paths, q);
  }

  // ---------------------------------------------------------------- no cycle among live queues

  type Ranks = map<QueueId, nat>

  /** Every pointer between live queues leads to a lower rank. */
  ghost predicate Ranked(queues: Queues, rank: Ranks) {
    && queues.Keys <= rank.Keys
    && forall q, t :: q in queues && queues[q].next == Some(t) && t in queues ==> rank[t] < rank[q]
  }

  /** `p` follows `new_cfqq` through live queues. */
  ghost predicate Walk(queues: Queues, p: seq<QueueId>) {
    && (forall i :: 0 <= i < |p| ==> p[i] in queues)
    && (forall i :: 0 <= i < |p| - 1 ==> queues[p[i]].next == Some(p[i + 1]))
  }

  /** No walk comes back to where it started, not even among queues that only requests hold. */
  ghost predicate Acyclic(queues: Queues) {
    forall p :: Walk(queues, p) && |p| > 1 ==> p[0] != p[|p| - 1]
  }

  lemma {:induction false} WalkDescends(queues: Queues, rank: Ranks, p: seq<QueueId>)
    requires Ranked(queues, rank) && Walk(queues, p) && |p| > 1
    ensures p[0] in rank && p[|p| - 1] in rank && rank[p[|p| - 1]] < rank[p[0]]
    decreases |p|
  {
    assert queues[p[0]].next == Some(p[1]);
    if |p| > 2 {
      var t := p[1..];
      forall i | 0 <= i < |t| - 1 ensures queues[t[i]].next == Some(t[i + 1]) {
        assert queues[p[i + 1]].next == Some(p[i + 1 + 1]);
      }
      WalkDescends(queues, rank, t);
    }
  }

  /** All new pointers lead to `t`, which points nowhere: put it below everything else. */
  lemma RankBelow(queues: Queues, rank: Ranks, queues': Queues, t: QueueId) returns (rank': Ranks)
    requires Ranked(queues, rank) && queues'.Keys <= queues.Keys + {t}
    requires t in queues' ==> queues'[t].next == None
    requires forall q :: q in queues' && q != t ==>
              q in queues && (queues'[q].next == Some(t) || queues'[q].next == queues[q].next)
    ensures Ranked(queues', rank')
  {
    rank' := (map q | q in rank :: rank[q] + 1)[t := 0];
  }

  lemma RankKeep(queues: Queues, rank: Ranks, queues': Queues)
    requires Ranked(queues, rank)
    requires forall q :: q in queues' ==> q in queues && queues'[q].next == queues[q].next
    ensures Ranked(queues', rank)
  {
  }

  lemma LeaveRank(s: State, rank: Ranks, c: CicId)
    requires Ranked(s.queues, rank) && c in s.cics && HasChain(s.queues, s.cics[c])
    ensures Ranked(Leave(s, c).queues, rank)
  {
    hide Leave, HasChain, Ranked;
    forall q | q in Leave(s, c).queues ensures q in s.queues && Leave(s, c).queues[q].next == s.queues[q].next {
      LeaveQueues(s, c, q);
    }
    RankKeep(s.queues, rank, Leave(s, c).queues);
  }

  lemma LinkRank(queues: Queues, rank: Ranks, a: QueueId, p: seq<QueueId>) returns (rank': Ranks)
    requires Ranked(queues, rank) && IsChain(queues, p) && a in queues && a != p[0] && queues[a].next == None
    ensures p != [] && p[|p| - 1] in queues && Ranked(Link(queues, a, p), rank')
  {
    hide Ranked, IsChain;
    ChainLast(queues, p);
    var t := p[|p| - 1];
    assert p == [p[0]] + p[1..];
    var queues' := Link(queues, a, p);
    if queues' == queues {
      rank' := rank;
    } else {
      assert a != t;
      var under: QueueId := t;
      if ProcessRefs(queues[t]) < ProcessRefs(queues[a]) { under := a; }
      rank' := RankBelow(queues, rank, queues', under);
    }
  }

  lemma StepRank(s: State, rank: Ranks, op: Op) returns (rank': Ranks)
    requires Ranked(s.queues, rank) && Enabled(s, op) && Walkable(s, op)
    ensures Ranked(Apply(s, op).queues, rank')
  {
    hide Ranked, Leave, Link, HasChain, IsChain;
    rank' := rank;
    var queues' := Apply(s, op).queues;
    match op
    case NewQueue(c, q) => rank' := RankBelow(s.queues, rank, queues', q);
    case SetupMerge(a, b) =>
      if ProcessRefs(s.queues[b]) != 0 { rank' := LinkRank(s.queues, rank, a, Chain(s.queues, b)); }
    case Split(c) => if ProcessRefs(s.queues[s.cics[c]]) != 1 { LeaveRank(s, rank, c); }
    case Exit(c) => LeaveRank(s, rank, c);
    case _ => RankKeep(s.queues, rank, queues');
  }

  lemma {:induction false} RunRank(states: seq<State>, ops: seq<Op>, i: nat) returns (rank: Ranks)
    requires Run(states, ops) && i < |states|
    ensures Ranked(states[i].queues, rank)
    decreases i
  {
    hide Apply;
    if i == 0 {
      rank := map[];
    } else {
      var before := RunRank(states, ops, i - 1);
      assert Enabled(states[i - 1], ops[i - 1]);
      rank := StepRank(states[i - 1], before, ops[i - 1]);
    }
  }

  /** In every run the graph of `new_cfqq` pointers among live queues has no cycle. */
  lemma AlwaysAcyclic(states: seq<State>, ops: seq<Op>, i: nat)
    requires Run(states, ops) && i < |states|
    ensures Acyclic(states[i].queues)
  {
    hide Ranked, Walk, Run;
    var rank := RunRank(states, ops, i);
    forall p | Walk(states[i].queues, p) && |p| > 1 ensures p[0] != p[|p| - 1] {
      WalkDescends(states[i].queues, rank, p);
    }
  }

  // ---------------------------------------------------------------- whole runs

  ghost predicate OnChain(queues: Queues, a: QueueId, q: QueueId) {
    exists p :: IsChain(queues, p) && p[0] == a && q in p
  }

  /** The io contexts whose merge chain passes through `q`. */
  ghost function ChainUsers(s: State, q: QueueId): set<CicId> {
    set c | c in s.cics && OnChain(s.queues, s.cics[c], q)
  }

  lemma UsersAreChainUsers(s: State, paths: Paths, q: QueueId)
    requires PathsOk(s, paths)
    ensures Users(paths, q) == ChainUsers(s, q)
  {
    forall c ensures c in Users(paths, q) <==> c in ChainUsers(s, q) {
      if c in ChainUsers(s, q) {
        var p :| IsChain(s.queues, p) && p[0] == s.cics[c] && q in p;
        ChainUnique(s.queues, p, paths[c]);
      }
    }
  }

  /** A run that starts without queues and contexts. */
  ghost predicate Run(states: seq<State>, ops: seq<Op>) {
    && |states| == |ops| + 1
    && states[0] == State(map[], map[])
    && forall i :: 0 <= i < |ops| ==>
          Enabled(states[i], ops[i]) && Walkable(states[i], ops[i]) && states[i + 1] == Apply(states[i], ops[i])
  }

  lemma {:induction false} RunInv(states: seq<State>, ops: seq<Op>, i: nat) returns (paths: Paths)
    requires Run(states, ops) && i < |states|
    ensures Inv(states[i], paths)
    decreases i
  {
    hide Inv, Apply;
    if i == 0 {
      paths := map[];
      assert Inv(states[0], paths) by { EmptyInv(); }
    } else {
      var before := RunInv(states, ops, i - 1);
      assert Enabled(states[i - 1], ops[i - 1]);
      paths := StepInv(states[i - 1], before, ops[i - 1]);
    }
  }

  lemma EmptyInv()
    ensures Inv(State(map[], map[]), map[])
  {
  }

  /** Reference conservation over every interleaving: the process references of a queue are exactly
      the io contexts whose merge chain passes through it.  Hence every queue on the chain of a
      referenced queue is live, no chain revisits a queue, the process-reference assertion holds,
      and a queue freed by its last reference has no request left. */
  lemma Conservation(states: seq<State>, ops: seq<Op>, i: nat)
    requires Run(states, ops) && i < |states|
    ensures var s := states[i];
            && (forall q :: q in s.queues ==> s.queues[q].ref > 0 && ProcessRefs(s.queues[q]) == |ChainUsers(s, q)|)
            && (forall q :: q in s.queues && ProcessRefs(s.queues[q]) != 0 ==> HasChain(s.queues, q))
            && (forall c :: c in s.cics ==> s.cics[c] in s.queues && HasChain(s.queues, s.cics[c]))
            && (forall c, q :: c in s.cics && OnChain(s.queues, s.cics[c], q) ==>
                  q in s.queues && (s.queues[q].ref == 1 ==> s.queues[q].rqs == 0))
    ensures Acyclic(states[i].queues)
    ensures forall op :: Enabled(states[i], op) ==> Walkable(states[i], op)
  {
    hide Run, Acyclic, HasChain, Walkable, OnChain, Inv, ProcessRefs, ChainUsers, Enabled;
    var s := states[i];
    var paths := RunInv(states, ops, i);
    forall q | q in s.queues
      ensures s.queues[q].ref > 0 && ProcessRefs(s.queues[q]) == |ChainUsers(s, q)|
      ensures ProcessRefs(s.queues[q]) != 0 ==> HasChain(s.queues, q)
    {
      QueueCounted(s, paths, q);
    }
    forall c | c in s.cics ensures s.cics[c] in s.queues && HasChain(s.queues, s.cics[c]) {
      ContextChained(s, paths, c);
    }
    forall c, q | c in s.cics && OnChain(s.queues, s.cics[c], q)
      ensures q in s.queues && (s.queues[q].ref == 1 ==> s.queues[q].rqs == 0)
    {
      OnChainLive(s, paths, c, q);
    }
    forall op | Enabled(s, op) ensures Walkable(s, op) {
      AlwaysWalkable(s, paths, op);
    }
    AlwaysAcyclic(states, ops, i);
  }

  lemma QueueCounted(s: State, paths: Paths, q: QueueId)
    requires Inv(s, paths) && q in s.queues
    ensures s.queues[q].ref > 0 && ProcessRefs(s.queues[q]) == |ChainUsers(s, q)|
    ensures ProcessRefs(s.queues[q]) != 0 ==> HasChain(s.queues, q)
  {
    hide IsChain, HasChain;
    UsersAreChainUsers(s, paths, q);
    if ProcessRefs(s.queues[q]) != 0 { ReferencedHasChain(s, paths, q); }
  }

  lemma ContextChained(s: State, paths: Paths, c: CicId)
    requires Inv(s, paths) && c in s.cics
    ensures s.cics[c] in s.queues && HasChain(s.queues, s.cics[c])
  {
    hide IsChain, HasChain;
    ChainHead(s.queues, paths[c]);
    UsedHasChain(s, paths, c, s.cics[c]);
  }

  lemma OnChainLive(s: State, paths: Paths, c: CicId, q: QueueId)
    requires Inv(s, paths) && c in s.cics && OnChain(s.queues, s.cics[c], q)
    ensures q in s.queues && (s.queues[q].ref == 1 ==> s.queues[q].rqs == 0)
  {
    hide IsChain;
    UsersAreChainUsers(s, paths, q);
    assert c in ChainUsers(s, q);
    ChainMembers(s.queues, paths[c]);
    assert |Users(paths, q)| > 0;
  }

  // ---------------------------------------------------------------- in place

  lemma {:induction false} PutAllSnoc(queues: Queues, p: seq<QueueId>, x: QueueId)
    requires forall i :: 0 <= i < |p| ==> p[i] in queues
    requires forall i, j :: 0 <= i < j < |p| ==> p[i] != p[j]
    requires x in queues && x !in p
    ensures (forall i :: 0 <= i < |p + [x]| ==> (p + [x])[i] in queues) && x in PutAll(queues, p)
    ensures PutAll(queues, p + [x]) == Put(PutAll(queues, p), x)
    decreases |p|
  {
    PutAllResult(queues, p, x);
    if p == [] {
      assert p + [x] == [x] && [x][1..] == [];
    } else {
      assert (p + [x])[1..] == p[1..] + [x];
      PutAllSnoc(Put(queues, p[0]), p[1..], x);
    }
  }

  /** A series of steps. */
  ghost predicate Steps(s: State, ops: seq<Op>, t: State)
    decreases |ops|
  {
    if ops == [] then s == t
    else Enabled(s, ops[0]) && Walkable(s, ops[0]) && Steps(Apply(s, ops[0]), ops[1..], t)
  }

  lemma {:induction false} StepsAppend(s: State, ops: seq<Op>, t: State, op: Op)
    requires Steps(s, ops, t) && Enabled(t, op) && Walkable(t, op)
    ensures Steps(s, ops + [op], Apply(t, op))
    decreases |ops|
  {
    hide Enabled, Walkable, Apply;
    if ops == [] {
      assert (ops + [op])[1..] == [];
    } else {
      assert (ops + [op])[1..] == ops[1..] + [op];
      StepsAppend(Apply(s, ops[0]), ops[1..], t, op);
    }
  }

  /** The scheduler's view of its sync queues, updated in place. */
  class CfqData {
    var queues: Queues
    var cics: map<CicId, QueueId>
    ghost var paths: Paths

    ghost function View(): State
      reads this
    {
      State(queues, cics)
    }

    ghost predicate Valid()
      reads this
    {
      Inv(View(), paths)
    }

    constructor ()
      ensures Valid() && View() == State(map[], map[])
    {
      queues, cics, paths := map[], map[], map[];
      EmptyInv();
    }

    method PutQueue(q: QueueId)
      requires q in queues
      modifies this`queues
      ensures queues == old(Put(queues, q))
    {
      var ref := queues[q].ref - 1;
      if ref == 0 {
        queues := queues - {q};
      } else {
        queues := queues[q := queues[q].(ref := ref)];
      }
    }

    /** `cfq_setup_merge` */
    method SetupMergeWith(a: QueueId, b: QueueId)
      requires Valid() && Enabled(View(), SetupMerge(a, b))
      modifies this
      ensures Valid() && old(Walkable(View(), SetupMerge(a, b))) && View() == old(Apply(View(), SetupMerge(a, b)))
    {
      hide IsChain, Inv, HasChain;
      ghost var s := View();
      AlwaysWalkable(s, paths, SetupMerge(a, b));
      ghost var after := SetupMergeInv(s, paths, a, b);
      if queues[b].ref - queues[b].rqs == 0 { return; }
      ghost var p := Chain(queues, b);
      ghost var k := 0;
      var t := b;
      ChainHead(queues, p);
      while queues[t].next.Some?
        invariant IsChain(queues, p) && k < |p| && t == p[k] && t in queues && queues[t].next == After(p, k)
        invariant a !in p[1..k + 1]
        invariant View() == s && paths == old(paths)
        decreases |p| - k
      {
        var x := queues[t].next.value;
        assert p[1..k + 2] == p[1..k + 1] + [x];
        if x == a {
          assert a in p[1..k + 2];
          assert a in p[1..];
          paths := after;
          return;
        }
        t := x;
        k := k + 1;
        ChainStep(queues, p, k);
      }
      assert p[1..k + 1] == p[1..];
      var refs := queues[a].ref - queues[a].rqs;
      var newRefs := queues[t].ref - queues[t].rqs;
      paths := after;
      if refs == 0 || newRefs == 0 { return; }
      if newRefs >= refs {
        queues := queues[a := queues[a].(next := Some(t))];
        queues := queues[t := queues[t].(ref := queues[t].ref + refs)];
      } else {
        queues := queues[t := queues[t].(next := Some(a))];
        queues := queues[a := queues[a].(ref := queues[a].ref + newRefs)];
      }
    }

    /** `cfq_put_cooperator` and the final put of its callers: the chain is read one step ahead,
        because dropping a reference may free the queue. */
    method PutChain(q: QueueId, ghost p: seq<QueueId>)
      requires IsChain(queues, p) && p[0] == q
      modifies this`queues
      ensures old(PutOk(queues, p[1..] + [p[0]])) && queues == old(PutAll(queues, p[1..] + [p[0]]))
    {
      hide IsChain, PutAll;
      ghost var q0 := queues;
      ghost var k := 1;
      ChainHead(q0, p);
      var cur := queues[q].next;
      assert PutAll(q0, p[1..1]) == q0 by { PutNothing(q0, p[1..1]); }
      while cur.Some?
        invariant 1 <= k <= |p| && cur == After(p, k - 1) && PutOk(q0, p[1..k])
        invariant queues == PutAll(q0, p[1..k])
        decreases |p| - k
      {
        var x := cur.value;
        PutStep(q0, p, k);
        cur := queues[x].next;
        PutQueue(x);
        k := k + 1;
      }
      assert p[1..k] == p[1..];
      PutHead(q0, p);
      PutQueue(q);
    }

    /** The context gives up its sync queue. */
    method LeaveQueue(c: CicId)
      requires Valid() && c in cics
      modifies this
      ensures Valid() && old(HasChain(queues, cics[c])) && View() == old(Leave(View(), c))
    {
      hide IsChain, RefsOk, HasChain;
      ghost var s := View();
      ChainHead(queues, paths[c]);
      UsedHasChain(s, paths, c, cics[c]);
      LeaveInv(s, paths, c);
      ghost var p := Chain(queues, cics[c]);
      PutChain(cics[c], p);
      cics := cics - {c};
      paths := paths - {c};
    }

    /** `split_cfqq`: the last process keeps the queue. */
    method SplitQueue(c: CicId) returns (kept: bool)
      requires Valid() && c in cics
      modifies this
      ensures Valid() && kept == (old(cics[c] in queues && ProcessRefs(queues[cics[c]]) == 1))
      ensures kept ==> View() == old(View())
      ensures !kept ==> old(HasChain(queues, cics[c])) && View() == old(Leave(View(), c))
    {
      hide IsChain, RefsOk, HasChain;
      ChainHead(queues, paths[c]);
      kept := queues[cics[c]].ref - queues[cics[c]].rqs == 1;
      if !kept {
        LeaveQueue(c);
      }
    }

    /** `cfq_merge_cfqqs` */
    method MergeQueue(c: CicId)
      requires Valid() && Enabled(View(), Merge(c))
      modifies this
      ensures Valid() && View() == old(Apply(View(), Merge(c))) && c in cics
    {
      hide IsChain, RefsOk;
      ChainHead(queues, paths[c]);
      MergeInv(View(), paths, c);
      paths := paths[c := paths[c][1..]];
      var q := cics[c];
      cics := cics[c := queues[q].next.value];
      PutQueue(q);
    }

    /** `cfq_set_request`: a seeky shared queue is broken apart, a context without a queue gets a
        new one, otherwise a scheduled merge is carried out by one step, and the request takes a
        reference. */
    method SetRequest(c: CicId, newId: QueueId, seeky: bool) returns (ghost ops: seq<Op>)
      requires Valid() && newId !in queues
      modifies this
      ensures Valid() && c in cics && cics[c] in queues && queues[cics[c]].rqs > 0
      ensures Steps(old(View()), ops, View())
      ensures forall op :: op in ops ==> op in {Split(c), NewQueue(c, newId), Merge(c), Alloc(c)}
      ensures |ops| > 0 && ops[|ops| - 1] == Alloc(c) && Alloc(c) !in ops[..|ops| - 1]
    {
      hide IsChain, RefsOk, Apply, HasChain, Leave, Walkable;
      ops := [];
      if c in cics && seeky {
        ghost var s := View();
        ChainHead(queues, paths[c]);
        AlwaysWalkable(s, paths, Split(c));
        var kept := SplitQueue(c);
        ApplySplit(s, c);
        if !kept {
          assert newId !in queues && c !in cics by { LeaveQueues(s, c, newId); LeaveCics(s, c); }
        }
        ops := [Split(c)];
        OneStep(s, Split(c));
      }
      if c !in cics {
        ghost var s := View();
        FreshQueue(c, newId);
        StepsAppend(old(View()), ops, s, NewQueue(c, newId));
        ops := ops + [NewQueue(c, newId)];
      } else {
        ChainHead(queues, paths[c]);
        if queues[cics[c]].next.Some? {
          ghost var s := View();
          ApplyMerge(s, c);
          MergeQueue(c);
          StepsAppend(old(View()), ops, s, Merge(c));
          ops := ops + [Merge(c)];
        }
      }
      ghost var s := View();
      AllocRequest(c);
      StepsAppend(old(View()), ops, s, Alloc(c));
      ops := ops + [Alloc(c)];
    }

    /** A context without a queue gets a new one. */
    method FreshQueue(c: CicId, newId: QueueId)
      requires Valid() && c !in cics && newId !in queues
      modifies this
      ensures Valid() && Enabled(old(View()), NewQueue(c, newId)) && View() == Apply(old(View()), NewQueue(c, newId))
      ensures Walkable(old(View()), NewQueue(c, newId)) && c in cics
    {
      hide IsChain, RefsOk, Apply, HasChain;
      NewQueueInv(View(), paths, c, newId);
      ApplyNew(View(), c, newId);
      queues := queues[newId := Queue(1, 0, None)];
      cics := cics[c := newId];
      paths := paths[c := [newId]];
    }

    /** The request takes its reference. */
    method AllocRequest(c: CicId)
      requires Valid() && c in cics
      modifies this
      ensures Valid() && Enabled(old(View()), Alloc(c)) && View() == Apply(old(View()), Alloc(c))
      ensures Walkable(old(View()), Alloc(c)) && c in cics && cics[c] in queues && queues[cics[c]].rqs > 0
    {
      hide IsChain, RefsOk, Apply, HasChain;
      ChainHead(queues, paths[c]);
      AllocInv(View(), paths, c);
      ApplyAlloc(View(), c);
      var q := cics[c];
      queues := queues[q := queues[q].(ref := queues[q].ref + 1, rqs := queues[q].rqs + 1)];
    }

    /** `cfq_put_request` */
    method PutRequest(q: QueueId)
      requires Valid() && Enabled(View(), Release(q))
      modifies this
      ensures Valid() && View() == old(Apply(View(), Release(q)))
    {
      hide IsChain, RefsOk;
      ReleaseInv(View(), paths, q);
      queues := queues[q := queues[q].(rqs := queues[q].rqs - 1)];
      PutQueue(q);
    }
  }

  ghost predicate PutOk(queues: Queues, p: seq<QueueId>) {
    (forall i :: 0 <= i < |p| ==> p[i] in queues) && (forall i, j :: 0 <= i < j < |p| ==> p[i] != p[j])
  }

  lemma PutNothing(queues: Queues, p: seq<QueueId>)
    requires p == []
    ensures PutOk(queues, p) && PutAll(queues, p) == queues
  {
  }

  lemma PutStep(queues: Queues, p: seq<QueueId>, k: nat)
    requires IsChain(queues, p) && 1 <= k < |p| && PutOk(queues, p[1..k])
    ensures PutOk(queues, p[1..k + 1])
    ensures p[k] in PutAll(queues, p[1..k]) && PutAll(queues, p[1..k])[p[k]].next == After(p, k)
    ensures PutAll(queues, p[1..k + 1]) == Put(PutAll(queues, p[1..k]), p[k])
  {
    assert queues[p[k]].next == After(p, k);
    assert p[k] !in p[1..k];
    PutAllResult(queues, p[1..k], p[k]);
    PutAllSnoc(queues, p[1..k], p[k]);
    assert p[1..k] + [p[k]] == p[1..k + 1];
  }

  lemma PutHead(queues: Queues, p: seq<QueueId>)
    requires IsChain(queues, p)
    ensures PutOk(queues, p[1..]) && PutOk(queues, p[1..] + [p[0]])
    ensures p[0] in PutAll(queues, p[1..]) && PutAll(queues, p[1..] + [p[0]]) == Put(PutAll(queues, p[1..]), p[0])
  {
    assert p[0] !in p[1..];
    PutAllSnoc(queues, p[1..], p[0]);
  }

  lemma ApplySplit(s: State, c: CicId)
    requires Enabled(s, Split(c)) && Walkable(s, Split(c)) && HasChain(s.queues, s.cics[c])
    ensures Apply(s, Split(c)) == if ProcessRefs(s.queues[s.cics[c]]) == 1 then s else Leave(s, c)
  {
  }

  lemma ApplyMerge(s: State, c: CicId)
    requires Enabled(s, Merge(c))
    ensures Walkable(s, Merge(c))
  {
  }

  lemma OneStep(s: State, op: Op)
    requires Enabled(s, op) && Walkable(s, op)
    ensures Steps(s, [op], Apply(s, op))
  {
    assert [op][1..] == [];
  }

  lemma LeaveCics(s: State, c: CicId)
    requires c in s.cics && HasChain(s.queues, s.cics[c])
    ensures Leave(s, c).cics == s.cics - {c}
  {
  }

  lemma ApplyNew(s: State, c: CicId, q: QueueId)
    requires Enabled(s, NewQueue(c, q))
    ensures Walkable(s, NewQueue(c, q))
    ensures Apply(s, NewQueue(c, q)) == State(s.queues[q := Queue(1, 0, None)], s.cics[c := q])
  {
  }

  lemma ApplyAlloc(s: State, c: CicId)
    requires Enabled(s, Alloc(c))
    ensures Walkable(s, Alloc(c))
    ensures var q := s.queues[s.cics[c]];
            Apply(s, Alloc(c)) == s.(queues := s.queues[s.cics[c] := q.(ref := q.ref + 1, rqs := q.rqs + 1)])
  {
  }

  lemma ChainStep(queues: Queues, p: seq<QueueId>, k: nat)
    requires IsChain(queues, p) && k < |p|
    ensures p[k] in queues && queues[p[k]].next == After(p, k)
  {
  }
}
