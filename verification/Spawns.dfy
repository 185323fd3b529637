/** Removing the instances built on a replaced algorithm.

    Every algorithm keeps the list of the spawns built on it.  The code walks the dependency tree
    below `alg` with an explicit stack, detaching spawns as it goes, and puts back what leads to
    the replacement `nalg`.  Here each instance holds exactly one spawn, so a spawn is named by its
    instance. */
module Spawns {
  import opened Lists
  import opened Options

  type Alg = nat

  /** The tree before the call: who is built on whom, and which users of `alg` are skipped because
      their type mask does not match. */
  datatype Tree = Tree(
    alg: Alg,
    nalg: Option<Alg>,
    skip: set<Alg>,
    users: map<Alg, seq<Alg>>,
    parent: map<Alg, Alg>,
    rank: map<Alg, nat>)

  /** A finite dependency tree: the user lists and the spawns' pointers agree, and an instance ranks
      above what it is built on. */
  ghost predicate WellFormed(t: Tree) {
    && t.alg in t.users
    && (forall a :: a in t.users ==> Distinct(t.users[a]))
    && (forall x :: x in t.parent ==> x in t.users && x in t.rank && t.parent[x] in t.users && t.parent[x] in t.rank
                                      && t.rank[t.parent[x]] < t.rank[x])
    && (forall a, x :: a in t.users ==> (x in t.users[a] <==> x in t.parent && t.parent[x] == a))
  }

  /** Transitively built on a selected user of `alg`, without passing through `nalg`. */
  ghost predicate Built(t: Tree, x: Alg)
    requires WellFormed(t)
    decreases if x in t.rank then t.rank[x] else 0
  {
    && x in t.parent
    && (if t.parent[x] == t.alg then x !in t.skip
        else Some(t.parent[x]) != t.nalg && Built(t, t.parent[x]))
  }

  /** On the way from `alg` down to `y`. */
  ghost predicate Above(t: Tree, x: Alg, y: Alg)
    requires WellFormed(t)
    decreases if y in t.rank then t.rank[y] else 0
  {
    x == y || (y in t.parent && t.parent[y] != t.alg && Above(t, x, t.parent[y]))
  }

  /** `nalg` itself and the instances between `alg` and `nalg`. */
  ghost predicate Kept(t: Tree, x: Alg)
    requires WellFormed(t)
  {
    t.nalg.Some? && Built(t, t.nalg.value) && Above(t, x, t.nalg.value)
  }

  lemma {:induction false} AboveBuilt(t: Tree, x: Alg, y: Alg)
    requires WellFormed(t) && Built(t, y) && Above(t, x, y)
    ensures Built(t, x)
    decreases if y in t.rank then t.rank[y] else 0
  {
    if x != y {
      AboveBuilt(t, x, t.parent[y]);
    }
  }

  lemma KeptBuilt(t: Tree, x: Alg)
    requires WellFormed(t) && Kept(t, x)
    ensures Built(t, x)
  {
    AboveBuilt(t, x, t.nalg.value);
  }

  /** A kept instance other than `nalg` has exactly one kept child, and only kept ones have any. */
  lemma {:induction false} AboveChild(t: Tree, x: Alg, y: Alg) returns (c: Alg)
    requires WellFormed(t) && Built(t, y) && Above(t, x, y) && x != y
    ensures c in t.parent && t.parent[c] == x && Above(t, c, y) && x != t.alg
    decreases if y in t.rank then t.rank[y] else 0
  {
    if t.parent[y] == x {
      c := y;
    } else {
      c := AboveChild(t, x, t.parent[y]);
    }
  }

  lemma {:induction false} AboveRank(t: Tree, x: Alg, y: Alg)
    requires WellFormed(t) && Above(t, x, y) && x != y
    ensures x in t.rank && y in t.rank && t.rank[x] < t.rank[y]
    decreases if y in t.rank then t.rank[y] else 0
  {
    if t.parent[y] != x {
      AboveRank(t, x, t.parent[y]);
    }
  }

  lemma {:induction false} AboveParent(t: Tree, c: Alg, y: Alg)
    requires WellFormed(t) && Above(t, c, y) && c in t.parent && t.parent[c] != t.alg
    ensures Above(t, t.parent[c], y)
    decreases if y in t.rank then t.rank[y] else 0
  {
    if c != y {
      AboveParent(t, c, t.parent[y]);
    }
  }

  lemma {:induction false} OneChild(t: Tree, c: Alg, d: Alg, y: Alg)
    requires WellFormed(t) && Above(t, c, y) && Above(t, d, y)
    requires c in t.parent && d in t.parent && t.parent[c] == t.parent[d]
    ensures c == d
    decreases if y in t.rank then t.rank[y] else 0
  {
    if c != y && d != y {
      OneChild(t, c, d, t.parent[y]);
    } else if c != d {
      if c == y { AboveRank(t, d, y); SiblingNotAbove(t, d, y); } else { AboveRank(t, c, y); SiblingNotAbove(t, c, y); }
    }
  }

  /** No instance is on the way to its own sibling. */
  lemma SiblingNotAbove(t: Tree, c: Alg, y: Alg)
    requires WellFormed(t) && c in t.parent && y in t.parent && t.parent[c] == t.parent[y] && c != y
    ensures !Above(t, c, y)
  {
    if Above(t, c, y) {
      if c != t.parent[y] {
        AboveRank(t, c, t.parent[y]);
      }
    }
  }

  lemma KeptByChild(t: Tree, x: Alg)
    requires WellFormed(t) && Some(x) != t.nalg && x != t.alg
    ensures Kept(t, x) <==> exists c :: c in t.parent && t.parent[c] == x && Kept(t, c)
  {
    if Kept(t, x) {
      var c := AboveChild(t, x, t.nalg.value);
      assert Kept(t, c);
    }
    if c :| c in t.parent && t.parent[c] == x && Kept(t, c) {
      AboveParent(t, c, t.nalg.value);
    }
  }

  lemma KeptUnique(t: Tree, c: Alg, d: Alg)
    requires WellFormed(t) && Kept(t, c) && Kept(t, d) && c in t.parent && d in t.parent && t.parent[c] == t.parent[d]
    ensures c == d
  {
    OneChild(t, c, d, t.nalg.value);
  }

  // ---------------------------------------------------------------- the walk

  /** The lists and pointers while the tree is walked; `owner` is the spawn's `alg` pointer. */
  datatype Walk = Walk(
    users: map<Alg, seq<Alg>>,
    owner: map<Alg, Option<Alg>>,
    top: seq<Alg>,
    stack: seq<Alg>,
    done: seq<Alg>)          // secondary_spawns

  /** The users of `alg` that stay where they are. */
  function Unselected(skip: set<Alg>, users: seq<Alg>): seq<Alg> {
    if users == [] then []
    else (if users[0] in skip then [users[0]] else []) + Unselected(skip, users[1..])
  }

  /** The spawns that point at an algorithm. */
  function Attached(owner: map<Alg, Option<Alg>>): map<Alg, Alg> {
    map x | x in owner && owner[x].Some? :: owner[x].value
  }

  ghost predicate Visited(w: Walk, x: Alg) { x in w.stack || x in w.done }

  /** The list on which the users of `a` are looked for. */
  function ListFor(t: Tree, w: Walk, a: Alg): seq<Alg> {
    if a == t.alg then w.top else if a in w.users then w.users[a] else []
  }

  function Cursor(t: Tree, stack: seq<Alg>): Alg { if stack == [] then t.alg else stack[0] }

  ghost predicate UsersOk(t: Tree, w: Walk, a: Alg)
    requires a in w.users && a in t.users
  {
    && Distinct(w.users[a])
    && (a == t.alg ==> w.users[a] == Unselected(t.skip, t.users[a]))
    && (a != t.alg ==>
          if Visited(w, a) && Some(a) != t.nalg then forall x :: x in w.users[a] ==> x in t.users[a]
          else w.users[a] == t.users[a])
    && (a in w.done && Some(a) != t.nalg ==> w.users[a] == [])
  }

  ghost predicate ListsOk(t: Tree, w: Walk)
    requires WellFormed(t)
  {
    && w.users.Keys == t.users.Keys
    && Distinct(w.top) && (forall x :: x in w.top ==> x in t.parent && t.parent[x] == t.alg && x !in t.skip)
    && (forall a :: a in w.users ==> UsersOk(t, w, a))
    && (forall x :: Built(t, x) ==> (Visited(w, x) <==> x !in ListFor(t, w, t.parent[x])))
  }

  /** What lies under position `i` of the stack. */
  function Under(t: Tree, stack: seq<Alg>, i: nat): Alg {
    if i + 1 < |stack| then stack[i + 1] else t.alg
  }

  ghost predicate StackOk(t: Tree, w: Walk)
    requires WellFormed(t)
  {
    && Distinct(w.stack) && Distinct(w.done)
    && (forall x :: x in w.stack ==> x !in w.done && Built(t, x))
    && (forall x :: x in w.done ==> Built(t, x))
    && (forall i :: 0 <= i < |w.stack| ==> w.stack[i] in t.parent && t.parent[w.stack[i]] == Under(t, w.stack, i))
    && (forall i :: 0 < i < |w.stack| ==> Some(w.stack[i]) != t.nalg)
  }

  ghost predicate KeptChildDone(t: Tree, done: seq<Alg>, x: Alg)
    requires WellFormed(t)
  {
    exists c :: c in done && c in t.parent && t.parent[c] == x && Kept(t, c)
  }

  ghost predicate OwnerOk(t: Tree, w: Walk, x: Alg)
    requires WellFormed(t) && x in t.parent && x in w.owner
  {
    && (!Visited(w, x) || Some(x) == t.nalg ==> w.owner[x] == Some(t.parent[x]))
    && (x in w.done ==> w.owner[x] == if Kept(t, x) then Some(t.parent[x]) else None)
    && (x in w.stack && Some(x) != t.nalg ==>
          w.owner[x] == if KeptChildDone(t, w.done, x) then Some(t.parent[x]) else None)
  }

  ghost predicate Owners(t: Tree, w: Walk)
    requires WellFormed(t)
  {
    && t.parent.Keys <= w.owner.Keys && (forall x :: x in w.owner && x !in t.parent ==> w.owner[x].None?)
    && (forall x :: x in t.parent ==> OwnerOk(t, w, x))
  }

  ghost predicate Inv(t: Tree, w: Walk) {
    WellFormed(t) && ListsOk(t, w) && StackOk(t, w) && Owners(t, w)
  }

  lemma {:induction false} BuiltRank(t: Tree, x: Alg)
    requires WellFormed(t) && Built(t, x)
    ensures x != t.alg && x in t.rank && t.alg in t.rank && t.rank[t.alg] < t.rank[x]
    decreases if x in t.rank then t.rank[x] else 0
  {
    if t.parent[x] != t.alg {
      BuiltRank(t, t.parent[x]);
    }
  }

  /** What the walk finds next is an unvisited instance below the cursor. */
  lemma NextSpawn(t: Tree, w: Walk)
    requires Inv(t, w) && ListFor(t, w, Cursor(t, w.stack)) != []
    requires w.stack != [] ==> Some(w.stack[0]) != t.nalg
    ensures var x := ListFor(t, w, Cursor(t, w.stack))[0];
            && x in t.parent && t.parent[x] == Cursor(t, w.stack) && Built(t, x) && !Visited(w, x)
            && x in w.users && x != t.alg
  {
    hide Owners, Distinct, Kept;
    var a := Cursor(t, w.stack);
    var l := ListFor(t, w, a);
    var x := l[0];
    assert x in l;
    if w.stack != [] {
      CursorBuilt(t, w);
      assert UsersOk(t, w, a);
      assert x in t.users[a];
    }
    hide StackOk, UsersOk;
    assert x in t.parent && t.parent[x] == a;
    assert Built(t, x);
    BuiltRank(t, x);
  }

  lemma CursorBuilt(t: Tree, w: Walk)
    requires WellFormed(t) && StackOk(t, w) && w.stack != []
    ensures Built(t, w.stack[0]) && w.stack[0] in w.stack && w.stack[0] != t.alg && w.stack[0] in t.users
  {
    hide Distinct;
    assert w.stack[0] in w.stack;
    BuiltRank(t, w.stack[0]);
  }

  /** Move the spawn to the stack; unless it belongs to `nalg`, forget what it is built on. */
  function Push(t: Tree, w: Walk): Walk
    requires ListFor(t, w, Cursor(t, w.stack)) != []
  {
    var a := Cursor(t, w.stack);
    var l := ListFor(t, w, a);
    var x := l[0];
    var w1 := if a == t.alg then w.(top := l[1..]) else w.(users := w.users[a := l[1..]]);
    w1.(stack := [x] + w.stack, owner := if Some(x) == t.nalg then w.owner else w.owner[x := None])
  }

  /** The list the cursor points at loses its head. */
  lemma CursorList(t: Tree, w: Walk)
    requires Inv(t, w) && ListFor(t, w, Cursor(t, w.stack)) != []
    ensures var l := ListFor(t, w, Cursor(t, w.stack));
            Distinct(l[1..]) && l[0] !in l[1..] && forall y :: y in l <==> y == l[0] || y in l[1..]
  {
    hide Owners, StackOk, Built;
    var a := Cursor(t, w.stack);
    var l := ListFor(t, w, a);
    if a != t.alg { assert UsersOk(t, w, a); }
    assert l == [l[0]] + l[1..];
  }

  lemma PushUsers(t: Tree, w: Walk, b: Alg)
    requires Inv(t, w) && ListFor(t, w, Cursor(t, w.stack)) != [] && b in w.users
    requires w.stack != [] ==> Some(w.stack[0]) != t.nalg
    ensures b in Push(t, w).users && UsersOk(t, Push(t, w), b)
  {
    hide Owners, Built, Kept, WellFormed, Distinct;
    NextSpawn(t, w);
    CursorList(t, w);
    assert UsersOk(t, w, b);
  }

  lemma PushVisited(t: Tree, w: Walk, y: Alg)
    requires Inv(t, w) && ListFor(t, w, Cursor(t, w.stack)) != [] && Built(t, y)
    requires w.stack != [] ==> Some(w.stack[0]) != t.nalg
    ensures y in t.parent && (Visited(Push(t, w), y) <==> y !in ListFor(t, Push(t, w), t.parent[y]))
  {
    hide Owners, Built, Kept, WellFormed, Distinct, UsersOk, StackOk;
    NextSpawn(t, w);
    CursorList(t, w);
    BuiltParent(t, y);
    assert Visited(w, y) <==> y !in ListFor(t, w, t.parent[y]);
  }

  lemma PushLists(t: Tree, w: Walk)
    requires Inv(t, w) && ListFor(t, w, Cursor(t, w.stack)) != []
    requires w.stack != [] ==> Some(w.stack[0]) != t.nalg
    ensures ListsOk(t, Push(t, w))
  {
    hide Owners, Built, Kept, WellFormed, UsersOk, Visited, StackOk, Distinct;
    NextSpawn(t, w);
    CursorList(t, w);
    var w' := Push(t, w);
    forall b | b in w'.users ensures UsersOk(t, w', b) {
      PushUsers(t, w, b);
    }
    forall y | Built(t, y) ensures y in t.parent && (Visited(w', y) <==> y !in ListFor(t, w', t.parent[y])) {
      PushVisited(t, w, y);
    }
  }

  lemma BuiltParent(t: Tree, x: Alg)
    requires WellFormed(t) && Built(t, x)
    ensures x in t.parent && t.parent[x] in t.users && x in t.users
  {
  }

  lemma PushStack(t: Tree, w: Walk)
    requires Inv(t, w) && ListFor(t, w, Cursor(t, w.stack)) != []
    requires w.stack != [] ==> Some(w.stack[0]) != t.nalg
    ensures StackOk(t, Push(t, w))
  {
    hide Owners, Built, Kept, WellFormed, ListsOk;
    NextSpawn(t, w);
    var s, s' := w.stack, Push(t, w).stack;
    forall i | 0 <= i < |s'| ensures s'[i] in t.parent && t.parent[s'[i]] == Under(t, s', i) {
      if i > 0 {
        assert s'[i] == s[i - 1] && Under(t, s', i) == Under(t, s, i - 1);
      }
    }
  }

  lemma PushOwners(t: Tree, w: Walk)
    requires Inv(t, w) && ListFor(t, w, Cursor(t, w.stack)) != []
    requires w.stack != [] ==> Some(w.stack[0]) != t.nalg
    ensures Owners(t, Push(t, w))
  {
    hide StackOk, Built, Kept, WellFormed;
    NextSpawn(t, w);
    var w' := Push(t, w);
    var x := w'.stack[0];
    forall y | y in t.parent ensures OwnerOk(t, w', y) {
      assert OwnerOk(t, w, y);
      if y == x && Some(x) != t.nalg {
        assert !KeptChildDone(t, w.done, x) by { NoChildDone(t, w, x); }
      }
    }
  }

  /** Below an unvisited instance nothing has been visited. */
  lemma NoChildDone(t: Tree, w: Walk, x: Alg)
    requires WellFormed(t) && ListsOk(t, w) && x in w.users && x != t.alg && !Visited(w, x)
    ensures !KeptChildDone(t, w.done, x)
  {
    assert UsersOk(t, w, x);
    forall c | c in t.parent && t.parent[c] == x && Kept(t, c) ensures c !in w.done {
      KeptBuilt(t, c);
      assert Visited(w, c) <==> c !in ListFor(t, w, x);
    }
  }

  // ---------------------------------------------------------------- popping

  /** `crypto_more_spawns`: the top of the stack is finished; if it is kept, so is what it is
      built on, and the pointer of the spawn below is restored from the stack. */
  function Pop(t: Tree, w: Walk): Walk
    requires w.stack != []
  {
    var x := w.stack[0];
    var owner :=
      if |w.stack| > 1 && x in w.owner && w.owner[x].Some? && w.stack[1] in w.owner && w.owner[w.stack[1]].None?
      then w.owner[w.stack[1] := Some(Under(t, w.stack, 1))] else w.owner;
    w.(owner := owner, stack := w.stack[1..], done := [x] + w.done)
  }

  /** The top of the stack has no user left to visit, or is `nalg`. */
  ghost predicate Exhausted(t: Tree, w: Walk) {
    w.stack != [] ==> Some(w.stack[0]) == t.nalg || ListFor(t, w, w.stack[0]) == []
  }

  lemma StackMembers(w: Walk, x: Alg)
    requires w.stack != []
    ensures x in w.stack <==> x == w.stack[0] || x in w.stack[1..]
  {
    assert w.stack == [w.stack[0]] + w.stack[1..];
  }

  lemma PopVisited(t: Tree, w: Walk, x: Alg)
    requires w.stack != []
    ensures Visited(Pop(t, w), x) <==> Visited(w, x)
  {
    StackMembers(w, x);
  }

  lemma PopUsers(t: Tree, w: Walk, b: Alg)
    requires Inv(t, w) && w.stack != [] && Exhausted(t, w) && b in w.users
    ensures UsersOk(t, Pop(t, w), b)
  {
    hide Owners, Built, Kept, Distinct, WellFormed;
    assert w.stack[0] in w.stack && w.stack[0] != t.alg by { BuiltRank(t, w.stack[0]); }
    assert UsersOk(t, w, b);
    StackMembers(w, b);
  }

  lemma PopLists(t: Tree, w: Walk)
    requires Inv(t, w) && w.stack != [] && Exhausted(t, w)
    ensures ListsOk(t, Pop(t, w))
  {
    hide Owners, Built, Kept, Distinct, Visited, UsersOk, WellFormed, StackOk;
    var w' := Pop(t, w);
    forall b | b in w'.users ensures UsersOk(t, w', b) {
      PopUsers(t, w, b);
    }
    forall y | Built(t, y) ensures y in t.parent && (Visited(w', y) <==> y !in ListFor(t, w', t.parent[y])) {
      BuiltParent(t, y);
      PopVisited(t, w, y);
      assert Visited(w, y) <==> y !in ListFor(t, w, t.parent[y]);
    }
  }

  lemma PopStack(t: Tree, w: Walk)
    requires Inv(t, w) && w.stack != []
    ensures StackOk(t, Pop(t, w))
  {
    hide Owners, Built, Kept, WellFormed, ListsOk;
    var s, s' := w.stack, Pop(t, w).stack;
    assert s[0] in s;
    forall x | x in s' ensures x in s && x != s[0] {
    }
    forall i | 0 <= i < |s'| ensures s'[i] in t.parent && t.parent[s'[i]] == Under(t, s', i) {
      assert s'[i] == s[i + 1] && Under(t, s', i) == Under(t, s, i + 1);
    }
  }

  /** A finished instance is kept exactly when one of its finished users is. */
  lemma FinishedKept(t: Tree, w: Walk)
    requires Inv(t, w) && w.stack != [] && Exhausted(t, w) && Some(w.stack[0]) != t.nalg
    ensures Kept(t, w.stack[0]) <==> KeptChildDone(t, w.done, w.stack[0])
  {
    hide Owners, Kept, WellFormed, Built, Distinct, UsersOk;
    var x := w.stack[0];
    assert x in w.stack;
    assert x != t.alg by { BuiltRank(t, x); }
    KeptByChild(t, x);
    if Kept(t, x) {
      var c :| c in t.parent && t.parent[c] == x && Kept(t, c);
      KeptBuilt(t, c);
      assert Visited(w, c) by { assert c !in ListFor(t, w, x); }
      ChildNotOnStack(t, w, c);
    }
  }

  /** Nothing on the stack is built on its top. */
  lemma ChildNotOnStack(t: Tree, w: Walk, c: Alg)
    requires WellFormed(t) && StackOk(t, w) && w.stack != [] && c in t.parent && t.parent[c] == w.stack[0]
    requires w.stack[0] != t.alg
    ensures c !in w.stack
  {
    forall i | 0 <= i < |w.stack| ensures w.stack[i] != c {
      assert t.parent[w.stack[i]] == Under(t, w.stack, i);
      assert i + 1 < |w.stack| ==> w.stack[0] != w.stack[i + 1];
    }
  }

  lemma PopOwnerTop(t: Tree, w: Walk)
    requires Inv(t, w) && w.stack != [] && Exhausted(t, w)
    ensures var x := w.stack[0];
            x in t.parent && x in w.owner && w.owner[x] == (if Kept(t, x) then Some(t.parent[x]) else None)
  {
    hide ListsOk, Kept, WellFormed, Built;
    var x := w.stack[0];
    assert x in w.stack && x in t.parent;
    assert OwnerOk(t, w, x);
    if Some(x) == t.nalg {
      assert Kept(t, x) by { NalgKept(t, x); }
    } else {
      FinishedKept(t, w);
    }
  }

  lemma NalgKept(t: Tree, x: Alg)
    requires WellFormed(t) && Some(x) == t.nalg && Built(t, x)
    ensures Kept(t, x)
  {
  }

  lemma KeptChildDonePop(t: Tree, done: seq<Alg>, x: Alg, y: Alg)
    requires WellFormed(t) && x in t.parent
    ensures KeptChildDone(t, [x] + done, y) <==> KeptChildDone(t, done, y) || (t.parent[x] == y && Kept(t, x))
  {
    hide Kept;
    assert forall c :: c in [x] + done <==> c == x || c in done;
  }

  lemma PopOwners(t: Tree, w: Walk, y: Alg)
    requires Inv(t, w) && w.stack != [] && Exhausted(t, w) && y in t.parent
    ensures y in Pop(t, w).owner && OwnerOk(t, Pop(t, w), y)
  {
    hide ListsOk, Kept, WellFormed, Built, KeptChildDone, Distinct;
    var w' := Pop(t, w);
    var x := w.stack[0];
    PopOwnerTop(t, w);
    assert OwnerOk(t, w, y);
    PopVisited(t, w, y);
    StackMembers(w, y);
    KeptChildDonePop(t, w.done, x, y);
    assert t.parent[x] == Under(t, w.stack, 0);
    if |w.stack| > 1 {
      assert t.parent[w.stack[1]] == Under(t, w.stack, 1);
      assert w.stack[1] in w.stack;
    }
    if y in w'.stack {
      assert y != t.alg by { BuiltRank(t, y); }
      assert y != x by { StackNoRepeat(w); }
    }
  }

  lemma StackNoRepeat(w: Walk)
    requires w.stack != [] && Distinct(w.stack)
    ensures w.stack[0] !in w.stack[1..]
  {
  }

  lemma PopInv(t: Tree, w: Walk)
    requires Inv(t, w) && w.stack != [] && Exhausted(t, w)
    ensures Inv(t, Pop(t, w))
  {
    hide ListsOk, StackOk, OwnerOk, WellFormed;
    PopLists(t, w);
    PopStack(t, w);
    PopKeys(t, w);
    forall y | y in t.parent ensures OwnerOk(t, Pop(t, w), y) {
      PopOwners(t, w, y);
    }
  }

  lemma PopKeys(t: Tree, w: Walk)
    requires Inv(t, w) && w.stack != []
    ensures Pop(t, w).owner.Keys == w.owner.Keys
    ensures forall x :: x in w.owner && x !in t.parent ==> Pop(t, w).owner[x] == w.owner[x]
  {
    hide OwnerOk, ListsOk;
  }

  lemma PushInv(t: Tree, w: Walk)
    requires Inv(t, w) && ListFor(t, w, Cursor(t, w.stack)) != []
    requires w.stack != [] ==> Some(w.stack[0]) != t.nalg
    ensures Inv(t, Push(t, w))
  {
    hide ListsOk, StackOk, Owners, WellFormed;
    PushLists(t, w);
    PushStack(t, w);
    PushOwners(t, w);
  }

  // ---------------------------------------------------------------- start and end of the walk

  lemma {:induction false} UnselectedMembers(skip: set<Alg>, s: seq<Alg>, x: Alg)
    ensures x in Unselected(skip, s) <==> x in s && x in skip
  {
    if s != [] {
      UnselectedMembers(skip, s[1..], x);
      assert x in s <==> x == s[0] || x in s[1..];
    }
  }

  lemma {:induction false} UnselectedDistinct(skip: set<Alg>, s: seq<Alg>)
    requires Distinct(s)
    ensures Distinct(Unselected(skip, s))
  {
    if s != [] {
      UnselectedDistinct(skip, s[1..]);
      var u := Unselected(skip, s[1..]);
      assert s[0] !in s[1..];
      UnselectedMembers(skip, s[1..], s[0]);
      assert s[0] !in u;
    }
  }

  /** The selected users are on `top`, everything else is untouched. */
  ghost predicate Started(t: Tree, w: Walk)
    requires WellFormed(t)
  {
    && w.users == t.users[t.alg := Unselected(t.skip, t.users[t.alg])]
    && t.parent == Attached(w.owner)
    && Distinct(w.top) && (forall x :: x in w.top <==> x in t.users[t.alg] && x !in t.skip)
    && w.stack == [] && w.done == []
  }

  lemma StartInv(t: Tree, w: Walk)
    requires WellFormed(t) && Started(t, w)
    ensures Inv(t, w)
  {
    hide Kept;
    UnselectedDistinct(t.skip, t.users[t.alg]);
    assert ListsOk(t, w);
    assert Owners(t, w);
  }

  /** When nothing is left to look at, every instance below the selected users has been visited. */
  lemma {:induction false} AllVisited(t: Tree, w: Walk, x: Alg)
    requires Inv(t, w) && w.stack == [] && w.top == [] && Built(t, x)
    ensures x in w.done
    decreases if x in t.rank then t.rank[x] else 0
  {
    hide Owners, Distinct;
    var p := t.parent[x];
    if p != t.alg {
      AllVisited(t, w, p);
      assert UsersOk(t, w, p);
      assert w.users[p] == [];
    }
    assert Visited(w, x) <==> x !in ListFor(t, w, p);
  }

  // ---------------------------------------------------------------- putting back

  /** What stays on the list of `a`, not counting what is put back. */
  ghost function Base(t: Tree, a: Alg): seq<Alg>
    requires WellFormed(t) && a in t.users
  {
    if a == t.alg then Unselected(t.skip, t.users[a])
    else if Built(t, a) && Some(a) != t.nalg then []
    else t.users[a]
  }

  /** The list of `a` once the spawns `put` have been put back. */
  ghost predicate PutBack(t: Tree, put: seq<Alg>, a: Alg, l: seq<Alg>)
    requires WellFormed(t) && a in t.users
  {
    if exists c :: c in put && c in t.parent && t.parent[c] == a && Kept(t, c)
    then exists c :: c in put && c in t.parent && t.parent[c] == a && Kept(t, c) && l == [c] + Base(t, a)
    else l == Base(t, a)
  }

  lemma PutBackStart(t: Tree, w: Walk, a: Alg)
    requires Inv(t, w) && w.stack == [] && w.top == [] && a in t.users
    ensures a in w.users && PutBack(t, [], a, w.users[a])
  {
    hide Owners, Distinct, Kept;
    assert UsersOk(t, w, a);
    if Built(t, a) { AllVisited(t, w, a); BuiltRank(t, a); }
    if a in w.done { assert Built(t, a); }
  }

  lemma PutBackKept(t: Tree, put: seq<Alg>, x: Alg, a: Alg, l: seq<Alg>)
    requires WellFormed(t) && a in t.users && PutBack(t, put, a, l) && x in t.parent && Kept(t, x) && x !in put
    ensures PutBack(t, put + [x], a, if t.parent[x] == a then [x] + l else l)
  {
    hide Built;
    assert forall c :: c in put + [x] <==> c in put || c == x;
    if t.parent[x] == a {
      forall c | c in put && c in t.parent && t.parent[c] == a && Kept(t, c) ensures false {
        KeptUnique(t, c, x);
      }
      assert PutBack(t, put + [x], a, [x] + l);
    }
  }

  lemma PutBackRemoved(t: Tree, put: seq<Alg>, x: Alg, a: Alg, l: seq<Alg>)
    requires WellFormed(t) && a in t.users && PutBack(t, put, a, l) && x in t.parent && !Kept(t, x)
    ensures PutBack(t, put + [x], a, l)
  {
    hide Built, Kept;
    assert forall c :: c in put + [x] <==> c in put || c == x;
  }

  /** The assertion in `crypto_remove_spawn`: a removed instance has no users left. */
  lemma RemovedIsUnused(t: Tree, put: seq<Alg>, x: Alg, l: seq<Alg>)
    requires WellFormed(t) && x in t.users && PutBack(t, put, x, l) && Built(t, x) && !Kept(t, x)
    ensures l == []
  {
    BuiltRank(t, x);
    if Some(x) == t.nalg { NalgKept(t, x); }
    KeptByChild(t, x);
  }

  // ---------------------------------------------------------------- what the call leaves behind

  /** Exactly the instances built on the selected users that do not lead to `nalg` are gone; the
      others point where they pointed, and every list is what it was, less what is gone.  The one
      kept user of a visited algorithm is put back in front. */
  ghost predicate Settled(t: Tree, users: map<Alg, seq<Alg>>, owner: map<Alg, Option<Alg>>, done: seq<Alg>)
    requires WellFormed(t)
  {
    && users.Keys == t.users.Keys && t.parent.Keys <= owner.Keys
    && (forall x :: x in owner && x !in t.parent ==> owner[x].None?)
    && (forall x :: x in t.parent ==> owner[x] == if Built(t, x) && !Kept(t, x) then None else Some(t.parent[x]))
    && (forall x :: x in done <==> Built(t, x))
    && (forall a :: a in users ==> PutBack(t, done, a, users[a]))
  }

  lemma WalkEnds(t: Tree, w: Walk)
    requires Inv(t, w) && w.stack == [] && w.top == []
    ensures Distinct(w.done) && forall x :: x in w.done <==> Built(t, x)
    ensures forall x :: x in t.parent ==> w.owner[x] == if Built(t, x) && !Kept(t, x) then None else Some(t.parent[x])
  {
    hide ListsOk, Kept, Distinct;
    forall x ensures x in w.done <==> Built(t, x) {
      if Built(t, x) { AllVisited(t, w, x); }
    }
    forall x | x in t.parent
      ensures w.owner[x] == if Built(t, x) && !Kept(t, x) then None else Some(t.parent[x])
    {
      assert OwnerOk(t, w, x);
    }
  }

  lemma BaseMembers(t: Tree, a: Alg, x: Alg)
    requires WellFormed(t) && a in t.users
    ensures x in Base(t, a) <==> x in t.users[a] && !Built(t, x)
  {
    if a == t.alg { UnselectedMembers(t.skip, t.users[a], x); }
    if x in t.users[a] && a != t.alg && Some(a) == t.nalg { assert !Built(t, x); }
  }

  /** Which users end on the list of `a`. */
  lemma SettledMembers(t: Tree, users: map<Alg, seq<Alg>>, owner: map<Alg, Option<Alg>>, done: seq<Alg>, a: Alg, x: Alg)
    requires WellFormed(t) && Settled(t, users, owner, done) && a in users
    ensures x in users[a] <==> x in t.users[a] && (Built(t, x) ==> Kept(t, x))
  {
    BaseMembers(t, a, x);
    hide Kept;
    assert PutBack(t, done, a, users[a]);
    if x in t.users[a] && Kept(t, x) {
      KeptBuilt(t, x);
      var c :| c in done && c in t.parent && t.parent[c] == a && Kept(t, c) && users[a] == [c] + Base(t, a);
      KeptUnique(t, c, x);
    }
  }

  lemma BaseDistinct(t: Tree, a: Alg)
    requires WellFormed(t) && a in t.users
    ensures Distinct(Base(t, a))
  {
    UnselectedDistinct(t.skip, t.users[t.alg]);
  }

  lemma SettledDistinct(t: Tree, users: map<Alg, seq<Alg>>, owner: map<Alg, Option<Alg>>, done: seq<Alg>, a: Alg)
    requires WellFormed(t) && Settled(t, users, owner, done) && a in users
    ensures Distinct(users[a])
  {
    hide Kept, Built, Distinct, Base, WellFormed;
    assert PutBack(t, done, a, users[a]);
    BaseDistinct(t, a);
    if c :| c in done && c in t.parent && t.parent[c] == a && Kept(t, c) && users[a] == [c] + Base(t, a) {
      BaseMembers(t, a, c);
      KeptBuilt(t, c);
      PrependDistinct(c, Base(t, a));
    }
  }

  /** Lists and pointers agree again, whatever is replaced next. */
  lemma StillWellFormed(t: Tree, users: map<Alg, seq<Alg>>, owner: map<Alg, Option<Alg>>, done: seq<Alg>, next: Tree)
    requires WellFormed(t) && Settled(t, users, owner, done)
    requires next.users == users && next.parent == Attached(owner) && next.rank == t.rank && next.alg in users
    ensures WellFormed(next)
  {
    hide Kept, Built, PutBack, Distinct;
    forall a | a in users ensures Distinct(users[a]) { SettledDistinct(t, users, owner, done, a); }
    forall a, x | a in users ensures x in users[a] <==> x in next.parent && next.parent[x] == a {
      SettledMembers(t, users, owner, done, a, x);
    }
  }

  // ---------------------------------------------------------------- in place

  lemma {:induction false} UnselectedAppend(skip: set<Alg>, s: seq<Alg>, x: Alg)
    ensures Unselected(skip, s + [x]) == Unselected(skip, s) + if x in skip then [x] else []
  {
    if s == [] {
      assert s + [x] == [x];
    } else {
      UnselectedAppend(skip, s[1..], x);
      assert (s + [x])[1..] == s[1..] + [x];
    }
  }

  /** The first `i` users of the list `l0` have been looked at; `k` is the place reached in what is
      left of the list, `l`. */
  ghost predicate Selecting(skip: set<Alg>, l0: seq<Alg>, i: nat, l: seq<Alg>, k: nat, top: seq<Alg>) {
    && k <= |l| && i <= |l0|
    && l[..k] == Unselected(skip, l0[..i]) && l[k..] == l0[i..]
    && Distinct(top) && forall x :: x in top <==> x in l0[..i] && x !in skip
  }

  lemma SelectBounds(skip: set<Alg>, l0: seq<Alg>, i: nat, l: seq<Alg>, k: nat, top: seq<Alg>)
    requires Selecting(skip, l0, i, l, k, top) && k < |l|
    ensures i < |l0|
  {
    assert |l[k..]| == |l0[i..]|;
  }

  lemma SelectStep(skip: set<Alg>, l0: seq<Alg>, i: nat, l: seq<Alg>, k: nat, top: seq<Alg>)
    requires Distinct(l0) && Selecting(skip, l0, i, l, k, top) && k < |l|
    ensures if l[k] in skip then Selecting(skip, l0, i + 1, l, k + 1, top)
            else Selecting(skip, l0, i + 1, l[..k] + l[k + 1..], k, [l[k]] + top)
  {
    hide Unselected;
    SelectBounds(skip, l0, i, l, k, top);
    var x := l[k];
    assert x == l[k..][0] == l0[i..][0];
    UnselectedAppend(skip, l0[..i], x);
    assert l0[..i + 1] == l0[..i] + [x];
    assert l0[i + 1..] == l0[i..][1..];
    assert l[..k + 1] == l[..k] + [x] && l[k + 1..] == l[k..][1..];
    var rest := l[..k] + l[k + 1..];
    assert rest[..k] == l[..k] && rest[k..] == l[k..][1..];
    assert x !in l0[..i];
    PrependDistinct(x, top);
  }

  ghost function Unvisited(t: Tree, stack: seq<Alg>, done: seq<Alg>): set<Alg> {
    set x | x in t.parent && x !in stack && x !in done
  }

  lemma PushUnvisited(t: Tree, w: Walk)
    requires Inv(t, w) && ListFor(t, w, Cursor(t, w.stack)) != []
    requires w.stack != [] ==> Some(w.stack[0]) != t.nalg
    ensures Unvisited(t, Push(t, w).stack, w.done) < Unvisited(t, w.stack, w.done)
  {
    hide Inv;
    NextSpawn(t, w);
    var x := ListFor(t, w, Cursor(t, w.stack))[0];
    assert x in Unvisited(t, w.stack, w.done);
    assert x !in Unvisited(t, Push(t, w).stack, w.done);
  }

  lemma PopUnvisited(t: Tree, w: Walk)
    requires w.stack != []
    ensures Unvisited(t, w.stack[1..], [w.stack[0]] + w.done) == Unvisited(t, w.stack, w.done)
  {
    forall x ensures x in w.stack || x in w.done <==> x in w.stack[1..] || x in [w.stack[0]] + w.done {
      StackMembers(w, x);
    }
  }

  /** `nalg` is never below another spawn on the stack. */
  lemma PopHead(t: Tree, w: Walk)
    requires Inv(t, w)
    ensures |w.stack| > 1 ==> Some(w.stack[1]) != t.nalg
  {
    hide ListsOk, Owners;
  }

  /** Those of the instances `put` that do not lead to `nalg`. */
  ghost function Gone(t: Tree, put: seq<Alg>): set<Alg>
    requires WellFormed(t)
  {
    set x | x in put && !Kept(t, x)
  }

  /** Those of them that were alive, registered and had a template to pin. */
  ghost function Leaving(t: Tree, put: seq<Alg>, dead: set<Alg>, hashed: set<Alg>, pinned: set<Alg>): set<Alg>
    requires WellFormed(t)
  {
    set x | x in Gone(t, put) && x !in dead && x in hashed && x in pinned
  }

  lemma GoneStep(t: Tree, put: seq<Alg>, x: Alg, dead: set<Alg>, hashed: set<Alg>, pinned: set<Alg>)
    requires WellFormed(t) && x !in put
    ensures Gone(t, put + [x]) == Gone(t, put) + if Kept(t, x) then {} else {x}
    ensures x !in Gone(t, put)
    ensures Leaving(t, put + [x], dead, hashed, pinned)
         == Leaving(t, put, dead, hashed, pinned)
            + if !Kept(t, x) && x !in dead && x in hashed && x in pinned then {x} else {}
  {
    hide Kept;
  }

  lemma GoneNone(t: Tree, dead: set<Alg>, hashed: set<Alg>, pinned: set<Alg>)
    ensures WellFormed(t) ==> Gone(t, []) == {} && Leaving(t, [], dead, hashed, pinned) == {}
  {
  }

  lemma FinishStart(t: Tree, w: Walk)
    requires Inv(t, w) && w.stack == [] && w.top == []
    ensures WellFormed(t) && Distinct(w.done) && t.parent.Keys <= w.owner.Keys && w.users.Keys == t.users.Keys
    ensures forall x :: x in w.owner && x !in t.parent ==> w.owner[x].None?
    ensures forall x :: x in w.done <==> Built(t, x)
    ensures forall x :: x in t.parent ==> w.owner[x] == if Built(t, x) && !Kept(t, x) then None else Some(t.parent[x])
    ensures forall a :: a in w.users ==> PutBack(t, [], a, w.users[a])
  {
    hide PutBack, Kept, Built;
    WalkEnds(t, w);
    forall a | a in w.users ensures PutBack(t, [], a, w.users[a]) {
      PutBackStart(t, w, a);
    }
  }

  lemma FinishStep(t: Tree, put: seq<Alg>, users: map<Alg, seq<Alg>>, x: Alg)
    requires WellFormed(t) && users.Keys == t.users.Keys && Built(t, x) && x !in put
    requires forall a :: a in users ==> PutBack(t, put, a, users[a])
    ensures x in t.parent && t.parent[x] in users && x in users
    ensures Kept(t, x) ==> var users' := users[t.parent[x] := [x] + users[t.parent[x]]];
                           forall a :: a in users' ==> PutBack(t, put + [x], a, users'[a])
    ensures !Kept(t, x) ==> users[x] == [] && forall a :: a in users ==> PutBack(t, put + [x], a, users[a])
  {
    hide PutBack, Kept;
    forall a | a in users
      ensures if Kept(t, x) then PutBack(t, put + [x], a, if t.parent[x] == a then [x] + users[a] else users[a])
              else PutBack(t, put + [x], a, users[a])
    {
      if Kept(t, x) { PutBackKept(t, put, x, a, users[a]); } else { PutBackRemoved(t, put, x, a, users[a]); }
    }
    if !Kept(t, x) { RemovedIsUnused(t, put, x, users[x]); }
  }

  lemma SettledKeys(t: Tree, users: map<Alg, seq<Alg>>, owner: map<Alg, Option<Alg>>, done: seq<Alg>)
    requires WellFormed(t) && Settled(t, users, owner, done)
    ensures t.alg in users
  {
  }

  lemma AttachMore(owner: map<Alg, Option<Alg>>, x: Alg, base: Alg)
    ensures Attached(owner[x := Some(base)]) == Attached(owner)[x := base]
  {
  }

  /** A new instance on top of `base` keeps the tree consistent. */
  lemma SpawnTree(t: Tree, x: Alg, base: Alg)
    requires WellFormed(t) && x !in t.users && base in t.users && base in t.rank
    ensures WellFormed(t.(users := t.users[x := []][base := [x] + t.users[base]], parent := t.parent[x := base],
                          rank := t.rank[x := t.rank[base] + 1]))
  {
    assert x !in t.users[base];
    PrependDistinct(x, t.users[base]);
  }

  /** The registered algorithms: users, spawn pointers, and what `crypto_remove_spawn` looks at. */
  class Registry {
    const flags: map<Alg, bv32>    // cra_flags
    const mask: map<Alg, bv32>     // the spawns' type masks
    var users: map<Alg, seq<Alg>>
    var owner: map<Alg, Option<Alg>>
    var dead: set<Alg>
    var hashed: set<Alg>
    var removed: seq<Alg>

    ghost function TreeOf(alg: Alg, nalg: Option<Alg>, rank: map<Alg, nat>): Tree
      reads this
    {
      Tree(alg, nalg, Skipped(alg, nalg), users, Attached(owner), rank)
    }

    /** The spawns whose mask tells the type of `alg` from the type of its replacement. */
    function Skipped(alg: Alg, nalg: Option<Alg>): set<Alg> {
      var next := if nalg.Some? then nalg.value else alg;
      if alg in flags && next in flags then set x | x in mask && (flags[alg] ^ flags[next]) & mask[x] != 0 else {}
    }

    /** Algorithms that are built on nothing, with their flags and the masks of spawns to come. */
    constructor (algs: set<Alg>, flags: map<Alg, bv32>, mask: map<Alg, bv32>)
      ensures users.Keys == algs && this.flags == flags && this.mask == mask && dead == {} && hashed == algs
      ensures forall alg, nalg, rank :: alg in algs ==> WellFormed(TreeOf(alg, nalg, rank))
    {
      this.flags, this.mask := flags, mask;
      users, owner := map a | a in algs :: [], map[];
      dead, hashed, removed := {}, algs, [];
    }

    /** `crypto_init_spawn`: the new instance `x` is built on `base`, unless that is dead. */
    method InitSpawn(x: Alg, base: Alg, ghost t: Tree) returns (ok: bool)
      requires WellFormed(t) && t == TreeOf(base, t.nalg, t.rank) && x !in users && x !in owner && base in t.rank
      modifies this`users, this`owner
      ensures ok <==> base !in dead
      ensures !ok ==> users == old(users) && owner == old(owner)
      ensures ok ==> base in old(users) && users == old(users)[x := []][base := [x] + old(users)[base]]
      ensures ok ==> owner == old(owner)[x := Some(base)]
      ensures ok ==> WellFormed(TreeOf(base, t.nalg, t.rank[x := t.rank[base] + 1]))
    {
      assert base in users;
      hide WellFormed, Attached, Skipped;
      ok := base !in dead;
      if ok {
        SpawnTree(t, x, base);
        AttachMore(owner, x, base);
        users := users[x := []][base := [x] + users[base]];
        owner := owner[x := Some(base)];
      }
    }

    /** Move the selected users of `alg` to a list of their own. */
    method SelectUsers(alg: Alg, skip: set<Alg>) returns (top: seq<Alg>)
      requires alg in users && Distinct(users[alg])
      modifies this`users
      ensures users == old(users)[alg := Unselected(skip, old(users[alg]))]
      ensures Distinct(top) && forall x :: x in top <==> x in old(users[alg]) && x !in skip
    {
      ghost var l0 := users[alg];
      var k := 0;
      ghost var i := 0;
      top := [];
      while k < |users[alg]|
        invariant alg in users && users == old(users)[alg := users[alg]]
        invariant Selecting(skip, l0, i, users[alg], k, top)
        decreases |l0| - i
      {
        hide Selecting, Distinct, Unselected;
        var l := users[alg];
        SelectBounds(skip, l0, i, l, k, top);
        SelectStep(skip, l0, i, l, k, top);
        var x := l[k];
        if x in skip {
          k := k + 1;
        } else {
          users := users[alg := l[..k] + l[k + 1..]];
          top := [x] + top;
        }
        i := i + 1;
      }
      assert l0[..i] == l0;
      assert users[alg][..k] == users[alg];
    }

    /** The list the walk is looking at: the selected users at the bottom, else the users of the
        instance on top of the stack. */
    function Spawns(alg: Alg, top: seq<Alg>, cur: Alg): seq<Alg>
      reads this
    {
      if cur == alg then top else if cur in users then users[cur] else []
    }

    /** Finish the top of the stack and say which list to look at next. */
    method MoreSpawns(alg: Alg, nalg: Option<Alg>, stack: seq<Alg>, top: seq<Alg>, done: seq<Alg>, ghost t: Tree)
        returns (spawns: Option<Alg>, stack': seq<Alg>, done': seq<Alg>)
      requires t.alg == alg && t.nalg == nalg && Inv(t, Walk(users, owner, top, stack, done))
      requires Exhausted(t, Walk(users, owner, top, stack, done))
      modifies this`owner
      ensures Inv(t, Walk(users, owner, top, stack', done'))
      ensures spawns.None? <==> stack == []
      ensures stack == [] ==> stack' == [] && done' == done && owner == old(owner)
      ensures stack != [] ==>
                Walk(users, owner, top, stack', done') == Pop(t, old(Walk(users, owner, top, stack, done)))
      ensures Unvisited(t, stack', done') == Unvisited(t, stack, done)
      ensures spawns.Some? ==> spawns.value == Cursor(t, stack') && (stack' != [] ==> Some(stack'[0]) != nalg)
    {
      hide Inv, Unvisited;
      ghost var w := Walk(users, owner, top, stack, done);
      if stack == [] {
        return None, stack, done;
      }
      PopInv(t, w);
      PopUnvisited(t, w);
      PopHead(t, w);
      var x := stack[0];
      if x in owner && owner[x].Some? && |stack| > 1 && stack[1] in owner && owner[stack[1]].None? {
        owner := owner[stack[1] := Some(if |stack| == 2 then alg else stack[2])];
      }
      stack', done' := stack[1..], [x] + done;
      spawns := Some(if stack' == [] then alg else stack'[0]);
    }

    /** Walk the tree below the selected users, children before parents. */
    method WalkTree(alg: Alg, nalg: Option<Alg>, selected: seq<Alg>, ghost t: Tree) returns (done: seq<Alg>)
      requires t.alg == alg && t.nalg == nalg && Inv(t, Walk(users, owner, selected, [], []))
      modifies this`users, this`owner
      ensures Inv(t, Walk(users, owner, [], [], done))
    {
      hide Inv, Unvisited;
      var top, stack := selected, [];
      done := [];
      var spawns := Some(alg);
      while spawns.Some?
        invariant Inv(t, Walk(users, owner, top, stack, done))
        invariant spawns.None? ==> stack == [] && top == []
        invariant spawns.Some? ==> spawns.value == Cursor(t, stack) && (stack != [] ==> Some(stack[0]) != nalg)
        decreases Unvisited(t, stack, done), |stack| + if spawns.Some? then 1 else 0
      {
        var cur := spawns.value;
        ghost var stack0 := stack;
        while Spawns(alg, top, cur) != []
          invariant Inv(t, Walk(users, owner, top, stack, done))
          invariant cur == Cursor(t, stack) && (stack != [] ==> Some(stack[0]) != nalg)
          invariant stack == stack0 || Unvisited(t, stack, done) < Unvisited(t, stack0, done)
          decreases Unvisited(t, stack, done)
        {
          ghost var w := Walk(users, owner, top, stack, done);
          var l := Spawns(alg, top, cur);
          var x := l[0];
          NextSpawn(t, w);
          PushInv(t, w);
          PushUnvisited(t, w);
          assert x != alg;
          if cur == alg { top := l[1..]; } else { users := users[cur := l[1..]]; }
          stack := [x] + stack;
          if Some(x) == nalg {
            assert Walk(users, owner, top, stack, done) == Push(t, w);
            break;
          }
          owner := owner[x := None];
          assert Walk(users, owner, top, stack, done) == Push(t, w);
          cur := x;
        }
        spawns, stack, done := MoreSpawns(alg, nalg, stack, top, done, t);
      }
    }

    /** `crypto_remove_spawn`: a live instance dies; if it is registered and its template can be
        pinned, it moves to the list of instances to destroy.  Nobody may still use it then. */
    method RemoveSpawn(x: Alg, pinned: bool)
      requires x in users && users[x] == []
      modifies this`dead, this`hashed, this`removed
      ensures dead == old(dead) + {x}
      ensures var leaves := x !in old(dead) && x in old(hashed) && pinned;
              && hashed == (if leaves then old(hashed) - {x} else old(hashed))
              && removed == (if leaves then [x] + old(removed) else old(removed))
    {
      if x in dead { return; }
      dead := dead + {x};
      if x !in hashed { return; }
      if !pinned { return; }
      removed := [x] + removed;
      hashed := hashed - {x};
      assert users[x] == [];
    }

    /** Put back what leads to `nalg`, remove the rest. */
    method Finish(done: seq<Alg>, pinned: set<Alg>, ghost t: Tree)
      requires Inv(t, Walk(users, owner, [], [], done))
      modifies this`users, this`dead, this`hashed, this`removed
      ensures WellFormed(t) && Settled(t, users, owner, done)
      ensures dead == old(dead) + Gone(t, done)
      ensures hashed == old(hashed) - Leaving(t, done, old(dead), old(hashed), pinned)
      ensures forall x :: x in removed <==> x in old(removed) || x in Leaving(t, done, old(dead), old(hashed), pinned)
    {
      hide Inv, PutBack, Kept, Built, WellFormed, Gone, Leaving;
      ghost var w := Walk(users, owner, [], [], done);
      GoneNone(t, dead, hashed, pinned);
      FinishStart(t, w);
      assert done[..0] == [];
      var i := 0;
      while i < |done|
        invariant i <= |done| && users.Keys == t.users.Keys
        invariant forall a :: a in users ==> PutBack(t, done[..i], a, users[a])
        invariant dead == old(dead) + Gone(t, done[..i])
        invariant hashed == old(hashed) - Leaving(t, done[..i], old(dead), old(hashed), pinned)
        invariant forall x :: x in removed <==>
                  x in old(removed) || x in Leaving(t, done[..i], old(dead), old(hashed), pinned)
      {
        var x := done[i];
        assert done[..i + 1] == done[..i] + [x];
        assert x in done && x !in done[..i];
        FinishStep(t, done[..i], users, x);
        GoneStep(t, done[..i], x, old(dead), old(hashed), pinned);
        if owner[x].Some? {
          var a := owner[x].value;
          users := users[a := [x] + users[a]];
        } else {
          RemoveSpawn(x, x in pinned);
        }
        i := i + 1;
      }
      assert done[..i] == done;
    }

    /** `crypto_remove_spawns`. */
    method RemoveSpawns(alg: Alg, nalg: Option<Alg>, pinned: set<Alg>, ghost rank: map<Alg, nat>)
        returns (ghost done: seq<Alg>)
      requires WellFormed(TreeOf(alg, nalg, rank))
      modifies this
      ensures Settled(old(TreeOf(alg, nalg, rank)), users, owner, done)
      ensures WellFormed(TreeOf(alg, nalg, rank))
      ensures dead == old(dead) + Gone(old(TreeOf(alg, nalg, rank)), done)
      ensures var out := Leaving(old(TreeOf(alg, nalg, rank)), done, old(dead), old(hashed), pinned);
              hashed == old(hashed) - out && forall x :: x in removed <==> x in old(removed) || x in out
    {
      hide Inv, Settled, Gone, Leaving;
      ghost var t := TreeOf(alg, nalg, rank);
      var top := SelectUsers(alg, Skipped(alg, nalg));
      StartInv(t, Walk(users, owner, top, [], []));
      var order := WalkTree(alg, nalg, top, t);
      Finish(order, pinned, t);
      done := order;
      assert t.alg in users by { SettledKeys(t, users, owner, order); }
      StillWellFormed(t, users, owner, order, TreeOf(alg, nalg, rank));
    }
  }
}
