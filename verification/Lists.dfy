/** Vocabulary shared by the models: optional values, and lists without repeats. */
module Options {

  datatype Option<T> = None | Some(value: T)
}

module Lists {

  /** No element occurs twice. */
  ghost predicate Distinct(s: seq<nat>) {
    forall i, j :: 0 <= i < j < |s| ==> s[i] != s[j]
  }

  function Remove(s: seq<nat>, x: nat): seq<nat> {
    if s == [] then [] else if s[0] == x then s[1..] else [s[0]] + Remove(s[1..], x)
  }

  lemma {:induction false} RemoveAbsent(s: seq<nat>, x: nat)
    requires x !in s
    ensures Remove(s, x) == s
  {
    if s != [] { RemoveAbsent(s[1..], x); }
  }

  lemma {:induction false} RemoveAt(s: seq<nat>, x: nat) returns (i: nat)
    requires x in s
    ensures i < |s| && s[i] == x && Remove(s, x) == s[..i] + s[i + 1..]
  {
    if s[0] == x {
      i := 0;
    } else {
      var k := RemoveAt(s[1..], x);
      i := k + 1;
      assert s[..i] == [s[0]] + s[1..][..k];
      assert s[i + 1..] == s[1..][k + 1..];
    }
  }

  /** Where element `j` of a list was before the element at `i` was removed. */
  function Skip(i: nat, j: nat): nat { if j < i then j else j + 1 }

  lemma RemoveMap(s: seq<nat>, x: nat) returns (i: nat)
    requires x in s
    ensures i < |s| && s[i] == x && |Remove(s, x)| == |s| - 1
    ensures forall j :: 0 <= j < |s| - 1 ==> Remove(s, x)[j] == s[Skip(i, j)]
  {
    i := RemoveAt(s, x);
  }

  /** What is left after a removal: the same elements but one. */
  lemma RemoveKeeps(s: seq<nat>, x: nat)
    requires Distinct(s)
    ensures Distinct(Remove(s, x)) && forall y :: y in Remove(s, x) <==> y in s && y != x
  {
    if x in s {
      var i := RemoveAt(s, x);
      var r := s[..i] + s[i + 1..];
      forall y | y in s && y != x ensures y in r {
        var j :| 0 <= j < |s| && s[j] == y;
        assert r[if j < i then j else j - 1] == y;
      }
    } else {
      RemoveAbsent(s, x);
    }
  }

  lemma PrependDistinct(x: nat, s: seq<nat>)
    requires Distinct(s)
    ensures x !in s ==> Distinct([x] + s)
  {
  }
}
