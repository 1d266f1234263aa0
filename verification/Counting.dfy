/** Counting the elements of a sequence that satisfy a predicate. */
module Counting {

  function One(b: bool): nat { if b then 1 else 0 }

  function Count<T>(s: seq<T>, p: T -> bool): nat {
    if s == [] then 0 else Count(s[..|s| - 1], p) + One(p(s[|s| - 1]))
  }

  lemma {:induction false} CountUpdate<T>(s: seq<T>, i: nat, x: T, p: T -> bool)
    requires i < |s|
    ensures Count(s[i := x], p) == Count(s, p) - One(p(s[i])) + One(p(x))
  {
    var n := |s| - 1;
    if i == n {
      assert s[i := x][..n] == s[..n];
    } else {
      assert s[i := x][..n] == s[..n][i := x];
      CountUpdate(s[..n], i, x, p);
    }
  }

  lemma {:induction false} CountPositive<T>(s: seq<T>, i: nat, p: T -> bool)
    requires i < |s|
    ensures p(s[i]) ==> Count(s, p) >= 1
  {
    if i < |s| - 1 { CountPositive(s[..|s| - 1], i, p); }
  }

  lemma {:induction false} CountTwo<T>(s: seq<T>, i: nat, j: nat, p: T -> bool)
    requires i < j < |s| && p(s[i]) && p(s[j])
    ensures Count(s, p) >= 2
  {
    if j < |s| - 1 { CountTwo(s[..|s| - 1], i, j, p); }
    else { CountPositive(s[..|s| - 1], i, p); }
  }

  lemma {:induction false} CountNone<T>(s: seq<T>, p: T -> bool)
    requires forall i :: 0 <= i < |s| ==> !p(s[i])
    ensures Count(s, p) == 0
  {
    if s != [] { CountNone(s[..|s| - 1], p); }
  }

  /** Disjoint predicates count at most the whole sequence. */
  lemma {:induction false} CountDisjoint<T>(s: seq<T>, p: T -> bool, q: T -> bool, r: T -> bool)
    requires forall i :: 0 <= i < |s| ==> One(p(s[i])) + One(q(s[i])) + One(r(s[i])) <= 1
    ensures Count(s, p) + Count(s, q) + Count(s, r) <= |s|
  {
    if s != [] {
      assert forall i :: 0 <= i < |s| - 1 ==> s[..|s| - 1][i] == s[i];
      CountDisjoint(s[..|s| - 1], p, q, r);
    }
  }

  /** Popping the front of a queue takes one occurrence. */
  lemma PopFront<T>(q: seq<T>)
    requires q != []
    ensures q[0] in multiset(q) && multiset(q[1..]) == multiset(q) - multiset{q[0]}
  {
    assert q == [q[0]] + q[1..];
  }

  lemma PutAndTake<T>(m: multiset<T>, x: T)
    ensures m + multiset{x} - multiset{x} == m
  {}
}
