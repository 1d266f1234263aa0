/** Heap order on a sequence of keys, and the two repair steps of util/cominheap.hpp. */
module HeapOrder {

  function Parent(i: nat): (p: nat)
    requires i > 0
    ensures p < i
  {
    (i - 1) / 2
  }

  function Exchange(s: seq<int>, a: nat, b: nat): (r: seq<int>)
    requires a < |s| && b < |s|
    ensures |r| == |s|
  {
    s[a := s[b]][b := s[a]]
  }

  ghost predicate Ordered(s: seq<int>) {
    forall i :: 0 < i < |s| ==> s[Parent(i)] <= s[i]
  }

  /** In order except that the entry at `loc` may be smaller than its parent. */
  ghost predicate OrderedAbove(s: seq<int>, loc: nat) {
    && (forall i :: 0 < i < |s| && i != loc ==> s[Parent(i)] <= s[i])
    && (forall i :: 0 < i < |s| && loc > 0 && Parent(i) == loc ==> s[Parent(loc)] <= s[i])
  }

  /** In order except that the entry at `loc` may be larger than its children. */
  ghost predicate OrderedBelow(s: seq<int>, loc: nat) {
    && (forall i :: 0 < i < |s| && Parent(i) != loc ==> s[Parent(i)] <= s[i])
    && (forall i :: 0 < i < |s| && loc > 0 && Parent(i) == loc ==> s[Parent(loc)] <= s[i])
  }

  lemma StepUp(s: seq<int>, loc: nat)
    requires 0 < loc < |s| && OrderedAbove(s, loc) && s[loc] <= s[Parent(loc)]
    ensures OrderedAbove(Exchange(s, loc, Parent(loc)), Parent(loc))
  {
    var t, up := Exchange(s, loc, Parent(loc)), Parent(loc);
    forall i | 0 < i < |t| && i != up
      ensures t[Parent(i)] <= t[i]
    {
      if Parent(i) == loc { assert s[up] <= s[i]; }
    }
    forall i | 0 < i < |t| && up > 0 && Parent(i) == up
      ensures t[Parent(up)] <= t[i]
    {
      assert s[Parent(up)] <= s[up];
    }
  }

  lemma UpDone(s: seq<int>, loc: nat)
    requires OrderedAbove(s, loc) && (0 < loc < |s| ==> s[Parent(loc)] <= s[loc])
    ensures Ordered(s)
  {}

  /** The children of `loc` are 2 * loc + 1 and 2 * loc + 2; `least` is the smaller. */
  ghost predicate LeastChild(s: seq<int>, loc: nat, least: nat) {
    && 0 < least < |s| && Parent(least) == loc
    && forall i :: 0 < i < |s| && Parent(i) == loc ==> s[least] <= s[i]
  }

  lemma SmallerChild(s: seq<int>, loc: nat)
    requires 2 * loc + 1 < |s|
    ensures var left := 2 * loc + 1;
            LeastChild(s, loc, if left + 1 < |s| && s[left + 1] < s[left] then left + 1 else left)
  {}

  lemma StepDown(s: seq<int>, loc: nat, least: nat)
    requires OrderedBelow(s, loc) && LeastChild(s, loc, least) && s[least] <= s[loc]
    ensures OrderedBelow(Exchange(s, loc, least), least)
  {}

  lemma DownDone(s: seq<int>, loc: nat, least: nat)
    requires OrderedBelow(s, loc)
    requires 2 * loc + 1 >= |s| || (LeastChild(s, loc, least) && s[loc] <= s[least])
    ensures Ordered(s)
  {}

  /** Appending keeps everything but the last entry in order. */
  lemma Append(s: seq<int>, x: int)
    requires Ordered(s)
    ensures OrderedAbove(s + [x], |s|)
  {
    assert forall i :: 0 < i < |s| ==> (s + [x])[Parent(i)] == s[Parent(i)];
  }

  /** Filling a hole with the last entry disturbs at most one direction. */
  lemma FillHole(s: seq<int>, hole: nat)
    requires Ordered(s) && hole < |s| - 1
    ensures var t := Exchange(s, hole, |s| - 1)[..|s| - 1];
            if hole > 0 && t[hole] < t[Parent(hole)] then OrderedAbove(t, hole) else OrderedBelow(t, hole)
  {
    var t := Exchange(s, hole, |s| - 1)[..|s| - 1];
    assert forall i :: 0 <= i < |t| && i != hole ==> t[i] == s[i];
    if hole > 0 {
      assert s[Parent(hole)] <= s[hole];
    }
  }

  lemma PrefixOrdered(s: seq<int>)
    requires Ordered(s) && |s| > 0
    ensures Ordered(s[..|s| - 1])
  {}

  lemma {:induction false} RootIsLeast(s: seq<int>, i: nat)
    requires Ordered(s) && i < |s|
    ensures s[0] <= s[i]
  {
    if i > 0 { RootIsLeast(s, Parent(i)); }
  }
}
