/**
 The per-worker timer heap: an array heap of contexts ordered by deadline, in which every member
 knows its own position (`index_`), so that it can be removed from the middle.
 */
module TimerHeap {
  import opened CoCtx
  import opened HeapOrder

  ghost function KeysOf(s: seq<Context>): (keys: seq<int>)
    reads s`timeout
    ensures |keys| == |s| && forall i :: 0 <= i < |s| ==> keys[i] == s[i].timeout
  {
    if s == [] then [] else KeysOf(s[..|s| - 1]) + [s[|s| - 1].timeout]
  }

  lemma KeysAppend(s: seq<Context>, c: Context)
    ensures KeysOf(s + [c]) == KeysOf(s) + [c.timeout]
  {
    assert (s + [c])[..|s|] == s;
  }

  class Heap {
    var heap: seq<Context>
    /** The members. */
    ghost var nodes: set<Context>

    /** Position and `index_` are inverse to each other. */
    ghost predicate Indexed()
      reads this, nodes`index
    {
      && (forall i :: 0 <= i < |heap| ==> heap[i] in nodes && heap[i].index == i)
      && (forall c :: c in nodes ==> 0 <= c.index < |heap| && heap[c.index] == c)
    }

    ghost function Keys(): (s: seq<int>)
      reads this, heap`timeout
      ensures |s| == |heap| && forall i :: 0 <= i < |heap| ==> s[i] == heap[i].timeout
    {
      KeysOf(heap)
    }

    ghost predicate AfterParent(i: nat)
      requires 0 < i < |heap|
      reads this, heap`timeout
    {
      heap[Parent(i)].timeout <= heap[i].timeout
    }

    ghost predicate Valid()
      reads this, nodes`index, nodes`timeout
    {
      Indexed() && forall i :: 0 < i < |heap| ==> AfterParent(i)
    }

    lemma ValidIsOrdered()
      requires Indexed()
      ensures Valid() <==> Ordered(Keys())
    {
      assert Ordered(Keys()) <==> forall i :: 0 < i < |heap| ==> AfterParent(i) by {
        if forall i :: 0 < i < |heap| ==> AfterParent(i) {
          forall i | 0 < i < |heap|
            ensures Keys()[Parent(i)] <= Keys()[i]
          {
            assert AfterParent(i);
          }
        }
      }
    }

    constructor ()
      ensures Valid() && nodes == {}
    {
      heap, nodes := [], {};
    }

    method Swap(a: nat, b: nat)
      requires Indexed() && a < |heap| && b < |heap|
      modifies this`heap, nodes`index
      ensures Indexed() && heap == old(heap)[a := old(heap[b])][b := old(heap[a])]
      ensures Keys() == Exchange(old(Keys()), a, b)
    {
      var index := heap[a].index;
      heap[a].index := heap[b].index;
      heap[b].index := index;
      var c := heap[a];
      heap := heap[a := heap[b]];
      heap := heap[b := c];
    }

    method RepairBack(start: nat)
      requires Indexed() && start < |heap| && OrderedAbove(Keys(), start)
      modifies this`heap, nodes`index
      ensures Indexed() && Ordered(Keys())
    {
      var loc: nat := start;
      while loc > 0
        invariant Indexed() && loc < |heap| && OrderedAbove(Keys(), loc)
      {
        var up := (loc - 1) / 2;
        if heap[up].timeout < heap[loc].timeout {
          break;
        }
        StepUp(Keys(), loc);
        Swap(loc, up);
        loc := up;
      }
      UpDone(Keys(), loc);
    }

    method PickChild(loc: nat) returns (down: nat)
      requires Indexed() && 2 * loc + 1 < |heap|
      ensures down < |heap| && LeastChild(Keys(), loc, down)
    {
      down := 2 * loc + 1;
      SmallerChild(Keys(), loc);
      if down + 1 < |heap| && heap[down + 1].timeout < heap[down].timeout {
        down := down + 1;
      }
    }

    method RepairFront(start: nat)
      requires Indexed() && OrderedBelow(Keys(), start)
      modifies this`heap, nodes`index
      ensures Indexed() && Ordered(Keys())
    {
      var loc: nat, done := start, false;
      while !done && 2 * loc + 1 < |heap|
        invariant Indexed() && if done then Ordered(Keys()) else OrderedBelow(Keys(), loc)
        decreases if done then 0 else 1, |heap| - loc
      {
        done, loc := SinkOnce(loc);
      }
      if !done {
        DownDone(Keys(), loc, 0);
      }
    }

    /** One round: the node at `loc` stays, or changes places with its smaller child. */
    method SinkOnce(loc: nat) returns (done: bool, next: nat)
      requires Indexed() && OrderedBelow(Keys(), loc) && 2 * loc + 1 < |heap|
      modifies this`heap, nodes`index
      ensures Indexed() && |heap| == old(|heap|) && next >= loc
      ensures if done then Ordered(Keys()) else OrderedBelow(Keys(), next) && loc < next < |heap|
    {
      var down := PickChild(loc);
      if heap[down].timeout >= heap[loc].timeout {
        DownDone(Keys(), loc, down);
        return true, loc;
      }
      StepDown(Keys(), loc, down);
      Swap(loc, down);
      return false, down;
    }

    /** The new last node, still out of order. */
    method AppendNode(node: Context)
      requires Indexed() && node !in nodes
      modifies this, nodes`index, node`index
      ensures Indexed() && |heap| == old(|heap|) + 1 && nodes == old(nodes) + {node}
      ensures Keys() == old(Keys()) + [node.timeout]
    {
      node.index := |heap|;
      KeysAppend(heap, node);
      heap, nodes := heap + [node], nodes + {node};
    }

    method Push(node: Context)
      requires Valid() && node !in nodes
      modifies this, nodes`index, node`index
      ensures Valid() && nodes == old(nodes) + {node}
    {
      ValidIsOrdered();
      Append(Keys(), node.timeout);
      AppendNode(node);
      RepairBack(|heap| - 1);
      ValidIsOrdered();
    }

    method DropLast()
      requires Indexed() && heap != []
      modifies this, nodes`index
      ensures Indexed() && heap == old(heap)[..|old(heap)| - 1]
      ensures Keys() == old(Keys())[..|heap|]
      ensures nodes == old(nodes) - {old(heap)[|heap|]} && old(heap)[|heap|].index == NO_INDEX
    {
      var last := |heap| - 1;
      heap[last].index := NO_INDEX;
      nodes := nodes - {heap[last]};
      heap := heap[..last];
    }

    /** The last node takes the place of the one at `index`, which leaves. */
    method PutLastAt(index: nat)
      requires Indexed() && Ordered(Keys()) && index < |heap| - 1
      modifies this, nodes`index
      ensures Indexed() && |heap| == old(|heap|) - 1
      ensures nodes == old(nodes) - {old(heap[index])} && old(heap[index]).index == NO_INDEX
      ensures if index > 0 && Keys()[index] < Keys()[Parent(index)] then OrderedAbove(Keys(), index)
              else OrderedBelow(Keys(), index)
    {
      FillHole(Keys(), index);
      Swap(index, |heap| - 1);
      DropLast();
    }

    /** `remove`: does nothing when the node is in no heap. */
    method Remove(node: Context) returns (done: bool)
      requires Valid() && (node in nodes || node.index == NO_INDEX)
      modifies this, nodes`index
      ensures Valid() && done == (node in old(nodes)) && nodes == old(nodes) - {node}
      ensures node.index == NO_INDEX
    {
      if heap == [] || node.index == NO_INDEX || node.index >= |heap| {
        return false;
      }
      ValidIsOrdered();
      var index, last := node.index, |heap| - 1;
      if index == last {
        PrefixOrdered(Keys());
        DropLast();
      } else {
        RemoveAt(index);
      }
      ValidIsOrdered();
      done := true;
    }

    method RemoveAt(index: nat)
      requires Indexed() && Ordered(Keys()) && index < |heap| - 1
      modifies this, nodes`index
      ensures Indexed() && Ordered(Keys())
      ensures nodes == old(nodes) - {old(heap[index])} && old(heap[index]).index == NO_INDEX
    {
      PutLastAt(index);
      if index > 0 && heap[index].timeout < heap[(index - 1) / 2].timeout {
        RepairBack(index);
      } else {
        RepairFront(index);
      }
    }

    method Top() returns (c: Context?)
      requires Valid()
      ensures c == null <==> nodes == {}
      ensures c != null ==> c in nodes && forall d :: d in nodes ==> c.timeout <= d.timeout
    {
      if heap == [] {
        return null;
      }
      ValidIsOrdered();
      forall d | d in nodes
        ensures heap[0].timeout <= d.timeout
      {
        RootIsLeast(Keys(), d.index);
      }
      return heap[0];
    }
  }
}
