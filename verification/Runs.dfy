/**
 Runs of a transition system, and pieces of runs as one thread sees them: it waits at some place
 while others take steps, then takes one of its own.
 */
module Runs {

  /** `next` matters only where the action is enabled. */
  datatype System<!S, !A> = System(enabled: (S, A) -> bool, next: (S, A) -> S)

  /** The run `acts` leads from `s` to `t`. */
  ghost predicate Reaches<S(!new), A>(sys: System<S, A>, s: S, acts: seq<A>, t: S)
    decreases |acts|
  {
    if acts == [] then s == t
    else sys.enabled(s, acts[0]) && Reaches(sys, sys.next(s, acts[0]), acts[1..], t)
  }

  lemma {:induction false} ReachesStep<S(!new), A>(sys: System<S, A>, s: S, acts: seq<A>, m: S, a: A)
    requires Reaches(sys, s, acts, m) && sys.enabled(m, a)
    ensures Reaches(sys, s, acts + [a], sys.next(m, a))
    decreases |acts|
  {
    var longer := acts + [a];
    if acts == [] {
      assert longer[0] == a && longer[1..] == [];
    } else {
      ReachesStep(sys, sys.next(s, acts[0]), acts[1..], m, a);
      assert longer[0] == acts[0] && longer[1..] == acts[1..] + [a];
    }
  }

  ghost predicate Leads<S(!new), A(!new)>(sys: System<S, A>, s: S, t: S) {
    exists acts :: Reaches(sys, s, acts, t)
  }

  lemma LeadsNowhere<S(!new), A(!new)>(sys: System<S, A>, s: S)
    ensures Reaches(sys, s, [], s) && Leads(sys, s, s)
  {
    assert Reaches(sys, s, [], s);
  }

  lemma LeadsStep<S(!new), A(!new)>(sys: System<S, A>, s: S, m: S, a: A)
    requires Leads(sys, s, m) && sys.enabled(m, a)
    ensures Leads(sys, s, sys.next(m, a))
  {
    var acts :| Reaches(sys, s, acts, m);
    ReachesStep(sys, s, acts, m, a);
  }

  /** What every step keeps holds along every run. */
  lemma {:induction false} InvariantHolds<S(!new), A(!new)>(sys: System<S, A>, inv: S -> bool, s: S, acts: seq<A>, t: S)
    requires inv(s) && Reaches(sys, s, acts, t)
    requires forall m, a :: inv(m) && sys.enabled(m, a) ==> inv(sys.next(m, a))
    ensures inv(t)
    decreases |acts|
  {
    if acts != [] {
      InvariantHolds(sys, inv, sys.next(s, acts[0]), acts[1..], t);
    }
  }

  lemma LeadsInvariant<S(!new), A(!new)>(sys: System<S, A>, inv: S -> bool, s: S, t: S)
    requires inv(s) && Leads(sys, s, t)
    requires forall m, a :: inv(m) && sys.enabled(m, a) ==> inv(sys.next(m, a))
    ensures inv(t)
  {
    var acts :| Reaches(sys, s, acts, t);
    InvariantHolds(sys, inv, s, acts, t);
  }

  // ---- one thread among others -----------------------------------------------------------

  /** Every state of the run `acts` from `s` to `t`, both ends included, has the thread at `slot`. */
  ghost predicate Passes<S(!new), A, L>(sys: System<S, A>, stands: (S, L) -> bool, s: S, acts: seq<A>, t: S, slot: L)
    decreases |acts|
  {
    stands(t, slot) &&
    if acts == [] then s == t
    else
      var k := |acts| - 1;
      exists m :: Passes(sys, stands, s, acts[..k], m, slot) && sys.enabled(m, acts[k]) && t == sys.next(m, acts[k])
  }

  /** Others may take the system from `s` to `t` while the thread stands at `slot`. */
  ghost predicate Meanwhile<S(!new), A(!new), L>(sys: System<S, A>, stands: (S, L) -> bool, s: S, t: S, slot: L) {
    exists acts :: Passes(sys, stands, s, acts, t, slot)
  }

  lemma NothingHappens<S(!new), A(!new), L>(sys: System<S, A>, stands: (S, L) -> bool, s: S, slot: L)
    requires stands(s, slot)
    ensures Meanwhile(sys, stands, s, s, slot)
  {
    assert Passes(sys, stands, s, [], s, slot);
  }

  lemma {:induction false} PassesStands<S(!new), A(!new), L>(
      sys: System<S, A>, stands: (S, L) -> bool, s: S, acts: seq<A>, t: S, slot: L)
    requires Passes(sys, stands, s, acts, t, slot)
    ensures stands(s, slot) && stands(t, slot)
    decreases |acts|
  {
    if acts != [] {
      var k := |acts| - 1;
      var m :| Passes(sys, stands, s, acts[..k], m, slot) && sys.enabled(m, acts[k]) && t == sys.next(m, acts[k]);
      PassesStands(sys, stands, s, acts[..k], m, slot);
    }
  }

  lemma {:induction false} PassesLeads<S(!new), A(!new), L>(
      sys: System<S, A>, stands: (S, L) -> bool, r: S, s: S, acts: seq<A>, t: S, slot: L)
    requires Leads(sys, r, s) && Passes(sys, stands, s, acts, t, slot)
    ensures Leads(sys, r, t)
    decreases |acts|
  {
    if acts != [] {
      var k := |acts| - 1;
      var m :| Passes(sys, stands, s, acts[..k], m, slot) && sys.enabled(m, acts[k]) && t == sys.next(m, acts[k]);
      PassesLeads(sys, stands, r, s, acts[..k], m, slot);
      LeadsStep(sys, r, m, acts[k]);
    }
  }

  /** What every step that leaves the thread at `slot` keeps, holds after the others. */
  lemma {:induction false} PassesInvariant<S(!new), A(!new), L>(
      sys: System<S, A>, stands: (S, L) -> bool, inv: S -> bool, s: S, acts: seq<A>, t: S, slot: L)
    requires inv(s) && Passes(sys, stands, s, acts, t, slot)
    requires forall m, a :: inv(m) && stands(m, slot) && sys.enabled(m, a) && stands(sys.next(m, a), slot) ==>
               inv(sys.next(m, a))
    ensures inv(t)
    decreases |acts|
  {
    if acts != [] {
      var k := |acts| - 1;
      var m :| Passes(sys, stands, s, acts[..k], m, slot) && sys.enabled(m, acts[k]) && t == sys.next(m, acts[k]);
      PassesInvariant(sys, stands, inv, s, acts[..k], m, slot);
      PassesStands(sys, stands, s, acts[..k], m, slot);
    }
  }

  lemma MeanwhileInvariant<S(!new), A(!new), L>(
      sys: System<S, A>, stands: (S, L) -> bool, inv: S -> bool, s: S, t: S, slot: L)
    requires inv(s) && Meanwhile(sys, stands, s, t, slot)
    requires forall m, a :: inv(m) && stands(m, slot) && sys.enabled(m, a) && stands(sys.next(m, a), slot) ==>
               inv(sys.next(m, a))
    ensures inv(t)
  {
    var acts :| Passes(sys, stands, s, acts, t, slot);
    PassesInvariant(sys, stands, inv, s, acts, t, slot);
  }

  /** The thread waits at `slot`, then takes the step `act`. */
  datatype Turn<L, A> = Turn(slot: L, act: A)

  /** A run from `s` to `t` in which the thread takes exactly the steps `turns`, each from the place
      named with it, and others take any steps before each of them. */
  ghost predicate Path<S(!new), A(!new), L>(
      sys: System<S, A>, stands: (S, L) -> bool, s: S, turns: seq<Turn<L, A>>, t: S)
    decreases |turns|
  {
    if turns == [] then s == t
    else
      var k := |turns| - 1;
      exists m, n :: Path(sys, stands, s, turns[..k], m) && Ends(sys, stands, m, turns[k], n, t)
  }

  /** The last turn: others lead from `m` to `n`, then the thread steps to `t`. */
  ghost predicate Ends<S(!new), A(!new), L>(
      sys: System<S, A>, stands: (S, L) -> bool, m: S, turn: Turn<L, A>, n: S, t: S)
  {
    Meanwhile(sys, stands, m, n, turn.slot) && sys.enabled(n, turn.act) && t == sys.next(n, turn.act)
  }

  lemma OneMore<S(!new), A(!new), L>(
      sys: System<S, A>, stands: (S, L) -> bool, s: S, turns: seq<Turn<L, A>>, m: S, turn: Turn<L, A>, n: S, t: S)
    requires Path(sys, stands, s, turns, m) && Ends(sys, stands, m, turn, n, t)
    ensures Path(sys, stands, s, turns + [turn], t)
  {
    var longer := turns + [turn];
    var k := |longer| - 1;
    assert longer[..k] == turns && longer[k] == turn;
    assert Path(sys, stands, s, longer[..k], m) && Ends(sys, stands, m, longer[k], n, t);
  }

  lemma OneTurn<S(!new), A(!new), L>(
      sys: System<S, A>, stands: (S, L) -> bool, s: S, n: S, turn: Turn<L, A>)
    requires Meanwhile(sys, stands, s, n, turn.slot) && sys.enabled(n, turn.act)
    ensures Path(sys, stands, s, [turn], sys.next(n, turn.act))
  {
    OneMore(sys, stands, s, [], s, turn, n, sys.next(n, turn.act));
    assert [] + [turn] == [turn];
  }

  lemma {:induction false} Chain<S(!new), A(!new), L>(
      sys: System<S, A>, stands: (S, L) -> bool, s: S, xs: seq<Turn<L, A>>, m: S, ys: seq<Turn<L, A>>, t: S)
    requires Path(sys, stands, s, xs, m) && Path(sys, stands, m, ys, t)
    ensures Path(sys, stands, s, xs + ys, t)
    decreases |ys|
  {
    if ys == [] {
      assert xs + ys == xs;
    } else {
      var k := |ys| - 1;
      var n, o :| Path(sys, stands, m, ys[..k], n) && Ends(sys, stands, n, ys[k], o, t);
      Chain(sys, stands, s, xs, m, ys[..k], n);
      OneMore(sys, stands, s, xs + ys[..k], n, ys[k], o, t);
      assert xs + ys == (xs + ys[..k]) + [ys[k]];
    }
  }

  /** A piece of a run is a run. */
  lemma {:induction false} PathLeads<S(!new), A(!new), L>(
      sys: System<S, A>, stands: (S, L) -> bool, s: S, turns: seq<Turn<L, A>>, t: S)
    requires Path(sys, stands, s, turns, t)
    ensures Leads(sys, s, t)
    decreases |turns|
  {
    if turns == [] {
      LeadsNowhere(sys, s);
    } else {
      var k := |turns| - 1;
      var m, n :| Path(sys, stands, s, turns[..k], m) && Ends(sys, stands, m, turns[k], n, t);
      PathLeads(sys, stands, s, turns[..k], m);
      var acts :| Passes(sys, stands, m, acts, n, turns[k].slot);
      PassesLeads(sys, stands, s, m, acts, n, turns[k].slot);
      LeadsStep(sys, s, n, turns[k].act);
    }
  }
}
