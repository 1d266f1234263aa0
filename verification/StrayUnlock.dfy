/**
 `unlock` of src/comutex.cpp called by contexts that do not hold the lock.  `ctx_curr_` is never
 cleared, so the last holder passes its test until the next one has recorded itself.  The test and
 the exchange that follow it are separate steps beside those of the mutex.
 */
module StrayUnlock {
  import opened CoStatus
  import opened Counting
  import opened Runs
  import Sem = Semaphore
  import M = Mutex

  /** `passed`: contexts outside the lock that found themselves in `ctx_curr_` and have not done
      the exchange yet. */
  datatype State = State(mutex: M.State, passed: set<nat>)

  datatype Action =
    | Own(a: M.Action)   // a step of the mutex
    | Test(i: nat)       // unlock: ctx_curr_ == dco_curr_ctx()
    | Exchange(i: nat)   // unlock: flag_.exchange(false)

  predicate IsOutside(m: M.State, i: nat) {
    i < |m.actors| && m.actors[i].pc.Outside?
  }

  predicate Enabled(s: State, a: Action) {
    match a
    case Own(b) => M.Enabled(s.mutex, b) && b.i !in s.passed
    case Test(i) => IsOutside(s.mutex, i) && i !in s.passed
    case Exchange(i) => i in s.passed && i < |s.mutex.actors|
  }

  function Next(s: State, a: Action): State {
    if !Enabled(s, a) then s
    else
      match a
      case Own(b) => s.(mutex := M.Apply(s.mutex, b))
      case Test(i) => if s.mutex.current != M.Ctx(i) then s else s.(passed := s.passed + {i})
      case Exchange(i) =>
        State(if !s.mutex.flag then s.mutex
              else M.Goto(s.mutex, i, M.Futex(Sem.PopQ(Sem.ToIdle))).(flag := false),
              s.passed - {i})
  }

  ghost function Sys(): System<State, Action> { System(Enabled, Next) }

  ghost predicate Initial(n: nat, s: State) {
    M.Initial(s.mutex) && |s.mutex.actors| == n && s.passed == {}
  }

  /** `t` is reachable with n contexts. */
  ghost predicate Reachable(n: nat, t: State) {
    exists s, acts :: Initial(n, s) && Reaches(Sys(), s, acts, t)
  }

  lemma ReachableStep(n: nat, m: State, a: Action)
    requires Reachable(n, m) && Enabled(m, a)
    ensures Reachable(n, Next(m, a))
  {
    var s, acts :| Initial(n, s) && Reaches(Sys(), s, acts, m);
    ReachesStep(Sys(), s, acts, m, a);
  }

  // ---- runs in which no stray call gets through ------------------------------------------

  /** Every stray exchange so far found the flag down. */
  ghost function SysRefused(): System<State, Action> {
    System((s: State, a: Action) => Enabled(s, a) && (a.Exchange? ==> !s.mutex.flag), Next)
  }

  ghost predicate ReachableRefused(n: nat, t: State) {
    exists s, acts :: Initial(n, s) && Reaches(SysRefused(), s, acts, t)
  }

  ghost predicate Inv(n: nat, s: State) {
    && M.Reachable(s.mutex) && |s.mutex.actors| == n
    && forall i :: i in s.passed ==> IsOutside(s.mutex, i)
  }

  lemma OthersStay(m: M.State, a: M.Action, k: nat)
    requires M.Enabled(m, a) && k < |m.actors| && k != a.i
    ensures |M.Apply(m, a).actors| == |m.actors| && M.Apply(m, a).actors[k].pc == m.actors[k].pc
  {
    if a.Step? && m.actors[a.i].pc.Futex? { OthersStayInFutex(m, a.i, k); }
  }

  lemma OthersStayInFutex(m: M.State, i: nat, k: nat)
    requires M.Enabled(m, M.Step(i)) && m.actors[i].pc.Futex? && k < |m.actors| && k != i
    ensures |M.FutexStep(m, i).actors| == |m.actors| && M.FutexStep(m, i).actors[k].pc == m.actors[k].pc
  {}

  lemma SameActors(m: M.State, a: M.Action)
    requires M.Enabled(m, a)
    ensures |M.Apply(m, a).actors| == |m.actors|
  {}

  lemma InvPreserved(n: nat, s: State, a: Action)
    requires Inv(n, s) && SysRefused().enabled(s, a)
    ensures Inv(n, Next(s, a))
  {
    if a.Own? {
      M.ReachableStep(s.mutex, a.a);
      SameActors(s.mutex, a.a);
      forall i | i in s.passed
        ensures IsOutside(M.Apply(s.mutex, a.a), i)
      {
        OthersStay(s.mutex, a.a, i);
      }
    }
  }

  /** Refused calls leave no trace: what the mutex goes through is one of its own runs. */
  lemma RefusedLeavesNoTrace(n: nat, t: State)
    requires ReachableRefused(n, t)
    ensures Inv(n, t)
  {
    var s, acts :| Initial(n, s) && Reaches(SysRefused(), s, acts, t);
    LeadsNowhere(M.Sys(), s.mutex);
    var inv := m => Inv(n, m);
    forall m, a | inv(m) && SysRefused().enabled(m, a)
      ensures inv(SysRefused().next(m, a))
    {
      InvPreserved(n, m, a);
    }
    InvariantHolds(SysRefused(), inv, s, acts, t);
  }

  ghost predicate Exclusive(m: M.State) {
    forall i, j :: 0 <= i < j < |m.actors| ==> !(M.Inside(m.actors[i]) && M.Inside(m.actors[j]))
  }

  lemma RefusedExcludes(n: nat, t: State)
    requires ReachableRefused(n, t)
    ensures Exclusive(t.mutex)
  {
    RefusedLeavesNoTrace(n, t);
    forall i, j | 0 <= i < j < |t.mutex.actors| && M.Inside(t.mutex.actors[i]) && M.Inside(t.mutex.actors[j])
      ensures false
    {
      M.MutualExclusion(t.mutex, i, j);
    }
  }

  // ---- what a stray call does ------------------------------------------------------------

  /** A stray `unlock` passes the test only while nobody is recorded as the holder: the flag is
      down, or the context that raised it is not in `ctx_curr_` yet. */
  lemma TestIsExact(n: nat, s: State, i: nat)
    requires ReachableRefused(n, s) && Enabled(s, Test(i))
    ensures i in Next(s, Test(i)).passed <==> s.mutex.current == M.Ctx(i)
    ensures i in Next(s, Test(i)).passed ==>
              forall j :: 0 <= j < |s.mutex.actors| ==> !s.mutex.actors[j].pc.Held? && !s.mutex.actors[j].pc.Release?
  {
    RefusedLeavesNoTrace(n, s);
    forall j | 0 <= j < |s.mutex.actors| && (s.mutex.actors[j].pc.Held? || s.mutex.actors[j].pc.Release?)
      ensures s.mutex.current == M.Ctx(j) && j != i
    {
      var l, u := M.MutexIsSemaphore(s.mutex);
    }
  }

  /** The exchange of a stray call is refused exactly when the flag is down; otherwise it takes the
      lock from another context, which is left inside with the flag down. */
  lemma ExchangeIsExact(n: nat, s: State, i: nat) returns (j: nat)
    requires ReachableRefused(n, s) && Enabled(s, Exchange(i))
    ensures var t := Next(s, Exchange(i)).mutex;
            if s.mutex.flag then
              && j < |s.mutex.actors| == |t.actors| && j != i
              && M.Inside(s.mutex.actors[j]) && M.Inside(t.actors[j]) && !t.flag && !M.LockOk(t)
            else t == s.mutex && M.LockOk(t)
  {
    RefusedLeavesNoTrace(n, s);
    var l, u := M.MutexIsSemaphore(s.mutex);
    j := 0;
    if s.mutex.flag {
      j := M.LockedHasHolder(s.mutex);
      CountPositive(Next(s, Exchange(i)).mutex.actors, j, M.Inside);
    }
  }

  // ---- when exclusion survives -----------------------------------------------------------

  function Calm(pc: M.Pc): M.Actor { M.Actor(pc, Ready, Sem.Nowhere) }

  /** Context 0 is at `p`, context 1 at `q`, all others are outside. */
  function Pair(n: nat, p: M.Pc, q: M.Pc): (r: seq<M.Actor>)
    ensures |r| == n
    ensures forall k :: 0 <= k < n ==> r[k] == Calm(if k == 0 then p else if k == 1 then q else M.Outside)
  {
    seq(n, k => Calm(if k == 0 then p else if k == 1 then q else M.Outside))
  }

  lemma PairMoves(n: nat, p: M.Pc, q: M.Pc, x: M.Pc)
    requires n >= 2
    ensures Pair(n, p, q)[0 := Calm(x)] == Pair(n, x, q)
    ensures Pair(n, p, q)[1 := Calm(x)] == Pair(n, p, x)
  {}

  /** Nobody waits in the queue. */
  function Duo(n: nat, p: M.Pc, q: M.Pc, flag: bool, current: M.Current, passed: set<nat>): State {
    State(M.State(Pair(n, p, q), multiset{}, flag, current), passed)
  }

  lemma Go(n: nat, s: State, a: Action, t: State)
    requires Reachable(n, s) && Enabled(s, a) && Next(s, a) == t
    ensures Reachable(n, t)
  {
    ReachableStep(n, s, a);
  }

  /** Context 0, at `p`, takes a step of the mutex to `x`. */
  lemma First(n: nat, p: M.Pc, q: M.Pc, flag: bool, current: M.Current, a: M.Action, x: M.Pc, up: bool, now: M.Current)
    requires n >= 2 && Reachable(n, Duo(n, p, q, flag, current, {})) && a.i == 0
    requires M.Enabled(Duo(n, p, q, flag, current, {}).mutex, a)
    requires var m := Duo(n, p, q, flag, current, {}).mutex;
             M.Apply(m, a) == M.Goto(m, 0, x).(flag := up, current := now)
    ensures Reachable(n, Duo(n, x, q, up, now, {}))
  {
    PairMoves(n, p, q, x);
    Go(n, Duo(n, p, q, flag, current, {}), Own(a), Duo(n, x, q, up, now, {}));
  }

  const POPPING: M.Pc := M.Futex(Sem.PopQ(Sem.ToIdle))
  const TRYING: M.Pc := M.Futex(Sem.TryDec)

  /** Context 0 locks and unlocks; `ctx_curr_` still names it. */
  lemma LockAndUnlock(n: nat)
    requires n >= 2
    ensures Reachable(n, Duo(n, M.Outside, M.Outside, false, M.Ctx(0), {}))
  {
    var s := Duo(n, M.Outside, M.Outside, false, M.Null, {});
    assert Initial(n, s);
    LeadsNowhere(Sys(), s);
    First(n, M.Outside, M.Outside, false, M.Null, M.Lock(0), TRYING, false, M.Null);
    First(n, TRYING, M.Outside, false, M.Null, M.Step(0), M.Record, true, M.Null);
    First(n, M.Record, M.Outside, true, M.Null, M.Step(0), M.Held, true, M.Ctx(0));
    Unlocks(n);
  }

  lemma Unlocks(n: nat)
    requires n >= 2 && Reachable(n, Duo(n, M.Held, M.Outside, true, M.Ctx(0), {}))
    ensures Reachable(n, Duo(n, M.Outside, M.Outside, false, M.Ctx(0), {}))
  {
    var c := M.Ctx(0);
    First(n, M.Held, M.Outside, true, c, M.Step(0), M.Release, true, c);
    First(n, M.Release, M.Outside, true, c, M.Step(0), POPPING, false, c);
    First(n, POPPING, M.Outside, false, c, M.PopNothing(0), M.Outside, false, c);
  }

  /** Context 1 takes the flag; before it has recorded itself, context 0 unlocks once more and locks. */
  lemma StrayBreaksIn(n: nat)
    requires n >= 2
    ensures Reachable(n, Duo(n, M.Record, M.Record, true, M.Ctx(0), {}))
  {
    LockAndUnlock(n);
    var c := M.Ctx(0);
    PairMoves(n, M.Outside, M.Outside, TRYING);
    Go(n, Duo(n, M.Outside, M.Outside, false, c, {}), Own(M.Lock(1)), Duo(n, M.Outside, TRYING, false, c, {}));
    PairMoves(n, M.Outside, TRYING, M.Record);
    Go(n, Duo(n, M.Outside, TRYING, false, c, {}), Own(M.Step(1)), Duo(n, M.Outside, M.Record, true, c, {}));
    Go(n, Duo(n, M.Outside, M.Record, true, c, {}), Test(0), Duo(n, M.Outside, M.Record, true, c, {0}));
    StrayFrees(n);
  }

  lemma StrayFrees(n: nat)
    requires n >= 2 && Reachable(n, Duo(n, M.Outside, M.Record, true, M.Ctx(0), {0}))
    ensures Reachable(n, Duo(n, M.Record, M.Record, true, M.Ctx(0), {}))
  {
    var c := M.Ctx(0);
    PairMoves(n, M.Outside, M.Record, POPPING);
    Go(n, Duo(n, M.Outside, M.Record, true, c, {0}), Exchange(0), Duo(n, POPPING, M.Record, false, c, {}));
    First(n, POPPING, M.Record, false, c, M.PopNothing(0), M.Outside, false, c);
    First(n, M.Outside, M.Record, false, c, M.Lock(0), TRYING, false, c);
    First(n, TRYING, M.Record, false, c, M.Step(0), M.Record, true, c);
  }

  lemma SameNumber(n: nat, t: State)
    requires Reachable(n, t)
    ensures |t.mutex.actors| == n
  {
    var s, acts :| Initial(n, s) && Reaches(Sys(), s, acts, t);
    var inv := (m: State) => |m.mutex.actors| == n;
    forall m, a | inv(m) && Sys().enabled(m, a)
      ensures inv(Sys().next(m, a))
    {
      if a.Own? { SameActors(m.mutex, a.a); }
    }
    InvariantHolds(Sys(), inv, s, acts, t);
  }

  /** If any context may call `unlock` at any time, the lock excludes in every run exactly when there
      are not two contexts.  (If only holders call it, it always does: see Mutex.) */
  lemma StrayExactly(n: nat)
    ensures (forall s :: Reachable(n, s) ==> Exclusive(s.mutex)) <==> n < 2
  {
    if n < 2 {
      forall s | Reachable(n, s)
        ensures Exclusive(s.mutex)
      {
        SameNumber(n, s);
      }
    } else {
      StrayBreaksIn(n);
      var s := Duo(n, M.Record, M.Record, true, M.Ctx(0), {});
      assert M.Inside(s.mutex.actors[0]) && M.Inside(s.mutex.actors[1]);
    }
  }
}
