/**
 `comutex` of src/comutex.cpp over the same futex, now testing a flag.  The mutex has its own
 transition system; a simulation shows that it behaves like a semaphore that starts at 1, so that
 the semaphore's no-lost-wake-up argument carries over.  Here `unlock` is called by the holder; see
 StrayUnlock for other callers.
 */
module Mutex {
  import opened CoStatus
  import opened Counting
  import opened Runs
  import Sem = Semaphore

  datatype Pc =
    | Outside
    | Record               // got the flag, before `ctx_curr_ = ctx`
    | Held                 // past lock, before unlock
    | Release              // ctx_curr_ tested, before flag_.exchange(false)
    | Futex(at: Sem.Pc)    // TryDec stands for flag_.exchange(true)

  datatype Actor = Actor(pc: Pc, status: Status, place: Sem.Place)

  datatype Current = Null | Ctx(id: nat)

  datatype State = State(actors: seq<Actor>, queue: multiset<nat>, flag: bool, current: Current)

  datatype Action =
    | Lock(i: nat)
    | Step(i: nat)
    | Pop(i: nat, c: nat)
    | PopNothing(i: nat)

  predicate Enabled(s: State, a: Action) {
    && a.i < |s.actors|
    && var x := s.actors[a.i];
       match a
       case Lock(_) => x.pc.Outside?
       case Pop(_, c) => x.pc.Futex? && x.pc.at.PopQ? && c in s.queue && c < |s.actors|
       case PopNothing(_) => x.pc.Futex? && x.pc.at.PopQ? && s.queue == multiset{}
       case Step(_) =>
         && !x.pc.Outside?
         && (x.pc.Futex? ==>
               && !x.pc.at.PopQ?
               && (x.pc.at.Off? ==> x.status.Ready?)
               && (x.pc.at.ResumeIt? ==> x.pc.at.c < |s.actors|))
  }

  function Set(s: State, i: nat, x: Actor): State
    requires i < |s.actors|
  {
    s.(actors := s.actors[i := x])
  }

  function Goto(s: State, i: nat, pc: Pc): State
    requires i < |s.actors|
  {
    Set(s, i, s.actors[i].(pc := pc))
  }

  function Wake(s: State, c: nat): State
    requires c < |s.actors|
  {
    var st := s.actors[c].status;
    Set(s, c, s.actors[c].(status := StatusAfter(Attempt(Resume, st), st), place := Sem.Nowhere))
  }

  function PcAfter(after: Sem.After): Pc { if after.ToIdle? then Outside else Futex(Sem.SwitchOut) }

  function Apply(s: State, a: Action): State
    requires Enabled(s, a)
  {
    var x := s.actors[a.i];
    match a
    case Lock(i) => Goto(s, i, Futex(Sem.TryDec))
    case Pop(i, c) =>
      Goto(Set(s, c, s.actors[c].(place := Sem.Claimed(i))), i, Futex(Sem.ResumeIt(x.pc.at.after, c))).(
        queue := s.queue - multiset{c})
    case PopNothing(i) => Goto(s, i, PcAfter(x.pc.at.after))
    case Step(i) =>
      match x.pc
      case Record => Goto(s, i, Held).(current := Ctx(i))
      case Held => if s.current != Ctx(i) then s else Goto(s, i, Release)
      case Release => if !s.flag then Goto(s, i, Outside) else Goto(s, i, Futex(Sem.PopQ(Sem.ToIdle))).(flag := false)
      case Futex(_) => FutexStep(s, i)
      case Outside => s
  }

  /** Lines of dco_futex::dco_wait and dco_notify, with `!flag.load()` as the test. */
  function FutexStep(s: State, i: nat): State
    requires Enabled(s, Step(i)) && s.actors[i].pc.Futex?
  {
    var x := s.actors[i];
    match x.pc.at
    case TryDec => if s.flag then Goto(s, i, Futex(Sem.Enter)) else Goto(s, i, Record).(flag := true)
    case Enter =>
      (match Attempt(Yield, x.status)
       case Refuse => Goto(s, i, Futex(Sem.TryDec))
       case Move(next, _) => Set(s, i, x.(pc := Futex(Sem.Check), status := next)))
    case Check => Goto(s, i, Futex(if !s.flag then Sem.SelfResume else Sem.PushQ))
    case SelfResume => Goto(Wake(s, i), i, Futex(Sem.SwitchOut))
    case PushQ => Set(s, i, x.(pc := Futex(Sem.Recheck), place := Sem.InQueue)).(queue := s.queue + multiset{i})
    case Recheck => Goto(s, i, Futex(if !s.flag then Sem.PopQ(Sem.ToSwitch) else Sem.SwitchOut))
    case ResumeIt(after, c) => Goto(Wake(s, c), i, PcAfter(after))
    case SwitchOut => Set(s, i, x.(pc := Futex(Sem.Off), status := StatusAfter(Attempt(Sw, x.status), x.status)))
    case Off => Goto(s, i, Futex(Sem.TryDec))
    case _ => s
  }

  // ---- simulation ------------------------------------------------------------------------

  function AbsPc(pc: Pc): Sem.Pc {
    match pc
    case Futex(at) => at
    case Release => Sem.Inc
    case _ => Sem.Idle
  }

  function AbsActor(x: Actor): Sem.Actor {
    Sem.Actor(AbsPc(x.pc), x.status, x.place)
  }

  function AbsActors(xs: seq<Actor>): (r: seq<Sem.Actor>)
    ensures |r| == |xs| && forall i :: 0 <= i < |xs| ==> r[i] == AbsActor(xs[i])
  {
    seq(|xs|, i requires 0 <= i < |xs| => AbsActor(xs[i]))
  }

  /** The mutex seen as a semaphore: a free flag is one unit.  `locks` and `unlocks` are the counts
      the semaphore keeps of completed waits and of notifies. */
  function Abs(s: State, locks: nat, unlocks: nat): Sem.State {
    Sem.State(AbsActors(s.actors), s.queue, if s.flag then 0 else 1, unlocks, locks)
  }

  predicate Inside(x: Actor) {
    x.pc.Record? || x.pc.Held? || x.pc.Release?
  }

  ghost predicate LockOk(s: State) {
    && Count(s.actors, Inside) == One(s.flag)
    && (forall i :: 0 <= i < |s.actors| && (s.actors[i].pc.Held? || s.actors[i].pc.Release?) ==> s.current == Ctx(i))
    && (forall i :: 0 <= i < |s.actors| && s.actors[i].pc.Futex? ==>
          !s.actors[i].pc.at.Idle? && !s.actors[i].pc.at.Inc?)
  }

  /** The semaphore's view of `s` can become its view of `t` in at most one semaphore step. */
  ghost predicate Simulated(s: State, t: State, locks: nat, unlocks: nat, l: nat, u: nat) {
    var m, m' := Abs(s, locks, unlocks), Abs(t, l, u);
    m' == m || exists b :: Sem.Enabled(m, b) && m' == Sem.Apply(m, b)
  }

  lemma FutexResume(s: State, i: nat, locks: nat, unlocks: nat)
    requires LockOk(s) && Enabled(s, Step(i)) && s.actors[i].pc.Futex? && s.actors[i].pc.at.ResumeIt?
    ensures AbsActors(Apply(s, Step(i)).actors) == Sem.Apply(Abs(s, locks, unlocks), Sem.Step(i)).actors
  {}

  lemma FutexGotos(s: State, i: nat, locks: nat, unlocks: nat)
    requires LockOk(s) && Enabled(s, Step(i)) && s.actors[i].pc.Futex?
    requires var at := s.actors[i].pc.at; at.TryDec? || at.Check? || at.Recheck? || at.Off?
    ensures AbsActors(Apply(s, Step(i)).actors) == Sem.Apply(Abs(s, locks, unlocks), Sem.Step(i)).actors
  {}

  lemma FutexActors(s: State, i: nat, locks: nat, unlocks: nat)
    requires LockOk(s) && Enabled(s, Step(i)) && s.actors[i].pc.Futex?
    ensures Sem.Enabled(Abs(s, locks, unlocks), Sem.Step(i))
    ensures AbsActors(Apply(s, Step(i)).actors) == Sem.Apply(Abs(s, locks, unlocks), Sem.Step(i)).actors
  {
    var at := s.actors[i].pc.at;
    if at.ResumeIt? { FutexResume(s, i, locks, unlocks); }
    else if at.TryDec? || at.Check? || at.Recheck? || at.Off? { FutexGotos(s, i, locks, unlocks); }
  }

  lemma FutexSimulates(s: State, i: nat, locks: nat, unlocks: nat) returns (l: nat, u: nat)
    requires LockOk(s) && Enabled(s, Step(i)) && s.actors[i].pc.Futex?
    ensures Simulated(s, Apply(s, Step(i)), locks, unlocks, l, u)
  {
    var t := Apply(s, Step(i));
    var m := Abs(s, locks, unlocks);
    l, u := if s.actors[i].pc.at.TryDec? && !s.flag then locks + 1 else locks, unlocks;
    FutexActors(s, i, locks, unlocks);
    assert Abs(t, l, u) == Sem.Apply(m, Sem.Step(i));
  }

  lemma HolderSimulates(s: State, i: nat, locks: nat, unlocks: nat) returns (l: nat, u: nat)
    requires LockOk(s) && Enabled(s, Step(i)) && !s.actors[i].pc.Futex?
    ensures Simulated(s, Apply(s, Step(i)), locks, unlocks, l, u)
  {
    var t := Apply(s, Step(i));
    var m := Abs(s, locks, unlocks);
    l, u := locks, unlocks;
    if s.actors[i].pc.Record? {
      assert AbsActors(t.actors) == m.actors;
    } else if s.actors[i].pc.Held? {
      assert AbsActors(t.actors) == Sem.Apply(m, Sem.StartNotify(i)).actors;
      assert Abs(t, l, u) == Sem.Apply(m, Sem.StartNotify(i));
    } else {
      u := unlocks + 1;
      CountPositive(s.actors, i, Inside);
      assert AbsActors(t.actors) == Sem.Apply(m, Sem.Step(i)).actors;
      assert Abs(t, l, u) == Sem.Apply(m, Sem.Step(i));
    }
  }

  lemma PopSimulates(s: State, a: Action, locks: nat, unlocks: nat)
    requires LockOk(s) && Enabled(s, a) && a.Pop?
    ensures Sem.Enabled(Abs(s, locks, unlocks), Sem.Pop(a.i, a.c))
    ensures Abs(Apply(s, a), locks, unlocks) == Sem.Apply(Abs(s, locks, unlocks), Sem.Pop(a.i, a.c))
  {
    assert AbsActors(Apply(s, a).actors) == Sem.Apply(Abs(s, locks, unlocks), Sem.Pop(a.i, a.c)).actors;
  }

  /** Every step of the mutex is a step of the semaphore or changes nothing the semaphore sees. */
  lemma StepSimulates(s: State, a: Action, locks: nat, unlocks: nat) returns (l: nat, u: nat)
    requires LockOk(s) && Enabled(s, a)
    ensures Simulated(s, Apply(s, a), locks, unlocks, l, u)
  {
    l, u := locks, unlocks;
    var t := Apply(s, a);
    var m := Abs(s, locks, unlocks);
    match a
    case Lock(i) =>
      assert AbsActors(t.actors) == Sem.Apply(m, Sem.StartWait(i)).actors;
      assert Abs(t, l, u) == Sem.Apply(m, Sem.StartWait(i));
    case Pop(i, c) => PopSimulates(s, a, locks, unlocks);
    case PopNothing(i) =>
      assert AbsActors(t.actors) == Sem.Apply(m, Sem.PopNothing(i)).actors;
      assert Abs(t, l, u) == Sem.Apply(m, Sem.PopNothing(i));
    case Step(i) =>
      if s.actors[i].pc.Futex? { l, u := FutexSimulates(s, i, locks, unlocks); }
      else { l, u := HolderSimulates(s, i, locks, unlocks); }
  }

  lemma OnlyInside(s: State, i: nat)
    requires LockOk(s) && i < |s.actors| && Inside(s.actors[i])
    ensures s.flag && forall j :: 0 <= j < |s.actors| && Inside(s.actors[j]) ==> j == i
  {
    CountPositive(s.actors, i, Inside);
    forall j | 0 <= j < |s.actors| && Inside(s.actors[j])
      ensures j == i
    {
      if j < i { CountTwo(s.actors, j, i, Inside); }
      if i < j { CountTwo(s.actors, i, j, Inside); }
    }
  }

  /** Steps that also change another context: only its status and its place. */
  lemma WakeKeepsLock(s: State, i: nat, c: nat, x: Actor, pc: Pc)
    requires LockOk(s) && i < |s.actors| && c < |s.actors|
    requires x.pc == s.actors[c].pc && s.actors[i].pc.Futex?
    requires pc.Outside? || (pc.Futex? && !pc.at.Idle? && !pc.at.Inc?)
    ensures LockOk(Goto(Set(s, c, x), i, pc))
  {
    CountUpdate(s.actors, c, x, Inside);
    CountUpdate(s.actors[c := x], i, s.actors[c := x][i].(pc := pc), Inside);
  }

  lemma HolderKeepsLock(s: State, i: nat)
    requires LockOk(s) && Enabled(s, Step(i)) && !s.actors[i].pc.Futex?
    ensures LockOk(Apply(s, Step(i)))
  {
    var t := Apply(s, Step(i));
    assert t.actors == s.actors[i := t.actors[i]];
    CountUpdate(s.actors, i, t.actors[i], Inside);
    OnlyInside(s, i);
  }

  /** Only context i moves, and it gets inside exactly when the flag goes up. */
  ghost predicate LocalMove(s: State, t: State, i: nat) {
    && i < |s.actors| == |t.actors| && t.actors == s.actors[i := t.actors[i]] && t.current == s.current
    && var x, y := s.actors[i], t.actors[i];
       && !y.pc.Held? && !y.pc.Release?
       && (y.pc.Futex? ==> !y.pc.at.Idle? && !y.pc.at.Inc?)
       && One(Inside(y)) + One(s.flag) == One(Inside(x)) + One(t.flag)
  }

  lemma LocalMoveKeepsLock(s: State, t: State, i: nat)
    requires LockOk(s) && LocalMove(s, t, i)
    ensures LockOk(t)
  {
    CountUpdate(s.actors, i, t.actors[i], Inside);
  }

  lemma OwnStepIsLocal(s: State, a: Action)
    requires LockOk(s) && Enabled(s, a) && !a.Pop?
    requires a.Step? ==> s.actors[a.i].pc.Futex? && !s.actors[a.i].pc.at.ResumeIt?
    ensures LocalMove(s, Apply(s, a), a.i)
  {}

  lemma LockOkPreserved(s: State, a: Action)
    requires LockOk(s) && Enabled(s, a)
    ensures LockOk(Apply(s, a))
  {
    var x := s.actors[a.i];
    if a.Pop? {
      WakeKeepsLock(s, a.i, a.c, s.actors[a.c].(place := Sem.Claimed(a.i)), Futex(Sem.ResumeIt(x.pc.at.after, a.c)));
    } else if a.Step? && x.pc.Futex? && x.pc.at.ResumeIt? {
      WakeKeepsLock(s, a.i, x.pc.at.c, Wake(s, x.pc.at.c).actors[x.pc.at.c], PcAfter(x.pc.at.after));
    } else if a.Step? && !x.pc.Futex? {
      HolderKeepsLock(s, a.i);
    } else {
      OwnStepIsLocal(s, a);
      LocalMoveKeepsLock(s, Apply(s, a), a.i);
    }
  }

  // ---- every reachable state -------------------------------------------------------------

  ghost predicate Initial(s: State) {
    && (forall i :: 0 <= i < |s.actors| ==> s.actors[i] == Actor(Outside, Ready, Sem.Nowhere))
    && s.queue == multiset{} && !s.flag && s.current.Null?
  }

  function Next(s: State, a: Action): State { if Enabled(s, a) then Apply(s, a) else s }

  ghost function Sys(): System<State, Action> { System(Enabled, Next) }

  ghost predicate Reachable(t: State) {
    exists s, acts :: Initial(s) && Reaches(Sys(), s, acts, t)
  }

  lemma ReachableStep(m: State, a: Action)
    requires Reachable(m) && Enabled(m, a)
    ensures Reachable(Apply(m, a))
  {
    var s, acts :| Initial(s) && Reaches(Sys(), s, acts, m);
    ReachesStep(Sys(), s, acts, m, a);
  }

  /** The semaphore has a run from `start` to its view of `m`. */
  ghost predicate Followed(start: Sem.State, m: State) {
    LockOk(m) && exists l: nat, u: nat :: Leads(Sem.Sys(), start, Abs(m, l, u))
  }

  lemma FollowedStep(start: Sem.State, m: State, a: Action)
    requires Followed(start, m) && Enabled(m, a)
    ensures Followed(start, Apply(m, a))
  {
    LockOkPreserved(m, a);
    var l: nat, u: nat :| Leads(Sem.Sys(), start, Abs(m, l, u));
    var l1, u1 := StepSimulates(m, a, l, u);
    FollowOn(start, Abs(m, l, u), Abs(Apply(m, a), l1, u1));
  }

  lemma FollowOn(start: Sem.State, x: Sem.State, y: Sem.State)
    requires Leads(Sem.Sys(), start, x)
    requires y == x || exists b :: Sem.Enabled(x, b) && y == Sem.Apply(x, b)
    ensures Leads(Sem.Sys(), start, y)
  {
    if y != x {
      var b :| Sem.Enabled(x, b) && y == Sem.Apply(x, b);
      LeadsStep(Sem.Sys(), start, x, b);
    }
  }

  lemma InitialFollows(s: State)
    requires Initial(s)
    ensures LockOk(s) && Sem.Initial(Abs(s, 0, 0))
  {
    CountNone(s.actors, Inside);
  }

  /** Every reachable state of the mutex is a reachable state of a semaphore that started at 1. */
  lemma MutexIsSemaphore(t: State) returns (l: nat, u: nat)
    requires Reachable(t)
    ensures LockOk(t) && Sem.Reachable(1, Abs(t, l, u))
  {
    var s, acts :| Initial(s) && Reaches(Sys(), s, acts, t);
    InitialFollows(s);
    var start := Abs(s, 0, 0);
    LeadsNowhere(Sem.Sys(), start);
    var inv := m => Followed(start, m);
    forall m, a | inv(m) && Sys().enabled(m, a)
      ensures inv(Sys().next(m, a))
    {
      FollowedStep(start, m, a);
    }
    LeadsInvariant(Sys(), inv, s, t);
    l, u :| Leads(Sem.Sys(), start, Abs(t, l, u));
  }

  // ---- theorems --------------------------------------------------------------------------

  /** At most one context is past `lock` and before the exchange of `unlock`; it holds the flag, and
      once it has recorded itself `ctx_curr_` names it, so its `unlock` is not refused. */
  lemma MutualExclusion(s: State, i: nat, j: nat)
    requires Reachable(s) && i < |s.actors| && j < |s.actors| && Inside(s.actors[i]) && Inside(s.actors[j])
    ensures i == j && s.flag
    ensures s.actors[i].pc.Held? ==> s.current == Ctx(i) && Apply(s, Step(i)).actors[i].pc.Release?
  {
    var l, u := MutexIsSemaphore(s);
    OnlyInside(s, i);
  }

  /** A taken flag always has a taker: the lock is never left locked by nobody. */
  lemma LockedHasHolder(s: State) returns (i: nat)
    requires Reachable(s) && s.flag
    ensures i < |s.actors| && Inside(s.actors[i])
  {
    var l, u := MutexIsSemaphore(s);
    if forall k :: 0 <= k < |s.actors| ==> !Inside(s.actors[k]) {
      CountNone(s.actors, Inside);
    }
    i :| 0 <= i < |s.actors| && Inside(s.actors[i]);
  }

  /** Only contexts outside, blocked in `lock`, or holding the lock are left. */
  predicate Quiescent(s: State) {
    forall i :: 0 <= i < |s.actors| ==>
      var x := s.actors[i];
      x.pc.Outside? || x.pc.Held? || (x.pc == Futex(Sem.Off) && !x.status.Ready?)
  }

  /** No lost wake-up: when nothing can move and a context is blocked in `lock`, another context holds
      the lock; and the blocked one is in the wait queue, so the holder's `unlock` will find it. */
  lemma NoLostWakeup(s: State, i: nat) returns (holder: nat)
    requires Reachable(s) && Quiescent(s) && i < |s.actors| && s.actors[i].pc == Futex(Sem.Off)
    ensures holder < |s.actors| && s.actors[holder].pc.Held?
    ensures s.queue[i] == 1
  {
    var l, u := MutexIsSemaphore(s);
    Sem.NoLostWakeup(1, Abs(s, l, u), i);
    holder := LockedHasHolder(s);
  }

  /** The same while operations are under way: a free flag and a non-empty queue imply a thread
      committed to a notify or a resume, a pending re-check, or an awake retrier. */
  lemma FreeFlagIsAttended(s: State) returns (i: nat)
    requires Reachable(s) && !s.flag && s.queue != multiset{}
    ensures i < |s.actors|
    ensures var x := AbsActor(s.actors[i]);
            Sem.Rechecking(x) || Sem.Popping(x) || Sem.Resuming(x) || Sem.WillRetry(x)
  {
    var l, u := MutexIsSemaphore(s);
    var m := Abs(s, l, u);
    if forall k :: 0 <= k < |m.actors| ==>
         !Sem.Rechecking(m.actors[k]) && !Sem.Popping(m.actors[k]) && !Sem.Resuming(m.actors[k]) && !Sem.WillRetry(m.actors[k])
    {
      Sem.QueueOrCounterEmpty(1, m);
    }
    i :| 0 <= i < |m.actors| &&
         (Sem.Rechecking(m.actors[i]) || Sem.Popping(m.actors[i]) || Sem.Resuming(m.actors[i]) || Sem.WillRetry(m.actors[i]));
  }
}
