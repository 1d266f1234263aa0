/**
 `cosemaphore` on top of the futex of src/cofutex.cpp: any number of contexts that wait and notify
 in any order, as a transition system in which every test of `sem_`, every change of it, every
 operation on the wait queue and every status change is a step.  Each context carries its real
 status, so that a wake-up can in principle fail.

 A queued context is resumed only by itself or by whoever popped it.
 */
module Semaphore {
  import opened CoStatus
  import opened Counting
  import opened Runs

  /** What follows the `dco_notify` a context is in: it may belong to `notify`, or to the re-check
      of its own wait. */
  datatype After = ToIdle | ToSwitch

  datatype Pc =
    | Idle
    | TryDec                     // before atomic_decrement_if_positive
    | Enter                      // before try_yield_full
    | Check                      // before the first `sem.load() > 0`
    | SelfResume                 // before dco_resume of itself
    | PushQ                      // before que.push
    | Recheck                    // before the second `sem.load() > 0`
    | PopQ(after: After)         // in dco_notify, before que.pop
    | ResumeIt(after: After, c: nat) // in dco_notify, before dco_resume of the popped context
    | SwitchOut                  // callback done, before try_sw_full
    | Off                        // switched out
    | Inc                        // in notify, before ++sem_

  /** History variable: where a waiting context can be found. */
  datatype Place = Nowhere | InQueue | Claimed(popper: nat)

  datatype Actor = Actor(pc: Pc, status: Status, place: Place)

  datatype State = State(actors: seq<Actor>, queue: multiset<nat>, sem: int, notifies: nat, waits: nat)

  datatype Action =
    | StartWait(i: nat)
    | StartNotify(i: nat)
    | Step(i: nat)          // the next step of a context that has only one
    | Pop(i: nat, c: nat)
    | PopNothing(i: nat)

  predicate Enabled(s: State, a: Action) {
    && a.i < |s.actors|
    && var pc := s.actors[a.i].pc;
       match a
       case StartWait(_) => pc.Idle?
       case StartNotify(_) => pc.Idle?
       case Pop(_, c) => pc.PopQ? && c in s.queue && c < |s.actors|
       case PopNothing(_) => pc.PopQ? && s.queue == multiset{}
       case Step(i) =>
         && !pc.Idle? && !pc.PopQ?
         && (pc.Off? ==> s.actors[i].status.Ready?)
         && (pc.ResumeIt? ==> pc.c < |s.actors|)
  }

  function PcAfter(after: After): Pc { if after.ToIdle? then Idle else SwitchOut }

  function Set(s: State, i: nat, a: Actor): State
    requires i < |s.actors|
  {
    s.(actors := s.actors[i := a])
  }

  function Goto(s: State, i: nat, pc: Pc): State
    requires i < |s.actors|
  {
    Set(s, i, s.actors[i].(pc := pc))
  }

  /** `dco_resume(c)`: the result is ignored by every caller modelled here. */
  function Wake(s: State, c: nat): State
    requires c < |s.actors|
  {
    var st := s.actors[c].status;
    Set(s, c, s.actors[c].(status := StatusAfter(Attempt(Resume, st), st), place := Nowhere))
  }

  function Apply(s: State, a: Action): State
    requires Enabled(s, a)
  {
    match a
    case StartWait(i) => Goto(s, i, TryDec)
    case StartNotify(i) => Goto(s, i, Inc)
    case Pop(i, c) =>
      Goto(Set(s, c, s.actors[c].(place := Claimed(i))), i, ResumeIt(s.actors[i].pc.after, c)).(
        queue := s.queue - multiset{c})
    case PopNothing(i) => Goto(s, i, PcAfter(s.actors[i].pc.after))
    case Step(i) => Advance(s, i)
  }

  function Advance(s: State, i: nat): State
    requires Enabled(s, Step(i))
  {
    var x := s.actors[i];
    match x.pc
    case TryDec => if s.sem > 0 then Goto(s, i, Idle).(sem := s.sem - 1, waits := s.waits + 1) else Goto(s, i, Enter)
    case Enter =>
      (match Attempt(Yield, x.status)
       case Refuse => Goto(s, i, TryDec)
       case Move(next, _) => Set(s, i, x.(pc := Check, status := next)))
    case Check => Goto(s, i, if s.sem > 0 then SelfResume else PushQ)
    case SelfResume => Goto(Wake(s, i), i, SwitchOut)
    case PushQ => Set(s, i, x.(pc := Recheck, place := InQueue)).(queue := s.queue + multiset{i})
    case Recheck => Goto(s, i, if s.sem > 0 then PopQ(ToSwitch) else SwitchOut)
    case ResumeIt(after, c) => Goto(Wake(s, c), i, PcAfter(after))
    case SwitchOut => Set(s, i, x.(pc := Off, status := StatusAfter(Attempt(Sw, x.status), x.status)))
    case Off => Goto(s, i, TryDec)
    case Inc => Goto(s, i, PopQ(ToIdle)).(sem := s.sem + 1, notifies := s.notifies + 1)
    case _ => s
  }

  // ---- invariant -------------------------------------------------------------------------

  predicate Rechecking(a: Actor) { a.pc.Recheck? }
  predicate Popping(a: Actor) { a.pc.PopQ? }
  predicate Resuming(a: Actor) { a.pc.ResumeIt? }

  /** The context will try the decrement again without anybody's help. */
  predicate WillRetry(a: Actor) {
    a.pc.TryDec? || a.pc.SelfResume? || a.status.YieldBreak? || (a.pc.Off? && a.status.Ready?)
  }

  /** Nobody has woken the context since it entered the queue. */
  predicate Waits(a: Actor) { !a.place.Nowhere? }

  predicate Local(a: Actor) {
    match a.pc
    case Check => a.status.YieldReset? && !Waits(a)
    case SelfResume => a.status.YieldReset? && !Waits(a)
    case PushQ => a.status.YieldReset? && !Waits(a)
    case Recheck => MaySwitch(a)
    case PopQ(after) => if after.ToSwitch? then MaySwitch(a) else a.status.Ready? && !Waits(a)
    case ResumeIt(after, _) => if after.ToSwitch? then MaySwitch(a) else a.status.Ready? && !Waits(a)
    case SwitchOut => MaySwitch(a)
    case Off => if Waits(a) then a.status.YieldSet? else a.status.Ready?
    case _ => a.status.Ready? && !Waits(a)
  }

  predicate MaySwitch(a: Actor) {
    if Waits(a) then a.status.YieldReset? else a.status.YieldBreak?
  }

  ghost predicate PlaceOk(s: State, i: nat)
    requires i < |s.actors|
  {
    var a := s.actors[i];
    && s.queue[i] == One(a.place.InQueue?)
    && (a.place.Claimed? ==> a.place.popper < |s.actors| && s.actors[a.place.popper].pc.ResumeIt? && s.actors[a.place.popper].pc.c == i)
    && (a.pc.ResumeIt? ==> a.pc.c < |s.actors| && s.actors[a.pc.c].place == Claimed(i))
  }

  /** Either every queued context is covered by a thread that will still look at the queue, or every
      unit of `sem_` is covered by a thread that will still take it or wake someone who will. */
  ghost predicate Covered(s: State) {
    || |s.queue| <= Count(s.actors, Rechecking) + Count(s.actors, Popping)
    || s.sem <= Count(s.actors, Popping) + Count(s.actors, Resuming) + Count(s.actors, WillRetry)
  }

  ghost predicate Shape(s: State) {
    && (forall i :: 0 <= i < |s.actors| ==> Local(s.actors[i]) && PlaceOk(s, i))
    && (forall c :: c in s.queue ==> c < |s.actors|)
  }

  ghost predicate Inv(s: State) {
    Shape(s) && Covered(s)
  }

  // ---- preservation ----------------------------------------------------------------------

  ghost predicate ActorOk(s: State, i: nat)
    requires i < |s.actors|
  {
    Local(s.actors[i]) && PlaceOk(s, i)
  }

  lemma PopShape(s: State, i: nat, c: nat)
    requires Shape(s) && Enabled(s, Pop(i, c))
    ensures Shape(Apply(s, Pop(i, c)))
  {
    var s' := Apply(s, Pop(i, c));
    assert ActorOk(s, i) && ActorOk(s, c);
    forall k | 0 <= k < |s'.actors|
      ensures Local(s'.actors[k]) && PlaceOk(s', k)
    {
      assert ActorOk(s, k);
    }
  }

  lemma ResumeShape(s: State, i: nat)
    requires Shape(s) && Enabled(s, Step(i)) && s.actors[i].pc.ResumeIt?
    ensures Shape(Apply(s, Step(i)))
  {
    var s' := Apply(s, Step(i));
    assert ActorOk(s, i) && ActorOk(s, s.actors[i].pc.c);
    forall k | 0 <= k < |s'.actors|
      ensures Local(s'.actors[k]) && PlaceOk(s', k)
    {
      assert ActorOk(s, k);
    }
  }

  lemma OwnActor(s: State, a: Action)
    requires Shape(s) && Enabled(s, a) && !a.Pop? && (a.Step? ==> !s.actors[a.i].pc.ResumeIt?)
    ensures ActorOk(Apply(s, a), a.i)
  {
    assert ActorOk(s, a.i);
  }

  /** A step that only concerns the acting context. */
  lemma OwnShape(s: State, a: Action)
    requires Shape(s) && Enabled(s, a) && !a.Pop? && (a.Step? ==> !s.actors[a.i].pc.ResumeIt?)
    ensures Shape(Apply(s, a))
  {
    var s' := Apply(s, a);
    OwnActor(s, a);
    forall k | 0 <= k < |s'.actors| && k != a.i
      ensures Local(s'.actors[k]) && PlaceOk(s', k)
    {
      OtherActor(s, a, k);
    }
    QueueKnown(s, a);
  }

  lemma OtherActor(s: State, a: Action, k: nat)
    requires Shape(s) && Enabled(s, a) && !a.Pop? && (a.Step? ==> !s.actors[a.i].pc.ResumeIt?)
    requires k < |s.actors| && k != a.i
    ensures ActorOk(Apply(s, a), k)
  {
    assert ActorOk(s, k);
    assert Apply(s, a).actors[k] == s.actors[k];
  }

  lemma QueueKnown(s: State, a: Action)
    requires Shape(s) && Enabled(s, a) && !a.Pop? && (a.Step? ==> !s.actors[a.i].pc.ResumeIt?)
    ensures forall c :: c in Apply(s, a).queue ==> c < |Apply(s, a).actors| == |s.actors|
    ensures |Apply(s, a).actors| == |s.actors|
  {}

  lemma ShapePreserved(s: State, a: Action)
    requires Shape(s) && Enabled(s, a)
    ensures Shape(Apply(s, a))
  {
    if a.Pop? { PopShape(s, a.i, a.c); }
    else if a.Step? && s.actors[a.i].pc.ResumeIt? { ResumeShape(s, a.i); }
    else { OwnShape(s, a); }
  }

  /** How one actor's change moves the four counts. */
  lemma SetCounts(actors: seq<Actor>, i: nat, x: Actor)
    requires i < |actors|
    ensures Count(actors[i := x], Rechecking) == Count(actors, Rechecking) - One(Rechecking(actors[i])) + One(Rechecking(x))
    ensures Count(actors[i := x], Popping) == Count(actors, Popping) - One(Popping(actors[i])) + One(Popping(x))
    ensures Count(actors[i := x], Resuming) == Count(actors, Resuming) - One(Resuming(actors[i])) + One(Resuming(x))
    ensures Count(actors[i := x], WillRetry) == Count(actors, WillRetry) - One(WillRetry(actors[i])) + One(WillRetry(x))
  {
    CountUpdate(actors, i, x, Rechecking);
    CountUpdate(actors, i, x, Popping);
    CountUpdate(actors, i, x, Resuming);
    CountUpdate(actors, i, x, WillRetry);
  }

  lemma PopCovered(s: State, i: nat, c: nat)
    requires Inv(s) && Enabled(s, Pop(i, c))
    ensures Covered(Apply(s, Pop(i, c)))
  {
    assert Local(s.actors[i]) && Local(s.actors[c]) && PlaceOk(s, c) && PlaceOk(s, i);
    var m := Set(s, c, s.actors[c].(place := Claimed(i)));
    SetCounts(s.actors, c, m.actors[c]);
    SetCounts(m.actors, i, m.actors[i].(pc := ResumeIt(s.actors[i].pc.after, c)));
  }

  /** Resuming a context that waits makes it a retrier. */
  lemma WakeLocal(x: Actor)
    requires Local(x) && Waits(x)
    ensures var y := x.(status := StatusAfter(Attempt(Resume, x.status), x.status), place := Nowhere);
            WillRetry(y) && !WillRetry(x)
  {}

  /** The resume of a popped context succeeds, so the popper's claim turns into a retry. */
  lemma ResumeCovered(s: State, i: nat)
    requires Inv(s) && Enabled(s, Step(i)) && s.actors[i].pc.ResumeIt?
    ensures Covered(Apply(s, Step(i)))
  {
    var c := s.actors[i].pc.c;
    assert ActorOk(s, i) && ActorOk(s, c);
    WakeLocal(s.actors[c]);
    var m := Wake(s, c);
    SetCounts(s.actors, c, m.actors[c]);
    SetCounts(m.actors, i, m.actors[i].(pc := PcAfter(s.actors[i].pc.after)));
  }

  lemma SelfResumeCovered(s: State, i: nat)
    requires Inv(s) && Enabled(s, Step(i)) && s.actors[i].pc.SelfResume?
    ensures Covered(Apply(s, Step(i)))
  {
    assert Local(s.actors[i]);
    var m := Wake(s, i);
    SetCounts(s.actors, i, m.actors[i]);
    SetCounts(m.actors, i, m.actors[i].(pc := SwitchOut));
  }

  lemma OtherCovered(s: State, a: Action)
    requires Inv(s) && Enabled(s, a) && !a.Pop?
    requires a.Step? ==>
               !s.actors[a.i].pc.ResumeIt? && !s.actors[a.i].pc.SelfResume? && !s.actors[a.i].pc.PushQ?
    ensures Covered(Apply(s, a))
  {
    assert Local(s.actors[a.i]);
    var s' := Apply(s, a);
    assert s'.actors == s.actors[a.i := s'.actors[a.i]];
    SetCounts(s.actors, a.i, s'.actors[a.i]);
  }

  lemma PushCovered(s: State, i: nat)
    requires Inv(s) && Enabled(s, Step(i)) && s.actors[i].pc.PushQ?
    ensures Covered(Apply(s, Step(i)))
  {
    assert Local(s.actors[i]);
    var s' := Apply(s, Step(i));
    assert s'.actors == s.actors[i := s'.actors[i]];
    SetCounts(s.actors, i, s'.actors[i]);
    assert |s'.queue| == |s.queue| + 1;
  }

  lemma InvPreserved(s: State, a: Action)
    requires Inv(s) && Enabled(s, a)
    ensures Inv(Apply(s, a))
  {
    ShapePreserved(s, a);
    if a.Pop? { PopCovered(s, a.i, a.c); }
    else if a.Step? && s.actors[a.i].pc.ResumeIt? { ResumeCovered(s, a.i); }
    else if a.Step? && s.actors[a.i].pc.SelfResume? { SelfResumeCovered(s, a.i); }
    else if a.Step? && s.actors[a.i].pc.PushQ? { PushCovered(s, a.i); }
    else { OtherCovered(s, a); }
  }

  /** A context at its attempt takes one unit exactly when there is one, and is then done. */
  lemma AttemptTakesUnit(s: State, i: nat)
    requires i < |s.actors| && s.actors[i].pc.TryDec?
    ensures Enabled(s, Step(i))
    ensures Apply(s, Step(i)).actors[i].pc.Idle? <==> s.sem > 0
    ensures Apply(s, Step(i)).sem == (if s.sem > 0 then s.sem - 1 else s.sem)
    ensures Apply(s, Step(i)).waits == (if s.sem > 0 then s.waits + 1 else s.waits)
  {}

  // ---- every reachable state -------------------------------------------------------------

  ghost predicate Initial(s: State) {
    && (forall i :: 0 <= i < |s.actors| ==> s.actors[i] == Actor(Idle, Ready, Nowhere))
    && s.queue == multiset{} && s.notifies == 0 && s.waits == 0
  }

  function Next(s: State, a: Action): State { if Enabled(s, a) then Apply(s, a) else s }

  ghost function Sys(): System<State, Action> { System(Enabled, Next) }

  /** `t` is reachable from a semaphore constructed with `initial`. */
  ghost predicate Reachable(initial: int, t: State) {
    exists s, acts :: Initial(s) && s.sem == initial && Reaches(Sys(), s, acts, t)
  }

  lemma ReachableStep(initial: int, m: State, a: Action)
    requires Reachable(initial, m) && Enabled(m, a)
    ensures Reachable(initial, Apply(m, a))
  {
    var s, acts :| Initial(s) && s.sem == initial && Reaches(Sys(), s, acts, m);
    ReachesStep(Sys(), s, acts, m, a);
  }

  /** The counts of two states of one run. */
  ghost predicate Later(s: State, t: State) {
    && Inv(t)
    && t.sem == s.sem + (t.notifies - s.notifies) - (t.waits - s.waits)
    && t.sem >= (if s.sem < 0 then s.sem else 0)
    && t.notifies >= s.notifies && t.waits >= s.waits && |t.actors| == |s.actors|
  }

  lemma StepCounts(s: State, a: Action)
    requires Enabled(s, a)
    ensures var t := Apply(s, a);
            && t.sem - s.sem == (t.notifies - s.notifies) - (t.waits - s.waits)
            && (t.sem >= s.sem || t.sem >= 0)
            && t.notifies >= s.notifies && t.waits >= s.waits && |t.actors| == |s.actors|
  {}

  lemma InvAlongRun(s: State, t: State)
    requires Inv(s) && Leads(Sys(), s, t)
    ensures Later(s, t)
  {
    var inv := m => Later(s, m);
    forall m, a | inv(m) && Sys().enabled(m, a)
      ensures inv(Sys().next(m, a))
    {
      InvPreserved(m, a);
      StepCounts(m, a);
    }
    LeadsInvariant(Sys(), inv, s, t);
  }

  lemma InitialInv(s: State)
    requires Initial(s)
    ensures Inv(s)
  {}

  lemma ReachableLater(initial: int, t: State) returns (s: State)
    requires Reachable(initial, t)
    ensures Initial(s) && s.sem == initial && Later(s, t)
  {
    var r, acts :| Initial(r) && r.sem == initial && Reaches(Sys(), r, acts, t);
    s := r;
    InitialInv(s);
    InvAlongRun(s, t);
  }

  lemma ReachableInv(initial: int, t: State)
    requires Reachable(initial, t)
    ensures Inv(t)
    ensures t.sem == initial + t.notifies - t.waits
    ensures t.sem >= (if initial < 0 then initial else 0)
  {
    var s := ReachableLater(initial, t);
  }

  /** `sem_` counts: initial value plus notifies minus completed waits.  A semaphore that starts
      non-negative never goes below 0. */
  lemma Conservation(initial: int, s: State)
    requires Reachable(initial, s)
    ensures s.sem == initial + s.notifies - s.waits
    ensures initial >= 0 ==> s.sem >= 0
  {
    ReachableInv(initial, s);
  }

  /** No resume of a popped context and no status change of a waiter is ever refused: the two
      "must not happen" branches of the futex are dead. */
  lemma WakeupsSucceed(initial: int, s: State, i: nat)
    requires Reachable(initial, s) && i < |s.actors|
    ensures var x := s.actors[i];
            && (x.pc.ResumeIt? ==> x.pc.c < |s.actors| && Attempt(Resume, s.actors[x.pc.c].status).Move?)
            && (x.pc.SelfResume? ==> Attempt(Resume, x.status).Move?)
            && (x.pc.Enter? ==> Attempt(Yield, x.status).Move?)
            && (x.pc.SwitchOut? ==> Attempt(Sw, x.status).Move?)
  {
    ReachableInv(initial, s);
    ActorWakes(s, i);
  }

  lemma ActorWakes(s: State, i: nat)
    requires Shape(s) && i < |s.actors|
    ensures var x := s.actors[i];
            && (x.pc.ResumeIt? ==> x.pc.c < |s.actors| && Attempt(Resume, s.actors[x.pc.c].status).Move?)
            && (x.pc.SelfResume? ==> Attempt(Resume, x.status).Move?)
            && (x.pc.Enter? ==> Attempt(Yield, x.status).Move?)
            && (x.pc.SwitchOut? ==> Attempt(Sw, x.status).Move?)
  {
    assert Local(s.actors[i]) && PlaceOk(s, i);
    if s.actors[i].pc.ResumeIt? { assert Local(s.actors[s.actors[i].pc.c]); }
  }

  /** Only blocked or idle contexts are left: nobody can take a step of a started operation. */
  predicate Quiescent(s: State) {
    forall i :: 0 <= i < |s.actors| ==>
      s.actors[i].pc.Idle? || (s.actors[i].pc.Off? && !s.actors[i].status.Ready?)
  }

  lemma NobodyActs(s: State)
    requires Shape(s) && Quiescent(s)
    ensures forall k :: 0 <= k < |s.actors| ==>
              !Rechecking(s.actors[k]) && !Popping(s.actors[k]) && !Resuming(s.actors[k]) && !WillRetry(s.actors[k])
  {
    forall k | 0 <= k < |s.actors|
      ensures !Rechecking(s.actors[k]) && !Popping(s.actors[k]) && !Resuming(s.actors[k]) && !WillRetry(s.actors[k])
    {
      assert Local(s.actors[k]);
    }
  }

  /** No lost wake-up: when nothing can move any more and a context is still blocked in `wait`,
      then `sem_` has nothing to give, and the context is in the wait queue exactly once. */
  lemma NoLostWakeup(initial: int, s: State, i: nat)
    requires Reachable(initial, s) && Quiescent(s) && i < |s.actors| && s.actors[i].pc.Off?
    ensures s.sem <= 0
    ensures s.queue[i] == 1
  {
    ReachableInv(initial, s);
    NobodyActs(s);
    BlockedIsQueued(s, i);
    NobodyActsSpent(s);
  }

  /** With nobody to act, a queued context means that the counter is spent. */
  lemma NobodyActsSpent(s: State)
    requires Covered(s)
    requires forall k :: 0 <= k < |s.actors| ==>
               !Rechecking(s.actors[k]) && !Popping(s.actors[k]) && !Resuming(s.actors[k]) && !WillRetry(s.actors[k])
    ensures s.queue == multiset{} || s.sem <= 0
  {
    CountNone(s.actors, Rechecking);
    CountNone(s.actors, Popping);
    CountNone(s.actors, Resuming);
    CountNone(s.actors, WillRetry);
  }

  lemma BlockedIsQueued(s: State, i: nat)
    requires Shape(s) && Quiescent(s) && i < |s.actors| && s.actors[i].pc.Off?
    ensures i in s.queue && s.queue[i] == 1
  {
    assert Local(s.actors[i]) && PlaceOk(s, i);
  }

  /** The same for states in which operations are still under way: if no context is between its push
      and its re-check, none is committed to a pop or a resume, and none is awake to retry, then the
      queue is empty or `sem_` is 0. */
  lemma QueueOrCounterEmpty(initial: int, s: State)
    requires Reachable(initial, s)
    requires forall i :: 0 <= i < |s.actors| ==>
               var x := s.actors[i];
               !Rechecking(x) && !Popping(x) && !Resuming(x) && !WillRetry(x)
    ensures s.queue == multiset{} || s.sem <= 0
  {
    ReachableInv(initial, s);
    NobodyActsSpent(s);
  }
}
