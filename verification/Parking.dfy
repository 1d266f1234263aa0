/**
 How workers park and are called back: `in_dco_wait_worker`, `in_dco_call_worker`,
 `in_dco_add_que`, `dco_sleep_resume` and the draining and waiting parts of `dco_get_next`.  Every exchange, queue operation and
 counter update is a step; any number of threads may be inside `in_dco_call_worker`.
 */
module Parking {
  import opened Counting
  import opened Runs

  /** The threads inside `in_dco_call_worker`, counted by where they are. */
  datatype Callers = Callers(
    popping: nat,             // before worker_wait_.pop
    raising: nat,             // the pop found nothing: before the increase of sem_
    marking: multiset<nat>,   // before run_.exchange(true) of the popped worker
    clearing: multiset<nat>,  // before wait_.exchange(false) of that worker
    notifying: multiset<nat>) // before sem_.try_notify of that worker
  {
    predicate None() {
      popping == 0 && raising == 0 && marking == multiset{} && clearing == multiset{} && notifying == multiset{}
    }
  }

  datatype Stage =
    | Awake               // from the top of dco_get_next in dco_time_proc, or running a coroutine
    | Looking             // found time_remove_ empty: before ctx_que_.pop
    | SetWait             // the pop found nothing: before wait_.exchange(true)
    | ClearRun            // before run_.exchange(false)
    | Register            // before worker_wait_.push
    | Credit              // before the decrease of sem_
    | Parked              // in sem_.try_wait or try_wait_for

  /** History variable: how far the registration of a worker id has come. */
  datatype Ticket = NoTicket | Filling | Listed | Taken | Marked

  datatype Worker = Worker(run: bool, wait: bool, token: bool, stage: Stage, ticket: Ticket)

  /** Contexts handed to a worker for removal from its timers, each counted by the worker's id. */
  datatype Removals = Removals(
    filed: multiset<nat>,     // time_remove_ of each worker
    posting: multiset<nat>)   // resumers in dco_sleep_resume, before sem_.try_notify

  datatype State = State(
    workers: seq<Worker>,
    queue: nat,                // contexts in ctx_que_
    listed: multiset<nat>,     // worker_wait_
    credit: int,               // the scheduler's sem_
    callers: Callers,
    removals: Removals)

  datatype Action =
    | Add                      // in_dco_add_que: ctx_que_.push, then the call
    | CallPop(tid: nat)
    | CallMiss
    | CallRaise
    | CallMark(tid: nat)
    | CallClear(tid: nat)
    | CallNotify(tid: nat)
    | File(w: nat)             // dco_sleep_resume: time_remove_.push
    | Post(w: nat)             // its sem_.try_notify
    | Drain(w: nat)            // dco_time_proc: time_remove_.pop
    | Drained(w: nat)          // that pop found nothing
    | Take(w: nat)
    | GiveUp(w: nat)
    | DoSetWait(w: nat)
    | DoClearRun(w: nat)
    | DoRegister(w: nat)
    | DoCredit(w: nat)
    | Wake(w: nat)             // the semaphore had a token
    | Spurious(w: nat)         // the timed wait ran out, or the wait returned early

  predicate AtStage(s: State, w: nat, g: Stage) {
    w < |s.workers| && s.workers[w].stage == g
  }

  predicate Enabled(s: State, a: Action) {
    match a
    case Add => true
    case CallPop(tid) => s.callers.popping > 0 && tid in s.listed && tid < |s.workers|
    case CallMiss => s.callers.popping > 0 && s.listed == multiset{}
    case CallRaise => s.callers.raising > 0
    case CallMark(tid) => tid in s.callers.marking && tid < |s.workers|
    case CallClear(tid) => tid in s.callers.clearing && tid < |s.workers|
    case CallNotify(tid) => tid in s.callers.notifying && tid < |s.workers|
    case File(w) => w < |s.workers|
    case Post(w) => w in s.removals.posting && w < |s.workers|
    case Drain(w) => AtStage(s, w, Awake) && w in s.removals.filed
    case Drained(w) => AtStage(s, w, Awake) && w !in s.removals.filed
    case Take(w) => AtStage(s, w, Looking) && s.queue > 0
    case GiveUp(w) => AtStage(s, w, Looking) && s.queue == 0
    case DoSetWait(w) => AtStage(s, w, SetWait)
    case DoClearRun(w) => AtStage(s, w, ClearRun)
    case DoRegister(w) => AtStage(s, w, Register)
    case DoCredit(w) => AtStage(s, w, Credit)
    case Wake(w) => AtStage(s, w, Parked) && s.workers[w].token
    case Spurious(w) => AtStage(s, w, Parked)
  }

  /** `atomic_increase_if_positive(sem_, max, 1)` */
  function Increase(sem: int, max: int): int { if sem >= max then sem else sem + 1 }

  function Apply(s: State, a: Action): State
    requires Enabled(s, a)
  {
    var k := s.callers;
    match a
    case Add => s.(queue := s.queue + 1, callers := k.(popping := k.popping + 1))
    case CallPop(tid) =>
      s.(callers := k.(popping := k.popping - 1, marking := k.marking + multiset{tid}),
         listed := s.listed - multiset{tid},
         workers := s.workers[tid := s.workers[tid].(ticket := Taken)])
    case CallMiss => s.(callers := k.(popping := k.popping - 1, raising := k.raising + 1))
    case CallRaise =>
      s.(callers := k.(raising := k.raising - 1), credit := Increase(s.credit, |s.workers|))
    case CallMark(tid) =>
      var k1 := k.(marking := k.marking - multiset{tid});
      if s.workers[tid].run then s.(callers := k1.(popping := k.popping + 1))
      else
        s.(callers := k1.(clearing := k.clearing + multiset{tid}),
           workers := s.workers[tid := s.workers[tid].(run := true, ticket := Marked)])
    case CallClear(tid) =>
      s.(callers := k.(clearing := k.clearing - multiset{tid}, notifying := k.notifying + multiset{tid}),
         workers := s.workers[tid := s.workers[tid].(wait := false, ticket := NoTicket)])
    case CallNotify(tid) =>
      s.(callers := k.(notifying := k.notifying - multiset{tid}),
         workers := s.workers[tid := s.workers[tid].(token := true)])
    case File(w) =>
      s.(removals := Removals(s.removals.filed + multiset{w}, s.removals.posting + multiset{w}))
    case Post(w) =>
      s.(removals := s.removals.(posting := s.removals.posting - multiset{w}),
         workers := s.workers[w := s.workers[w].(token := true)])
    case Drain(w) => s.(removals := s.removals.(filed := s.removals.filed - multiset{w}))
    case Drained(w) => s.(workers := s.workers[w := s.workers[w].(stage := Looking)])
    case Take(w) => s.(queue := s.queue - 1, workers := s.workers[w := s.workers[w].(stage := Awake)])
    case GiveUp(w) => s.(workers := s.workers[w := s.workers[w].(stage := SetWait)])
    case DoSetWait(w) =>
      if s.workers[w].wait then s.(workers := s.workers[w := s.workers[w].(stage := Parked)])
      else s.(workers := s.workers[w := s.workers[w].(wait := true, stage := ClearRun, ticket := Filling)])
    case DoClearRun(w) => s.(workers := s.workers[w := s.workers[w].(run := false, stage := Register)])
    case DoRegister(w) =>
      s.(workers := s.workers[w := s.workers[w].(stage := Credit, ticket := Listed)],
         listed := s.listed + multiset{w})
    case DoCredit(w) =>
      // the call this may start goes on by itself; the worker may park before it ends
      s.(workers := s.workers[w := s.workers[w].(stage := Parked)],
         credit := if s.credit <= 0 then s.credit else s.credit - 1,
         callers := if s.credit <= 0 then k else k.(popping := k.popping + 1))
    case Wake(w) => s.(workers := s.workers[w := s.workers[w].(token := false, stage := Awake)])
    case Spurious(w) => s.(workers := s.workers[w := s.workers[w].(stage := Awake)])
  }

  // ---- invariant -------------------------------------------------------------------------

  ghost predicate TicketOk(s: State, w: nat)
    requires w < |s.workers|
  {
    var p := s.workers[w];
    && (p.wait <==> !p.ticket.NoTicket?)
    && (p.ticket.Filling? <==> p.stage.ClearRun? || p.stage.Register?)
    && (p.stage.Register? || p.ticket.Listed? || p.ticket.Taken? ==> !p.run)
    && s.listed[w] == One(p.ticket.Listed?)
    && s.callers.marking[w] == One(p.ticket.Taken?)
    && s.callers.clearing[w] == One(p.ticket.Marked?)
  }

  ghost predicate KnownIds(s: State) {
    && (forall tid :: tid in s.listed ==> tid < |s.workers|)
    && (forall tid :: tid in s.callers.marking ==> tid < |s.workers|)
    && (forall tid :: tid in s.callers.clearing ==> tid < |s.workers|)
    && (forall tid :: tid in s.callers.notifying ==> tid < |s.workers|)
  }

  /** What holds whatever `sem_` starts with. */
  ghost predicate Inv(s: State) {
    && (forall w :: 0 <= w < |s.workers| ==> TicketOk(s, w))
    && KnownIds(s)
  }

  /** Someone will look at the run queue, or a credit is stored. */
  ghost predicate Attended(s: State) {
    || !s.callers.None()
    || s.credit > 0
    || exists w :: 0 <= w < |s.workers| && Up(s.workers[w])
  }

  predicate Up(p: Worker) { p.stage.Awake? || p.stage.Looking? || p.token }

  /** What holds in addition when `sem_` starts with at least 0. */
  ghost predicate WorkSeen(s: State) {
    s.credit >= 0 && (s.queue > 0 && |s.workers| > 0 ==> Attended(s))
  }

  predicate IsCallerStep(a: Action) {
    a.Add? || a.CallPop? || a.CallMiss? || a.CallRaise? || a.CallMark? || a.CallClear? || a.CallNotify?
  }

  /** A step of some caller keeps every other worker's ticket, and the one it touches. */
  lemma CallerTickets(s: State, a: Action, w: nat)
    requires Inv(s) && Enabled(s, a) && IsCallerStep(a) && w < |s.workers|
    ensures |Apply(s, a).workers| == |s.workers| && TicketOk(Apply(s, a), w)
  {
    assert TicketOk(s, w);
  }

  /** Ids only move between the places that hold them. */
  lemma CallerIds(s: State, a: Action)
    requires KnownIds(s) && Enabled(s, a) && IsCallerStep(a)
    ensures KnownIds(Apply(s, a))
  {
    match a
    case CallPop(tid) => PopIds(s, tid);
    case CallMark(tid) => MarkIds(s, tid);
    case _ =>
  }

  lemma PopIds(s: State, tid: nat)
    requires KnownIds(s) && Enabled(s, CallPop(tid))
    ensures KnownIds(Apply(s, CallPop(tid)))
  {}

  lemma MarkIds(s: State, tid: nat)
    requires KnownIds(s) && Enabled(s, CallMark(tid))
    ensures KnownIds(Apply(s, CallMark(tid)))
  {}

  lemma CallerStepPreserves(s: State, a: Action)
    requires Inv(s) && Enabled(s, a) && IsCallerStep(a)
    ensures Inv(Apply(s, a)) && |Apply(s, a).workers| == |s.workers|
  {
    CallerIds(s, a);
    assert |Apply(s, a).workers| == |s.workers|;
    forall w | 0 <= w < |s.workers|
      ensures TicketOk(Apply(s, a), w)
    {
      CallerTickets(s, a, w);
    }
  }

  predicate Registers(a: Action) { a.DoSetWait? || a.DoClearRun? || a.DoRegister? || a.DoCredit? }

  lemma RegisteringTicket(s: State, a: Action, w: nat)
    requires Inv(s) && Enabled(s, a) && Registers(a) && w < |s.workers|
    ensures |Apply(s, a).workers| == |s.workers| && TicketOk(Apply(s, a), w)
  {
    assert TicketOk(s, w);
  }

  lemma WorkerTicket(s: State, a: Action, w: nat)
    requires Inv(s) && Enabled(s, a) && !IsCallerStep(a) && w < |s.workers|
    ensures |Apply(s, a).workers| == |s.workers| && TicketOk(Apply(s, a), w)
  {
    if Registers(a) { RegisteringTicket(s, a, w); } else { assert TicketOk(s, w); }
  }

  lemma WorkerIds(s: State, a: Action)
    requires KnownIds(s) && Enabled(s, a) && !IsCallerStep(a)
    ensures KnownIds(Apply(s, a))
  {
    var t := Apply(s, a);
    assert |t.workers| == |s.workers|;
    assert forall tid :: tid in t.listed ==> tid in s.listed || tid == a.w;
  }

  lemma WorkerStepPreserves(s: State, a: Action)
    requires Inv(s) && Enabled(s, a) && !IsCallerStep(a)
    ensures Inv(Apply(s, a)) && |Apply(s, a).workers| == |s.workers|
  {
    WorkerIds(s, a);
    assert |Apply(s, a).workers| == |s.workers|;
    forall w | 0 <= w < |s.workers|
      ensures TicketOk(Apply(s, a), w)
    {
      WorkerTicket(s, a, w);
    }
  }

  lemma InvPreserved(s: State, a: Action)
    requires Inv(s) && Enabled(s, a)
    ensures Inv(Apply(s, a)) && |Apply(s, a).workers| == |s.workers|
  {
    if IsCallerStep(a) { CallerStepPreserves(s, a); } else { WorkerStepPreserves(s, a); }
  }

  /** The thread that makes a call is at work until it has woken a worker or stored a credit. */
  lemma CallerAttends(s: State, a: Action)
    requires s.credit >= 0 && Enabled(s, a) && IsCallerStep(a) && |s.workers| > 0
    ensures Apply(s, a).credit >= 0 && Attended(Apply(s, a))
  {
    var t := Apply(s, a);
    match a
    case CallPop(tid) => assert tid in t.callers.marking;
    case CallMark(tid) => assert s.workers[tid].run || tid in t.callers.clearing;
    case CallClear(tid) => assert tid in t.callers.notifying;
    case CallNotify(tid) => assert Up(t.workers[tid]);
    case _ =>
  }

  /** A worker that goes to sleep was either awake itself, and then found the queue empty, or it is
      not the one that will look. */
  lemma WorkerAttends(s: State, a: Action)
    requires WorkSeen(s) && Enabled(s, a) && !IsCallerStep(a)
    ensures WorkSeen(Apply(s, a))
  {
    var t := Apply(s, a);
    if a.File? {
      assert t.workers == s.workers;
    } else if a.Post? || a.Drain? || a.Drained? || a.Take? || a.Wake? || a.Spurious? {
      assert Up(t.workers[a.w]);
    } else if t.queue > 0 && |t.workers| > 0 && t.callers.None() && t.credit <= 0 {
      SleeperIsNotTheOne(s, a);
    }
  }

  lemma SleeperIsNotTheOne(s: State, a: Action)
    requires WorkSeen(s) && Enabled(s, a) && (a.GiveUp? || a.DoSetWait? || a.DoClearRun? || a.DoRegister? || a.DoCredit?)
    requires var t := Apply(s, a); t.queue > 0 && |t.workers| > 0 && t.callers.None() && t.credit <= 0
    ensures Attended(Apply(s, a))
  {
    var t := Apply(s, a);
    var v :| 0 <= v < |s.workers| && Up(s.workers[v]);
    assert Up(t.workers[v]);
  }

  lemma WorkSeenPreserved(s: State, a: Action)
    requires WorkSeen(s) && Enabled(s, a)
    ensures WorkSeen(Apply(s, a))
  {
    if IsCallerStep(a) {
      if |s.workers| > 0 { CallerAttends(s, a); }
    } else {
      WorkerAttends(s, a);
    }
  }

  // ---- contexts to be removed ------------------------------------------------------------

  const NONE: Removals := Removals(multiset{}, multiset{})

  /** A worker that is past its draining and has a context to remove will be woken for it. */
  ghost predicate FiledSeen(s: State) {
    forall w :: 0 <= w < |s.workers| && w in s.removals.filed ==>
      s.workers[w].stage.Awake? || s.workers[w].token || w in s.removals.posting
  }

  lemma FiledSeenPreserved(s: State, a: Action)
    requires FiledSeen(s) && Enabled(s, a)
    ensures FiledSeen(Apply(s, a))
  {
    var t := Apply(s, a);
    forall w | 0 <= w < |t.workers| && w in t.removals.filed
      ensures t.workers[w].stage.Awake? || t.workers[w].token || w in t.removals.posting
    {
      FiledSeenAt(s, a, w);
    }
  }

  lemma FiledSeenAt(s: State, a: Action, w: nat)
    requires FiledSeen(s) && Enabled(s, a) && w < |s.workers| && w in Apply(s, a).removals.filed
    ensures |Apply(s, a).workers| == |s.workers|
    ensures var t := Apply(s, a); t.workers[w].stage.Awake? || t.workers[w].token || w in t.removals.posting
  {
    if IsCallerStep(a) { CallersLeaveFiled(s, a, w); } else { WorkersKeepFiled(s, a, w); }
  }

  lemma CallersLeaveFiled(s: State, a: Action, w: nat)
    requires Enabled(s, a) && IsCallerStep(a) && w < |s.workers|
    ensures var t := Apply(s, a);
            && |t.workers| == |s.workers| && t.removals == s.removals
            && t.workers[w].stage == s.workers[w].stage && (s.workers[w].token ==> t.workers[w].token)
  {}

  lemma WorkersKeepFiled(s: State, a: Action, w: nat)
    requires FiledSeen(s) && Enabled(s, a) && !IsCallerStep(a) && w < |s.workers| && w in Apply(s, a).removals.filed
    ensures |Apply(s, a).workers| == |s.workers|
    ensures var t := Apply(s, a); t.workers[w].stage.Awake? || t.workers[w].token || w in t.removals.posting
  {}

  // ---- every reachable state -------------------------------------------------------------

  /** Every worker is registered and about to look for work; nothing initialises `sem_`. */
  ghost predicate Initial(start: int, s: State) {
    && (forall w :: 0 <= w < |s.workers| ==> s.workers[w] == Worker(false, true, false, Awake, Listed))
    && (forall w: nat :: s.listed[w] == One(w < |s.workers|))
    && s.queue == 0 && s.credit == start && s.callers.None() && s.removals == NONE
  }

  function Next(s: State, a: Action): State { if Enabled(s, a) then Apply(s, a) else s }

  ghost function Sys(): System<State, Action> { System(Enabled, Next) }

  /** `t` is reachable when `sem_` starts with `start`. */
  ghost predicate Reachable(start: int, t: State) {
    exists s, acts :: Initial(start, s) && Reaches(Sys(), s, acts, t)
  }

  lemma ReachableStep(start: int, m: State, a: Action)
    requires Reachable(start, m) && Enabled(m, a)
    ensures Reachable(start, Apply(m, a))
  {
    var s, acts :| Initial(start, s) && Reaches(Sys(), s, acts, m);
    ReachesStep(Sys(), s, acts, m, a);
  }

  lemma InitialInv(start: int, s: State)
    requires Initial(start, s)
    ensures Inv(s) && (start >= 0 ==> WorkSeen(s))
  {}

  lemma ReachableInv(start: int, t: State)
    requires Reachable(start, t)
    ensures Inv(t)
  {
    var s, acts :| Initial(start, s) && Reaches(Sys(), s, acts, t);
    InitialInv(start, s);
    var inv := m => Inv(m);
    forall m, a | inv(m) && Sys().enabled(m, a)
      ensures inv(Sys().next(m, a))
    {
      InvPreserved(m, a);
    }
    LeadsInvariant(Sys(), inv, s, t);
  }

  lemma ReachableSeen(start: int, t: State)
    requires Reachable(start, t) && start >= 0
    ensures WorkSeen(t)
  {
    var s, acts :| Initial(start, s) && Reaches(Sys(), s, acts, t);
    InitialInv(start, s);
    var inv := m => WorkSeen(m);
    forall m, a | inv(m) && Sys().enabled(m, a)
      ensures inv(Sys().next(m, a))
    {
      WorkSeenPreserved(m, a);
    }
    LeadsInvariant(Sys(), inv, s, t);
  }

  /** Each worker id is registered at most once, and a caller that popped an id always finds `run_`
      false (so the retry in `in_dco_call_worker` is never taken), whatever `sem_` starts with. */
  lemma Registration(start: int, s: State, w: nat)
    requires Reachable(start, s) && w < |s.workers|
    ensures s.listed[w] + s.callers.marking[w] + s.callers.clearing[w] <= 1
    ensures w in s.listed || w in s.callers.marking ==> !s.workers[w].run && s.workers[w].wait
  {
    ReachableInv(start, s);
    assert TicketOk(s, w);
  }

  /** A context filed for removal is never forgotten: its worker is draining or will drain before it
      looks for work again, has a token waiting, or a resumer is between its push and its notify. */
  lemma FiledIsAttended(start: int, t: State, w: nat)
    requires Reachable(start, t) && w < |t.workers| && w in t.removals.filed
    ensures t.workers[w].stage.Awake? || t.workers[w].token || w in t.removals.posting
  {
    var s, acts :| Initial(start, s) && Reaches(Sys(), s, acts, t);
    var inv := m => FiledSeen(m);
    forall m, a | inv(m) && Sys().enabled(m, a)
      ensures inv(Sys().next(m, a))
    {
      FiledSeenPreserved(m, a);
    }
    LeadsInvariant(Sys(), inv, s, t);
  }

  // ---- the credit ------------------------------------------------------------------------

  ghost predicate InRange(s: State) { 0 <= s.credit <= |s.workers| }

  lemma RangePreserved(s: State, a: Action)
    requires InRange(s) && Enabled(s, a)
    ensures InRange(Apply(s, a))
  {}

  lemma RangeHolds(start: int, t: State)
    requires Reachable(start, t) && 0 <= start <= |t.workers|
    ensures InRange(t)
  {
    var s, acts :| Initial(start, s) && Reaches(Sys(), s, acts, t);
    SameWorkers(s, t);
    var inv := m => InRange(m);
    forall m, a | inv(m) && Sys().enabled(m, a)
      ensures inv(Sys().next(m, a))
    {
      RangePreserved(m, a);
    }
    LeadsInvariant(Sys(), inv, s, t);
  }

  lemma WorkersStay(s: State, a: Action)
    requires Enabled(s, a)
    ensures |Apply(s, a).workers| == |s.workers|
  {}

  lemma SameWorkers(s: State, t: State)
    requires Leads(Sys(), s, t)
    ensures |t.workers| == |s.workers|
  {
    var inv := (m: State) => |m.workers| == |s.workers|;
    forall m, a | inv(m) && Sys().enabled(m, a)
      ensures inv(Sys().next(m, a))
    {
      WorkersStay(m, a);
    }
    LeadsInvariant(Sys(), inv, s, t);
  }

  /** `sem_` stays within 0..number of workers in every run exactly when it starts there. */
  lemma CreditExactly(start: int, n: nat)
    ensures (forall s :: Reachable(start, s) && |s.workers| == n ==> InRange(s)) <==> 0 <= start <= n
  {
    if 0 <= start <= n {
      forall s | Reachable(start, s) && |s.workers| == n
        ensures InRange(s)
      {
        RangeHolds(start, s);
      }
    } else {
      FreshIsReachable(n, start);
      assert !InRange(Fresh(n, start));
    }
  }

  /** With `sem_` starting at 0 or more, queued work is never forgotten: while the run queue is not
      empty, some caller is in the middle of its call, or some worker is awake or has a token
      waiting, or a credit is stored. */
  lemma QueuedWorkIsAttended(start: int, s: State)
    requires Reachable(start, s) && start >= 0 && s.queue > 0 && |s.workers| > 0
    ensures Attended(s)
  {
    ReachableSeen(start, s);
  }

  /** All is quiet although a context is queued. */
  ghost predicate Stalled(s: State) {
    && s.queue > 0 && s.callers.None()
    && forall w :: 0 <= w < |s.workers| ==> s.workers[w].stage.Parked? && !s.workers[w].token
  }

  /** Whoever attends to queued work gets on with it: a caller inside its call can take a step. */
  lemma CallerCanMove(start: int, s: State) returns (a: Action)
    requires Reachable(start, s) && !s.callers.None()
    ensures IsCallerStep(a) && !a.Add? && Enabled(s, a)
  {
    ReachableInv(start, s);
    var k := s.callers;
    if k.popping > 0 && s.listed == multiset{} { return CallMiss; }
    if k.popping > 0 { var tid :| tid in s.listed; return CallPop(tid); }
    if k.raising > 0 { return CallRaise; }
    if k.marking != multiset{} { var tid :| tid in k.marking; return CallMark(tid); }
    if k.clearing != multiset{} { var tid :| tid in k.clearing; return CallClear(tid); }
    var tid :| tid in k.notifying;
    return CallNotify(tid);
  }

  /** So can a worker: it drains what is filed before it looks, takes a context exactly when the run
      queue has one and gives up exactly when it has none, and leaves its wait when it has a token. */
  lemma WorkerCanMove(s: State, w: nat)
    requires w < |s.workers|
    ensures s.workers[w].stage.Awake? ==>
              (Enabled(s, Drain(w)) <==> s.removals.filed[w] > 0) && (Enabled(s, Drained(w)) <==> s.removals.filed[w] == 0)
    ensures s.workers[w].stage.Looking? ==>
              (Enabled(s, Take(w)) <==> s.queue > 0) && (Enabled(s, GiveUp(w)) <==> s.queue == 0)
    ensures s.workers[w].stage.SetWait? ==> Enabled(s, DoSetWait(w))
    ensures s.workers[w].stage.ClearRun? ==> Enabled(s, DoClearRun(w))
    ensures s.workers[w].stage.Register? ==> Enabled(s, DoRegister(w))
    ensures s.workers[w].stage.Credit? ==> Enabled(s, DoCredit(w))
    ensures s.workers[w].stage.Parked? ==> (Enabled(s, Wake(w)) <==> s.workers[w].token)
  {}

  /** With no stored credit there is no stall. */
  lemma NoStallWithoutCredit(start: int, s: State)
    requires Reachable(start, s) && start >= 0 && |s.workers| > 0
    ensures s.credit == 0 ==> !Stalled(s)
  {
    ReachableSeen(start, s);
  }

  // ---- how a stall comes about -----------------------------------------------------------

  const CALM: Callers := Callers(0, 0, multiset{}, multiset{}, multiset{})

  /** The ids from lo up to, but not including, hi. */
  function Ids(lo: nat, hi: nat): (m: multiset<nat>)
    ensures forall w: nat :: m[w] == One(lo <= w < hi)
    decreases hi - lo
  {
    if lo >= hi then multiset{} else Ids(lo + 1, hi) + multiset{lo}
  }

  lemma IdsFront(lo: nat, hi: nat)
    requires lo < hi
    ensures lo in Ids(lo, hi) && Ids(lo, hi) - multiset{lo} == Ids(lo + 1, hi)
  {}

  lemma IdsBack(lo: nat, hi: nat)
    requires lo <= hi
    ensures Ids(lo, hi) + multiset{hi} == Ids(lo, hi + 1)
  {}

  /** Workers before the i-th are `a`, the i-th is `x`, those after it are `b`. */
  function Row(n: nat, i: nat, a: Worker, x: Worker, b: Worker): (r: seq<Worker>)
    ensures |r| == n && forall j :: 0 <= j < n ==> r[j] == if j < i then a else if j == i then x else b
  {
    seq(n, j => if j < i then a else if j == i then x else b)
  }

  lemma RowSet(n: nat, i: nat, a: Worker, x: Worker, b: Worker, y: Worker)
    requires i < n
    ensures Row(n, i, a, x, b)[i := y] == Row(n, i, a, y, b)
  {}

  lemma RowNext(n: nat, i: nat, a: Worker, b: Worker)
    ensures Row(n, i, a, a, b) == Row(n, i + 1, a, b, b)
  {}

  lemma RowFull(n: nat, a: Worker, b: Worker)
    ensures Row(n, n, a, b, b) == Row(n, 0, a, a, a)
  {}

  const FRESH: Worker := Worker(false, true, false, Awake, Listed)
  const BARE: Worker := Worker(true, false, false, SetWait, NoTicket)
  const BACK: Worker := Worker(false, true, false, Parked, Listed)

  function Fresh(n: nat, start: int): State {
    State(Row(n, 0, FRESH, FRESH, FRESH), 0, Ids(0, n), start, CALM, NONE)
  }

  lemma FreshIsReachable(n: nat, start: int)
    ensures Reachable(start, Fresh(n, start))
  {
    assert Initial(start, Fresh(n, start));
    LeadsNowhere(Sys(), Fresh(n, start));
  }

  lemma Go(start: int, m: State, a: Action, t: State)
    requires Reachable(start, m) && Enabled(m, a) && Apply(m, a) == t
    ensures Reachable(start, t)
  {
    ReachableStep(start, m, a);
  }

  /** Workers before the i-th have lost their registration; the i-th is `x`; the others are fresh. */
  function Losing(n: nat, i: nat, x: Worker, lo: nat, queue: nat, start: int, k: Callers): State {
    State(Row(n, i, BARE, x, FRESH), queue, Ids(lo, n), start, k, NONE)
  }

  /** Worker i finds nothing to do and parks, still registered. */
  lemma ParksRegistered(start: int, n: nat, i: nat)
    requires i < n && Reachable(start, Losing(n, i, FRESH, i, 0, start, CALM))
    ensures Reachable(start, Losing(n, i, BACK, i, 0, start, CALM))
  {
    var looks, looked := FRESH.(stage := Looking), FRESH.(stage := SetWait);
    RowSet(n, i, BARE, FRESH, FRESH, looks);
    Go(start, Losing(n, i, FRESH, i, 0, start, CALM), Drained(i), Losing(n, i, looks, i, 0, start, CALM));
    RowSet(n, i, BARE, looks, FRESH, looked);
    Go(start, Losing(n, i, looks, i, 0, start, CALM), GiveUp(i), Losing(n, i, looked, i, 0, start, CALM));
    RowSet(n, i, BARE, looked, FRESH, BACK);
    Go(start, Losing(n, i, looked, i, 0, start, CALM), DoSetWait(i), Losing(n, i, BACK, i, 0, start, CALM));
  }

  /** A context is added, and its adder takes the registration of worker i. */
  lemma AdderPops(start: int, n: nat, i: nat)
    requires i < n && Reachable(start, Losing(n, i, BACK, i, 0, start, CALM))
    ensures Reachable(start, Losing(n, i, BACK.(ticket := Taken), i + 1, 1, start, CALM.(marking := multiset{i})))
  {
    Go(start, Losing(n, i, BACK, i, 0, start, CALM), Add, Losing(n, i, BACK, i, 1, start, CALM.(popping := 1)));
    IdsFront(i, n);
    RowSet(n, i, BARE, BACK, FRESH, BACK.(ticket := Taken));
    Go(start, Losing(n, i, BACK, i, 1, start, CALM.(popping := 1)), CallPop(i),
       Losing(n, i, BACK.(ticket := Taken), i + 1, 1, start, CALM.(marking := multiset{i})));
  }

  /** The adder wakes the worker. */
  lemma AdderWakes(start: int, n: nat, i: nat)
    requires i < n
    requires Reachable(start, Losing(n, i, BACK.(ticket := Taken), i + 1, 1, start, CALM.(marking := multiset{i})))
    ensures Reachable(start, Losing(n, i, Worker(true, false, true, Parked, NoTicket), i + 1, 1, start, CALM))
  {
    var x0, x1 := BACK.(ticket := Taken), Worker(true, true, false, Parked, Marked);
    var x2, x3 := Worker(true, false, false, Parked, NoTicket), Worker(true, false, true, Parked, NoTicket);
    RowSet(n, i, BARE, x0, FRESH, x1);
    Go(start, Losing(n, i, x0, i + 1, 1, start, CALM.(marking := multiset{i})), CallMark(i),
       Losing(n, i, x1, i + 1, 1, start, CALM.(clearing := multiset{i})));
    RowSet(n, i, BARE, x1, FRESH, x2);
    Go(start, Losing(n, i, x1, i + 1, 1, start, CALM.(clearing := multiset{i})), CallClear(i),
       Losing(n, i, x2, i + 1, 1, start, CALM.(notifying := multiset{i})));
    RowSet(n, i, BARE, x2, FRESH, x3);
    Go(start, Losing(n, i, x2, i + 1, 1, start, CALM.(notifying := multiset{i})), CallNotify(i),
       Losing(n, i, x3, i + 1, 1, start, CALM));
  }

  /** The worker runs the context and then finds the queue empty: it is registered no more. */
  lemma WorkerDrains(start: int, n: nat, i: nat)
    requires i < n && Reachable(start, Losing(n, i, Worker(true, false, true, Parked, NoTicket), i + 1, 1, start, CALM))
    ensures Reachable(start, Losing(n, i, BARE, i + 1, 0, start, CALM))
  {
    var x0, x1 := Worker(true, false, true, Parked, NoTicket), Worker(true, false, false, Awake, NoTicket);
    var x2 := x1.(stage := Looking);
    RowSet(n, i, BARE, x0, FRESH, x1);
    Go(start, Losing(n, i, x0, i + 1, 1, start, CALM), Wake(i), Losing(n, i, x1, i + 1, 1, start, CALM));
    RowSet(n, i, BARE, x1, FRESH, x2);
    Go(start, Losing(n, i, x1, i + 1, 1, start, CALM), Drained(i), Losing(n, i, x2, i + 1, 1, start, CALM));
    RowSet(n, i, BARE, x2, FRESH, x1);
    Go(start, Losing(n, i, x2, i + 1, 1, start, CALM), Take(i), Losing(n, i, x1, i + 1, 0, start, CALM));
    Go(start, Losing(n, i, x1, i + 1, 0, start, CALM), Drained(i), Losing(n, i, x2, i + 1, 0, start, CALM));
    RowSet(n, i, BARE, x2, FRESH, BARE);
    Go(start, Losing(n, i, x2, i + 1, 0, start, CALM), GiveUp(i), Losing(n, i, BARE, i + 1, 0, start, CALM));
  }

  /** Worker after worker loses its registration. */
  lemma {:induction false} AllLose(start: int, n: nat, i: nat)
    requires i <= n
    ensures Reachable(start, Losing(n, i, FRESH, i, 0, start, CALM))
  {
    if i == 0 {
      NoneLoses(start, n);
    } else {
      var p := i - 1;
      AllLose(start, n, p);
      OneLoses(start, n, p);
      assert p + 1 == i;
    }
  }

  lemma NoneLoses(start: int, n: nat)
    ensures Reachable(start, Losing(n, 0, FRESH, 0, 0, start, CALM))
  {
    FreshIsReachable(n, start);
    assert Losing(n, 0, FRESH, 0, 0, start, CALM) == Fresh(n, start);
  }

  lemma OneLoses(start: int, n: nat, i: nat)
    requires i < n && Reachable(start, Losing(n, i, FRESH, i, 0, start, CALM))
    ensures Reachable(start, Losing(n, i + 1, FRESH, i + 1, 0, start, CALM))
  {
    ParksRegistered(start, n, i);
    AdderPops(start, n, i);
    AdderWakes(start, n, i);
    WorkerDrains(start, n, i);
    RowNext(n, i, BARE, FRESH);
  }

  /** All workers are on their way to register; k adders have found none of them. */
  function Missed(n: nat, k: nat, start: int): State {
    State(Row(n, 0, BARE, BARE, BARE), k, multiset{}, start, CALM.(raising := k), NONE)
  }

  lemma {:induction false} AddersMiss(start: int, n: nat, k: nat)
    ensures Reachable(start, Missed(n, k, start))
  {
    if k == 0 {
      AllLose(start, n, n);
      assert Ids(n, n) == multiset{};
      assert Losing(n, n, FRESH, n, 0, start, CALM) == Missed(n, 0, start);
    } else {
      AddersMiss(start, n, k - 1);
      var m := Missed(n, k - 1, start);
      var t := m.(queue := k, callers := CALM.(popping := 1, raising := k - 1));
      Go(start, m, Add, t);
      Go(start, t, CallMiss, Missed(n, k, start));
    }
  }

  /** Workers before the i-th have registered and parked; the i-th is `x`; the others are on their way. */
  function Registering(n: nat, i: nat, x: Worker, hi: nat, k: nat, start: int): State {
    State(Row(n, i, BACK, x, BARE), k, Ids(0, hi), start, CALM.(raising := k), NONE)
  }

  /** Worker i registers, sees no credit, and parks. */
  lemma WorkerRegisters(start: int, n: nat, i: nat, k: nat)
    requires i < n && start <= 0 && Reachable(start, Registering(n, i, BARE, i, k, start))
    ensures Reachable(start, Registering(n, i, BACK, i + 1, k, start))
  {
    var x1, x2 := Worker(true, true, false, ClearRun, Filling), Worker(false, true, false, Stage.Register, Filling);
    RowSet(n, i, BACK, BARE, BARE, x1);
    Go(start, Registering(n, i, BARE, i, k, start), DoSetWait(i), Registering(n, i, x1, i, k, start));
    RowSet(n, i, BACK, x1, BARE, x2);
    Go(start, Registering(n, i, x1, i, k, start), DoClearRun(i), Registering(n, i, x2, i, k, start));
    WorkerSeesNoCredit(start, n, i, k);
  }

  lemma WorkerSeesNoCredit(start: int, n: nat, i: nat, k: nat)
    requires i < n && start <= 0
    requires Reachable(start, Registering(n, i, Worker(false, true, false, Stage.Register, Filling), i, k, start))
    ensures Reachable(start, Registering(n, i, BACK, i + 1, k, start))
  {
    var x2, x3 := Worker(false, true, false, Stage.Register, Filling), Worker(false, true, false, Credit, Listed);
    IdsBack(0, i);
    RowSet(n, i, BACK, x2, BARE, x3);
    Go(start, Registering(n, i, x2, i, k, start), DoRegister(i), Registering(n, i, x3, i + 1, k, start));
    RowSet(n, i, BACK, x3, BARE, BACK);
    Go(start, Registering(n, i, x3, i + 1, k, start), DoCredit(i), Registering(n, i, BACK, i + 1, k, start));
  }

  lemma {:induction false} AllRegister(start: int, n: nat, i: nat, k: nat)
    requires i <= n && start <= 0
    ensures Reachable(start, Registering(n, i, BARE, i, k, start))
  {
    if i == 0 {
      AddersMiss(start, n, k);
      assert Ids(0, 0) == multiset{};
      assert Row(n, 0, BACK, BARE, BARE) == Row(n, 0, BARE, BARE, BARE);
    } else {
      var p := i - 1;
      AllRegister(start, n, p, k);
      WorkerRegisters(start, n, p, k);
      RowNext(n, p, BACK, BARE);
      assert Registering(n, p, BACK, p + 1, k, start) == Registering(n, i, BARE, i, k, start);
    }
  }

  /** All workers are parked and registered; j of the k adders have stored their credit. */
  function Late(n: nat, k: nat, j: nat, start: int): State
    requires j <= k
  {
    State(Row(n, 0, BACK, BACK, BACK), k, Ids(0, n), start + j, CALM.(raising := k - j), NONE)
  }

  lemma {:induction false} CreditTooLate(start: int, n: nat, k: nat, j: nat)
    requires j <= k && start <= 0 && start + j <= n
    ensures Reachable(start, Late(n, k, j, start))
  {
    if j == 0 {
      NoneRaised(start, n, k);
    } else {
      var p := j - 1;
      CreditTooLate(start, n, k, p);
      RaiseOne(start, n, k, p);
      assert Late(n, k, p + 1, start) == Late(n, k, j, start);
    }
  }

  lemma NoneRaised(start: int, n: nat, k: nat)
    requires start <= 0
    ensures Reachable(start, Late(n, k, 0, start))
  {
    AllRegister(start, n, n, k);
    RowFull(n, BACK, BARE);
    assert Registering(n, n, BARE, n, k, start) == Late(n, k, 0, start);
  }

  lemma RaiseOne(start: int, n: nat, k: nat, j: nat)
    requires j < k && start + j < n && Reachable(start, Late(n, k, j, start))
    ensures Reachable(start, Late(n, k, j + 1, start))
  {
    var m, t := Late(n, k, j, start), Late(n, k, j + 1, start);
    assert |m.workers| == n && Enabled(m, CallRaise);
    assert Apply(m, CallRaise) == t;
    Go(start, m, CallRaise, t);
  }

  lemma LateIsStalled(n: nat, k: nat, start: int)
    requires k > 0
    ensures Stalled(Late(n, k, k, start)) && Late(n, k, k, start).credit == start + k
  {}

  // ---- the limits of the guarantee -------------------------------------------------------

  lemma StalledIsUnseen(s: State)
    requires Stalled(s) && s.credit <= 0
    ensures !Attended(s)
  {}

  /** With any number of workers, queued work is attended in every run exactly when `sem_` starts with
      at least 0.  A negative start swallows the credit of an adder that found nobody. */
  lemma AttendedExactly(start: int, n: nat)
    requires n > 0
    ensures (forall s :: Reachable(start, s) && |s.workers| == n && s.queue > 0 ==> Attended(s)) <==> start >= 0
  {
    if start >= 0 {
      forall s | Reachable(start, s) && |s.workers| == n && s.queue > 0
        ensures Attended(s)
      {
        QueuedWorkIsAttended(start, s);
      }
    } else {
      CreditTooLate(start, n, 1, 1);
      LateIsStalled(n, 1, start);
      StalledIsUnseen(Late(n, 1, 1, start));
    }
  }

  /** That a pool parked with work queued must have a stored credit holds in every run exactly when
      `sem_` starts with at least 0. */
  lemma UnstoredStallExactly(start: int, n: nat)
    requires n > 0
    ensures (forall s :: Reachable(start, s) && |s.workers| == n && s.credit == 0 ==> !Stalled(s)) <==> start >= 0
  {
    if start >= 0 {
      forall s | Reachable(start, s) && |s.workers| == n && s.credit == 0
        ensures !Stalled(s)
      {
        NoStallWithoutCredit(start, s);
      }
    } else {
      CreditTooLate(start, n, -start, -start);
      LateIsStalled(n, -start, start);
    }
  }

  /** With `sem_` starting at 0, a pool of n workers can stall, parked with work queued, with exactly
      the credits 1 to n: adders find no registered worker, the workers then register and see no
      credit, and only after that the adders store theirs. */
  lemma StallExactly(n: nat, k: int)
    requires n > 0
    ensures (exists s :: Reachable(0, s) && |s.workers| == n && s.credit == k && Stalled(s)) <==> 1 <= k <= n
  {
    if 1 <= k <= n {
      CreditTooLate(0, n, k, k);
      LateIsStalled(n, k, 0);
    } else {
      forall s | Reachable(0, s) && |s.workers| == n && s.credit == k
        ensures !Stalled(s)
      {
        RangeHolds(0, s);
        NoStallWithoutCredit(0, s);
      }
    }
  }
}
