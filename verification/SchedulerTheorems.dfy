/** What the invariant gives a reader of the scheduler: statements about every reachable state. */
module SchedulerTheorems {
  import opened CoStatus
  import opened Runs
  import opened Scheduler
  import opened SchedulerInvariant

  // ---- runs ------------------------------------------------------------------------------

  /** Workers start at the top of their loop; there is no context yet. */
  ghost predicate Initial(s: State) {
    && s.ctx == [] && s.runQ == multiset{} && s.pool == multiset{}
    && s.carried == multiset{} && s.asked == multiset{}
    && forall w :: 0 <= w < |s.workers| ==> s.workers[w] == Worker(Free(Top), multiset{}, multiset{})
  }

  ghost predicate Can(s: State, a: Action) { Typed(s) && Enabled(s, a) }

  ghost function Next(s: State, a: Action): State { if Can(s, a) then Apply(s, a) else s }

  ghost function Sys(): System<State, Action> { System(Can, Next) }

  ghost predicate Reachable(t: State) {
    exists s, acts :: Initial(s) && Reaches(Sys(), s, acts, t)
  }

  lemma InvAlongRun(s: State, t: State)
    requires Inv(s) && Leads(Sys(), s, t)
    ensures Inv(t)
  {
    var inv := m => Inv(m);
    forall m, a | inv(m) && Sys().enabled(m, a)
      ensures inv(Sys().next(m, a))
    {
      ActionPreserves(m, a);
    }
    LeadsInvariant(Sys(), inv, s, t);
  }

  lemma ReachableInv(t: State)
    requires Reachable(t)
    ensures Inv(t)
  {
    var s, acts :| Initial(s) && Reaches(Sys(), s, acts, t);
    InvAlongRun(s, t);
  }

  lemma ReachableStep(m: State, a: Action)
    requires Reachable(m) && Can(m, a)
    ensures Reachable(Apply(m, a)) && Typed(Apply(m, a))
  {
    var s, acts :| Initial(s) && Reaches(Sys(), s, acts, m);
    ReachesStep(Sys(), s, acts, m, a);
    ReachableInv(Apply(m, a));
  }

  // ---- one owner -------------------------------------------------------------------------

  datatype Holder =
    | RunQueue | Buffer | Resumer | Suspended
    | OnWorker(w: WorkerId)
    | InTimer(w: WorkerId)

  predicate TimerTask(t: Task) {
    t.Unheap? || t.RemoveCas? || t.TimeoutCas? || t.AddCheck? || t.HeapPush?
  }

  /** Read off the program's own structures, without the history variables. */
  ghost predicate Holds(s: State, h: Holder, c: CtxId)
    requires c < |s.ctx|
  {
    match h
    case RunQueue => c in s.runQ
    case Buffer => c in s.pool
    case Resumer => c in s.carried
    case Suspended => s.ctx[c].live && s.ctx[c].status.YieldSet?
    case OnWorker(w) => InHand(s, w, c) && !TimerTask(s.workers[w].pc.task)
    case InTimer(w) =>
      && w < |s.workers|
      && (c in s.workers[w].heap || c in s.workers[w].filed || (c in s.asked && s.ctx[c].tid == w)
          || (InHand(s, w, c) && TimerTask(s.workers[w].pc.task)))
  }

  function HolderOf(o: Owner): Holder {
    match o
    case Pool => Buffer
    case Parked => Suspended
    case Carried => Resumer
    case Queued => RunQueue
    case On(w) => OnWorker(w)
    case Adding(w) => OnWorker(w)
    case Timer(w, _, _) => InTimer(w)
  }

  lemma HolderIsOwner(s: State, c: CtxId, h: Holder)
    requires c < |s.ctx| && CtxOk(s, c) && Holds(s, h, c)
    ensures h == HolderOf(s.ctx[c].owner)
  {
    if h.OnWorker? || (h.InTimer? && InHand(s, h.w, c)) {
      assert TaskOk(s.ctx[c], h.w, s.workers[h.w].pc.task);
    }
  }

  lemma OwnerHolds(s: State, c: CtxId)
    requires c < |s.ctx| && CtxOk(s, c)
    ensures Holds(s, HolderOf(s.ctx[c].owner), c)
  {
    var o := s.ctx[c].owner;
    if o.On? || o.Adding? || (o.Timer? && InHand(s, o.w, c)) {
      assert TaskOk(s.ctx[c], o.w, s.workers[o.w].pc.task);
    }
  }

  /** Every context has exactly one owner: one queue, one worker, one resumer, one worker's timer
      machinery, or nobody while it is suspended. */
  lemma OneOwner(s: State, c: CtxId)
    requires Reachable(s) && c < |s.ctx|
    ensures exists h :: Holds(s, h, c)
    ensures forall h, k :: Holds(s, h, c) && Holds(s, k, c) ==> h == k
  {
    ReachableInv(s);
    assert CtxOk(s, c);
    OwnerHolds(s, c);
    forall h | Holds(s, h, c)
      ensures h == HolderOf(s.ctx[c].owner)
    {
      HolderIsOwner(s, c, h);
    }
  }

  /** No structure ever contains a context twice, and no two workers have one context in hand. */
  lemma NeverTwice(s: State, c: CtxId)
    requires Reachable(s) && c < |s.ctx|
    ensures s.runQ[c] <= 1 && s.pool[c] <= 1 && s.carried[c] <= 1 && s.asked[c] <= 1
    ensures forall w :: 0 <= w < |s.workers| ==> s.workers[w].heap[c] <= 1 && s.workers[w].filed[c] <= 1
    ensures forall w, v :: InHand(s, w, c) && InHand(s, v, c) ==> w == v
  {
    ReachableInv(s);
    assert CtxOk(s, c);
    forall w, v | InHand(s, w, c) && InHand(s, v, c)
      ensures w == v
    {
      OneHand(s, c, w, v);
    }
  }

  // ---- the assertions in the source ------------------------------------------------------

  /** A context that can be popped from the run queue is Ready. */
  lemma PoppedIsReady(s: State, c: CtxId)
    requires Reachable(s) && c in s.runQ
    ensures c < |s.ctx| && s.ctx[c].status.Ready?
  {
    ReachableInv(s);
    assert CtxOk(s, c);
  }

  lemma TaskAccepted(r: Ctx, w: WorkerId, task: Task)
    requires TaskOk(r, w, task) && OwnerOk(r)
    ensures task.Popped? ==> r.status.Ready?
    ensures task.Running? ==> Attempt(Yield, r.status).Move? && Attempt(Sleep, r.status).Move?
    ensures task.Switching? ==> Attempt(Sw, r.status).Move? && r.tid == w
    ensures task.Add? ==> Attempt(SleepAdd, r.status).Move?
    ensures task.RemoveCas? ==> Attempt(SleepRemove, r.status).Move?
  {}

  lemma OutsideHeaps(s: State, w: WorkerId, c: CtxId)
    requires c < |s.ctx| && CtxOk(s, c) && InHand(s, w, c)
    requires s.workers[w].pc.task.Sleeping? || s.workers[w].pc.task.Ending?
    ensures forall v :: 0 <= v < |s.workers| ==> c !in s.workers[v].heap
  {
    assert TaskOk(s.ctx[c], w, s.workers[w].pc.task);
  }

  /** The five status changes a worker makes never find a status the table refuses, `tid_` is the
      worker's own id when the coroutine comes back, and a context whose deadline is written is in
      no timer heap. */
  lemma AssertionsHold(s: State, w: WorkerId)
    requires Reachable(s) && w < |s.workers| && s.workers[w].pc.Busy?
    ensures var p := s.workers[w].pc;
            && p.c < |s.ctx|
            && var r := s.ctx[p.c];
               && (p.task.Popped? ==> r.status.Ready?)
               && (p.task.Running? ==> Attempt(Yield, r.status).Move? && Attempt(Sleep, r.status).Move?)
               && (p.task.Switching? ==> Attempt(Sw, r.status).Move? && r.tid == w)
               && (p.task.Add? ==> Attempt(SleepAdd, r.status).Move?)
               && (p.task.RemoveCas? ==> Attempt(SleepRemove, r.status).Move?)
               && (p.task.Sleeping? || p.task.Ending? ==>
                     forall v :: 0 <= v < |s.workers| ==> p.c !in s.workers[v].heap)
  {
    ReachableInv(s);
    var c, task := s.workers[w].pc.c, s.workers[w].pc.task;
    assert CtxOk(s, c) && InHand(s, w, c);
    TaskAccepted(s.ctx[c], w, task);
    if task.Sleeping? || task.Ending? { OutsideHeaps(s, w, c); }
  }

  // ---- wake-ups --------------------------------------------------------------------------

  /** Waiting to be woken: handed out, suspended, and no resume or timeout has succeeded since. */
  predicate Waiting(r: Ctx) {
    r.live && Unwoken(r.status)
  }

  /** Counting creation as a suspension: suspensions and wakes alternate, every wake is one
      successful resume or one successful timeout, and wakes and pushes on the run queue match one
      to one except for the wake that is still on its way to the queue. */
  lemma WakesAlternate(s: State, c: CtxId)
    requires Reachable(s) && c < |s.ctx|
    ensures var r := s.ctx[c];
            && r.suspends == r.resumes + r.timeouts + (if Waiting(r) then 1 else 0)
            && r.resumes + r.timeouts - 1 <= r.pushes <= r.resumes + r.timeouts
            && (c in s.runQ ==> r.pushes == r.resumes + r.timeouts)
            && (Waiting(r) ==> r.pushes == r.resumes + r.timeouts)
            && (c in s.carried ==> r.pushes == r.resumes + r.timeouts - 1)
  {
    ReachableInv(s);
    assert CtxOk(s, c);
    if s.ctx[c].owner.On? || s.ctx[c].owner.Adding? {
      assert TaskOk(s.ctx[c], s.ctx[c].owner.w, s.workers[s.ctx[c].owner.w].pc.task);
    }
  }

  /** No wake-up is dropped: a context that was woken is never left parked or left in the timer
      machinery without a removal under way. */
  lemma WokenIsOnItsWay(s: State, c: CtxId)
    requires Reachable(s) && c < |s.ctx| && s.ctx[c].live && !Waiting(s.ctx[c])
    ensures || c in s.runQ
            || c in s.carried
            || (exists w :: InHand(s, w, c))
            || (s.ctx[c].tid < |s.workers| && (c in s.asked || c in s.workers[s.ctx[c].tid].filed))
  {
    ReachableInv(s);
    assert CtxOk(s, c);
    var o := s.ctx[c].owner;
    if o.On? || o.Adding? || (o.Timer? && o.remove.Taken?) {
      assert InHand(s, o.w, c);
    }
  }

  lemma WaitingIsNowhereElse(s: State, c: CtxId)
    requires c < |s.ctx| && CtxOk(s, c) && Waiting(s.ctx[c])
    ensures c !in s.runQ && c !in s.carried && c !in s.pool && c !in s.asked
  {
    if s.ctx[c].owner.On? || s.ctx[c].owner.Adding? {
      assert TaskOk(s.ctx[c], s.ctx[c].owner.w, s.workers[s.ctx[c].owner.w].pc.task);
    }
  }

  lemma ArmedIsInTimer(s: State, c: CtxId)
    requires c < |s.ctx| && CtxOk(s, c) && s.ctx[c].status.SleepSetSet?
    ensures && s.ctx[c].tid < |s.workers|
            && (c in s.workers[s.ctx[c].tid].heap
                || (InHand(s, s.ctx[c].tid, c)
                    && var t := s.workers[s.ctx[c].tid].pc.task;
                       t.AddCheck? || t.HeapPush? || t.TimeoutCas?))
  {
    if s.ctx[c].owner.On? || s.ctx[c].owner.Adding? {
      assert TaskOk(s.ctx[c], s.ctx[c].owner.w, s.workers[s.ctx[c].owner.w].pc.task);
    }
  }

  /** Conversely a waiting context is where a later resume or timeout will find it: parked, still
      in the hands of the worker that is suspending it, or in that worker's timer machinery. */
  lemma WaitingIsReachable(s: State, c: CtxId)
    requires Reachable(s) && c < |s.ctx| && Waiting(s.ctx[c])
    ensures Attempt(Resume, s.ctx[c].status).Move?
    ensures c !in s.runQ && c !in s.carried && c !in s.pool && c !in s.asked
    ensures s.ctx[c].status.SleepSetSet? ==>
              && s.ctx[c].tid < |s.workers|
              && (c in s.workers[s.ctx[c].tid].heap
                  || (InHand(s, s.ctx[c].tid, c)
                      && var t := s.workers[s.ctx[c].tid].pc.task;
                         t.AddCheck? || t.HeapPush? || t.TimeoutCas?))
  {
    ReachableInv(s);
    assert CtxOk(s, c);
    WaitingIsNowhereElse(s, c);
    if s.ctx[c].status.SleepSetSet? { ArmedIsInTimer(s, c); }
  }

  // ---- sleeping --------------------------------------------------------------------------

  /** What `dco_sleep_until` returns when the coroutine runs again. */
  function SleepResult(r: Ctx): int { if r.interrupted then 1 else 0 }

  /** 0 exactly when a timeout won, and then some clock reading had reached the deadline;
      1 exactly when a resume won. */
  lemma SleepReturns(s: State, w: WorkerId)
    requires Reachable(s) && w < |s.workers| && s.workers[w].pc.Busy? && s.workers[w].pc.task.Running?
    requires s.workers[w].pc.c < |s.ctx| && s.ctx[s.workers[w].pc.c].suspension.BySleep?
    ensures var r := s.ctx[s.workers[w].pc.c];
            && (SleepResult(r) == 0 <==> r.wake.ByTimeout?)
            && (SleepResult(r) == 1 <==> r.wake.ByResume?)
            && (r.wake.ByTimeout? ==> r.wake.clock >= r.timeout)
  {
    ReachableInv(s);
    var c := s.workers[w].pc.c;
    assert CtxOk(s, c) && InHand(s, w, c);
  }

  /** A context in a timer heap sleeps on that worker; one whose removal was asked for is in exactly
      one place: on its way to `time_remove_`, in it, or popped from it. */
  lemma TimerPlacement(s: State, c: CtxId)
    requires Reachable(s) && c < |s.ctx|
    ensures forall w :: 0 <= w < |s.workers| && c in s.workers[w].heap ==>
              s.ctx[c].tid == w && (s.ctx[c].status.SleepSetSet? || s.ctx[c].status.SleepSetRemove?)
    ensures s.ctx[c].status.SleepSetRemove? ==>
              && s.ctx[c].tid < |s.workers|
              && var p := s.workers[s.ctx[c].tid];
                 s.asked[c] + p.filed[c]
                 + (if InHand(s, s.ctx[c].tid, c) && (p.pc.task.Unheap? || p.pc.task.RemoveCas?) then 1 else 0) == 1
    ensures !s.ctx[c].status.SleepSetRemove? ==>
              c !in s.asked && forall w :: 0 <= w < |s.workers| ==> c !in s.workers[w].filed
  {
    ReachableInv(s);
    assert CtxOk(s, c);
    var o := s.ctx[c].owner;
    if o.On? || o.Adding? || (o.Timer? && InHand(s, o.w, c)) {
      assert TaskOk(s.ctx[c], o.w, s.workers[o.w].pc.task);
    }
  }

  // ---- a context in hand -----------------------------------------------------------------

  /** What nobody but its worker changes while a context is in hand. */
  ghost predicate HandKept(s: State, t: State, w: WorkerId, c: CtxId) {
    && w < |s.workers| && w < |t.workers| && c < |s.ctx| && c < |t.ctx|
    && t.workers[w].pc == s.workers[w].pc && t.workers[w].heap == s.workers[w].heap
    && t.ctx[c].timeout == s.ctx[c].timeout && t.ctx[c].interrupted == s.ctx[c].interrupted
    && t.ctx[c].tid == s.ctx[c].tid && t.ctx[c].suspension == s.ctx[c].suspension
  }

  /** A worker stays where it is only when the table refuses, and then nothing changes. */
  lemma StayingIsRefusal(w: WorkerId, p: Worker, r: Ctx, request: Request, clock: int)
    requires p.pc.Busy? && Work(w, p, r, request, clock).next == p.pc
    ensures Work(w, p, r, request, clock).r == r && Work(w, p, r, request, clock).heap == p.heap
  {}

  lemma WorkKeepsHands(s: State, w: WorkerId, c: CtxId, v: WorkerId, request: Request, clock: int)
    requires Inv(s) && w < |s.workers| && InHand(s, w, c) && v < |s.workers| && s.workers[v].pc.Busy?
    requires v == w ==> Work(v, s.workers[v], s.ctx[s.workers[v].pc.c], request, clock).next == s.workers[w].pc
    ensures HandKept(s, Put(s, v, Work(v, s.workers[v], s.ctx[s.workers[v].pc.c], request, clock)), w, c)
  {
    assert CtxOk(s, c);
    if v == w {
      StayingIsRefusal(w, s.workers[w], s.ctx[c], request, clock);
    } else if s.workers[v].pc.c == c {
      OneHand(s, c, w, v);
    }
  }

  lemma ResumersKeepHands(s: State, a: Action, w: WorkerId, c: CtxId)
    requires Inv(s) && Can(s, a) && w < |s.workers| && InHand(s, w, c)
    requires a.CreateNew? || a.CreateFromPool? || a.ResumeCas? || a.ResumePush? || a.ResumeFile?
    ensures HandKept(s, Apply(s, a), w, c)
  {
    assert CtxOk(s, c);
    assert TaskOk(s.ctx[c], w, s.workers[w].pc.task);
  }

  lemma PopsKeepHands(s: State, a: Action, w: WorkerId, c: CtxId)
    requires Inv(s) && Can(s, a) && w < |s.workers| && InHand(s, w, c)
    requires a.DrainPop? || a.ExpirePop? || a.PopRun?
    ensures HandKept(s, Apply(s, a), w, c)
  {}

  lemma EndsKeepHands(s: State, a: Action, w: WorkerId, c: CtxId)
    requires Inv(s) && Can(s, a) && w < |s.workers| && InHand(s, w, c)
    requires a.ReadClock? || a.DrainEnd? || a.ExpireEnd? || a.PopNothing?
    ensures HandKept(s, Apply(s, a), w, c)
  {}

  lemma StepKeepsHand(s: State, a: Action, w: WorkerId, c: CtxId)
    requires Inv(s) && Can(s, a) && w < |s.workers| && InHand(s, w, c)
    requires w < |Apply(s, a).workers| && Apply(s, a).workers[w].pc == s.workers[w].pc
    ensures HandKept(s, Apply(s, a), w, c)
  {
    if a.Proceed? { WorkKeepsHands(s, w, c, a.w, a.request, a.clock); }
    else if a.CreateNew? || a.CreateFromPool? || a.ResumeCas? || a.ResumePush? || a.ResumeFile? { ResumersKeepHands(s, a, w, c); }
    else if a.DrainPop? || a.ExpirePop? || a.PopRun? { PopsKeepHands(s, a, w, c); }
    else { EndsKeepHands(s, a, w, c); }
  }
}
