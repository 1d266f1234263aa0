/** The inductive invariant of the scheduling protocol and its preservation by every step. */
module SchedulerInvariant {
  import opened CoStatus
  import opened Counting
  import opened Scheduler

  predicate InHand(s: State, w: WorkerId, c: CtxId) {
    w < |s.workers| && s.workers[w].pc.Busy? && s.workers[w].pc.c == c
  }

  /** What `break_` says about a finished sleep. */
  predicate SleepOutcome(r: Ctx) {
    r.suspension.BySleep? ==>
      && !r.wake.NotWoken?
      && r.interrupted == r.wake.ByResume?
      && (r.wake.ByTimeout? ==> r.wake.clock >= r.timeout)
  }

  predicate IsTimer(r: Ctx, w: WorkerId) {
    r.owner.Timer? && r.owner.w == w
  }

  /** What a worker may rely on about the context it has in hand. */
  predicate TaskOk(r: Ctx, w: WorkerId, task: Task) {
    match task
    case Unheap(_) => IsTimer(r, w) && r.owner.remove.Taken? && !r.owner.heap.Coming?
    case RemoveCas(_) => IsTimer(r, w) && r.owner.remove.Taken? && r.owner.heap.OutOfHeap?
    case TimeoutCas(_, clock) =>
      IsTimer(r, w) && !r.owner.remove.Taken? && r.owner.heap.OutOfHeap? && clock >= r.timeout
    case SetBreak(_, value) =>
      && r.owner == On(w) && r.status.Ready? && r.live && r.suspends == r.pushes + 1 && r.suspension.BySleep?
      && (if value then r.wake.ByResume? else r.wake.ByTimeout? && r.wake.clock >= r.timeout)
    case Push(_) => r.owner == On(w) && r.status.Ready? && r.live && r.suspends == r.pushes + 1 && SleepOutcome(r)
    case Popped => r.owner == On(w) && r.status.Ready? && r.live && r.suspends == r.pushes && SleepOutcome(r)
    case Running =>
      && r.owner == On(w) && r.status.Ready? && r.live && r.suspends == r.pushes && r.tid == w && SleepOutcome(r)
    case Yielding =>
      r.owner == On(w) && (r.status.YieldReset? || r.status.YieldBreak?) && r.live && r.suspends == r.pushes + 1 && r.tid == w
    case Sleeping(_) =>
      r.owner == On(w) && (r.status.SleepReset? || r.status.SleepBreak?) && r.live && r.suspends == r.pushes + 1 && r.tid == w
    case Switching =>
      && r.owner == On(w) && r.live && r.suspends == r.pushes + 1 && r.tid == w
      && (r.status.YieldReset? || r.status.YieldBreak? || ((r.status.SleepReset? || r.status.SleepBreak?) && r.interrupted))
    case Ending => r.owner == On(w) && r.status.Ready? && !r.live && r.suspends == r.pushes
    case Recycling => r.owner == On(w) && r.status.YieldSet? && !r.live && r.suspends == r.pushes
    case Add =>
      r.owner == Adding(w) && (r.status.SleepSet? || r.status.SleepSetBreak?) && r.tid == w && r.interrupted
    case AddCheck => IsTimer(r, w) && r.owner.heap.Coming? && !r.owner.remove.Taken?
    case HeapPush => IsTimer(r, w) && r.owner.heap.Coming? && !r.owner.remove.Taken?
  }

  /** What the owner of a context implies about the context itself. */
  predicate OwnerOk(r: Ctx) {
    match r.owner
    case Pool => r.status.YieldSet? && !r.live && r.suspends == r.pushes
    case Parked => r.status.YieldSet? && r.live && r.suspends == r.pushes + 1
    case Carried => r.status.Ready? && r.live && r.suspends == r.pushes + 1 && SleepOutcome(r)
    case Queued => r.status.Ready? && r.live && r.suspends == r.pushes && SleepOutcome(r)
    case On(_) => true
    case Adding(_) => r.live && r.suspends == r.pushes + 1
    case Timer(w, _, m) =>
      && r.tid == w && r.live && r.interrupted && r.suspends == r.pushes + 1
      && (if m.NotAsked? then r.status.SleepSetSet? else r.status.SleepSetRemove?)
  }

  predicate Asleep(st: Status) {
    || st.SleepReset? || st.SleepSet? || st.SleepBreak?
    || st.SleepSetSet? || st.SleepSetBreak? || st.SleepSetRemove?
  }

  /** Suspensions, wakes and the last wake of a context agree with its status. */
  predicate HistoryOk(r: Ctx) {
    && r.suspends == r.resumes + r.timeouts + One(r.live && Unwoken(r.status))
    && (r.live ==> (r.wake.NotWoken? <==> Unwoken(r.status)))
    && (r.live && !r.status.Ready? ==> !r.wake.ByTimeout?)
    && (r.status.YieldReset? || (r.live && r.status.YieldSet?) || r.status.YieldBreak? ==> !r.suspension.BySleep?)
    && (Asleep(r.status) ==> r.suspension.BySleep?)
  }

  /** Which structures contain the context, and how often. */
  ghost predicate PlacesOk(s: State, c: CtxId)
    requires c < |s.ctx|
  {
    var o := s.ctx[c].owner;
    && s.runQ[c] == One(o.Queued?)
    && s.pool[c] == One(o.Pool?)
    && s.carried[c] == One(o.Carried?)
    && s.asked[c] == One(o.Timer? && o.remove.Asked?)
    && (forall w :: 0 <= w < |s.workers| ==>
          && s.workers[w].heap[c] == One(o.Timer? && o.w == w && o.heap.InHeap?)
          && s.workers[w].filed[c] == One(o.Timer? && o.w == w && o.remove.Filed?))
  }

  /** The worker that an owner names has the context in hand, at a place that fits. */
  predicate HoldFits(r: Ctx, c: CtxId, pc: Pc)
    requires r.owner.On? || r.owner.Adding? || r.owner.Timer?
  {
    var held := pc.Busy? && pc.c == c;
    match r.owner
    case On(_) => held
    case Adding(_) => held
    case Timer(_, h, m) =>
      && (h.Coming? ==> held && (pc.task.AddCheck? || pc.task.HeapPush?))
      && (m.Taken? ==> held && (pc.task.Unheap? || pc.task.RemoveCas?))
      && (h.OutOfHeap? && m.NotAsked? ==> held && pc.task.TimeoutCas?)
  }

  predicate HandsOk(s: State, c: CtxId)
    requires c < |s.ctx|
  {
    var r := s.ctx[c];
    r.owner.On? || r.owner.Adding? || r.owner.Timer? ==>
      r.owner.w < |s.workers| && HoldFits(r, c, s.workers[r.owner.w].pc)
  }

  ghost predicate CtxOk(s: State, c: CtxId)
    requires c < |s.ctx|
  {
    && OwnerOk(s.ctx[c]) && HistoryOk(s.ctx[c]) && PlacesOk(s, c) && HandsOk(s, c)
    && (forall w :: 0 <= w < |s.workers| && InHand(s, w, c) ==> TaskOk(s.ctx[c], w, s.workers[w].pc.task))
  }

  ghost predicate Inv(s: State) {
    && Typed(s)
    && forall c :: 0 <= c < |s.ctx| ==> CtxOk(s, c)
  }

  // ---- one context at a time -------------------------------------------------------------

  /** Nothing that `CtxOk` says about `c` differs between the two states. */
  ghost predicate Same(s: State, s': State, c: CtxId) {
    && c < |s.ctx| && c < |s'.ctx| && s'.ctx[c] == s.ctx[c] && |s'.workers| == |s.workers|
    && s'.runQ[c] == s.runQ[c] && s'.pool[c] == s.pool[c]
    && s'.carried[c] == s.carried[c] && s'.asked[c] == s.asked[c]
    && (forall w :: 0 <= w < |s.workers| ==>
          && s'.workers[w].heap[c] == s.workers[w].heap[c]
          && s'.workers[w].filed[c] == s.workers[w].filed[c]
          && InHand(s', w, c) == InHand(s, w, c)
          && (InHand(s, w, c) ==> s'.workers[w].pc == s.workers[w].pc))
  }

  lemma Unaffected(s: State, s': State, c: CtxId)
    requires Same(s, s', c) && CtxOk(s, c)
    ensures CtxOk(s', c)
  {}

  lemma OneHand(s: State, c: CtxId, w: WorkerId, v: WorkerId)
    requires c < |s.ctx| && CtxOk(s, c) && InHand(s, w, c) && InHand(s, v, c)
    ensures w == v
  {
    assert TaskOk(s.ctx[c], w, s.workers[w].pc.task);
    assert TaskOk(s.ctx[c], v, s.workers[v].pc.task);
  }

  lemma OnlyHand(s: State, c: CtxId, w: WorkerId)
    requires c < |s.ctx| && CtxOk(s, c) && InHand(s, w, c)
    ensures forall v :: 0 <= v < |s.workers| && InHand(s, v, c) ==> v == w
  {
    forall v | 0 <= v < |s.workers| && InHand(s, v, c)
      ensures v == w
    {
      OneHand(s, c, w, v);
    }
  }

  /** From one context to all: the step changed nothing about the others. */
  lemma AllFromOne(s: State, s': State, x: CtxId)
    requires Inv(s) && Typed(s') && |s.ctx| == |s'.ctx| && x < |s.ctx|
    requires CtxOk(s', x)
    requires forall c :: 0 <= c < |s.ctx| && c != x ==> Same(s, s', c)
    ensures Inv(s')
  {
    forall c | 0 <= c < |s'.ctx|
      ensures CtxOk(s', c)
    {
      if c != x {
        assert CtxOk(s, c);
        Unaffected(s, s', c);
      }
    }
  }

  // ---- a worker's step on the context in hand --------------------------------------------

  predicate Located(r: Ctx, w: WorkerId) {
    r.owner.On? || r.owner.Adding? || r.owner.Timer? ==> r.owner.w == w
  }

  predicate InHeapNow(r: Ctx) {
    r.owner.Timer? && r.owner.heap.InHeap?
  }

  /** An effect that keeps the invariant of the context in hand. */
  ghost predicate EffectOk(w: WorkerId, c: CtxId, p: Worker, r: Ctx, e: Effect) {
    && OwnerOk(e.r) && HistoryOk(e.r) && Located(e.r, w) && !e.r.owner.Carried?
    && (e.r.owner.On? || e.r.owner.Adding? || e.r.owner.Timer? ==> HoldFits(e.r, c, e.next))
    && (e.next.Busy? ==> e.next.c == c && TaskOk(e.r, w, e.next.task))
    && (e.toRun <==> e.r.owner.Queued?) && (e.toPool <==> e.r.owner.Pool?)
    && ((e.r.owner.Timer? && e.r.owner.remove.Asked?) <==> (r.owner.Timer? && r.owner.remove.Asked?))
    && ((e.r.owner.Timer? && e.r.owner.remove.Filed?) <==> (r.owner.Timer? && r.owner.remove.Filed?))
    && (forall d :: d != c ==> e.heap[d] == p.heap[d])
    && e.heap[c] == One(InHeapNow(e.r))
  }

  lemma WorkKeepsOwner(w: WorkerId, p: Worker, r: Ctx, request: Request, clock: int)
    requires p.pc.Busy? && OwnerOk(r) && TaskOk(r, w, p.pc.task)
    ensures OwnerOk(Work(w, p, r, request, clock).r)
  {}

  /** Tasks around a sleeper and its timer. */
  predicate SleepTask(t: Task) {
    t.Unheap? || t.RemoveCas? || t.TimeoutCas? || t.SetBreak? || t.Add? || t.AddCheck? || t.HeapPush?
  }

  lemma WakeWorkKeepsTask(w: WorkerId, p: Worker, r: Ctx, request: Request, clock: int)
    requires p.pc.Busy? && (p.pc.task.RemoveCas? || p.pc.task.TimeoutCas? || p.pc.task.SetBreak?)
    requires OwnerOk(r) && HistoryOk(r) && TaskOk(r, w, p.pc.task)
    ensures var e := Work(w, p, r, request, clock);
            e.next.Busy? ==> e.next.c == p.pc.c && TaskOk(e.r, w, e.next.task)
  {}

  lemma SleepWorkKeepsTask(w: WorkerId, p: Worker, r: Ctx, request: Request, clock: int)
    requires p.pc.Busy? && SleepTask(p.pc.task) && OwnerOk(r) && HistoryOk(r) && TaskOk(r, w, p.pc.task)
    ensures var e := Work(w, p, r, request, clock);
            e.next.Busy? ==> e.next.c == p.pc.c && TaskOk(e.r, w, e.next.task)
  {
    if p.pc.task.RemoveCas? || p.pc.task.TimeoutCas? || p.pc.task.SetBreak? {
      WakeWorkKeepsTask(w, p, r, request, clock);
    }
  }

  lemma WorkKeepsTask(w: WorkerId, p: Worker, r: Ctx, request: Request, clock: int)
    requires p.pc.Busy? && OwnerOk(r) && HistoryOk(r) && TaskOk(r, w, p.pc.task)
    ensures var e := Work(w, p, r, request, clock);
            e.next.Busy? ==> e.next.c == p.pc.c && TaskOk(e.r, w, e.next.task)
  {
    if SleepTask(p.pc.task) { SleepWorkKeepsTask(w, p, r, request, clock); }
  }

  lemma WorkKeepsHistory(w: WorkerId, p: Worker, r: Ctx, request: Request, clock: int)
    requires p.pc.Busy? && OwnerOk(r) && HistoryOk(r) && TaskOk(r, w, p.pc.task)
    ensures HistoryOk(Work(w, p, r, request, clock).r)
  {}

  lemma WorkRoutes(w: WorkerId, p: Worker, r: Ctx, request: Request, clock: int)
    requires p.pc.Busy? && OwnerOk(r) && TaskOk(r, w, p.pc.task)
    ensures var e := Work(w, p, r, request, clock);
            && Located(e.r, w) && !e.r.owner.Carried?
            && (e.toRun <==> e.r.owner.Queued?) && (e.toPool <==> e.r.owner.Pool?)
            && ((e.r.owner.Timer? && e.r.owner.remove.Asked?) <==> (r.owner.Timer? && r.owner.remove.Asked?))
            && ((e.r.owner.Timer? && e.r.owner.remove.Filed?) <==> (r.owner.Timer? && r.owner.remove.Filed?))
            && (e.r.owner.On? || e.r.owner.Adding? || e.r.owner.Timer? ==> HoldFits(e.r, p.pc.c, e.next))
  {}

  lemma WorkHeap(w: WorkerId, p: Worker, r: Ctx, request: Request, clock: int)
    requires p.pc.Busy? && TaskOk(r, w, p.pc.task) && OwnerOk(r)
    requires p.heap[p.pc.c] == One(InHeapNow(r))
    ensures var e := Work(w, p, r, request, clock);
            && (forall d :: d != p.pc.c ==> e.heap[d] == p.heap[d])
            && e.heap[p.pc.c] == One(InHeapNow(e.r))
  {}

  lemma PutPlaces(s: State, w: WorkerId, e: Effect)
    requires Inv(s) && w < |s.workers| && s.workers[w].pc.Busy?
    requires EffectOk(w, s.workers[w].pc.c, s.workers[w], s.ctx[s.workers[w].pc.c], e)
    ensures PlacesOk(Put(s, w, e), s.workers[w].pc.c)
  {
    var x := s.workers[w].pc.c;
    assert CtxOk(s, x) && InHand(s, w, x);
    assert TaskOk(s.ctx[x], w, s.workers[w].pc.task);
  }

  lemma PutTyped(s: State, w: WorkerId, e: Effect)
    requires Inv(s) && w < |s.workers| && s.workers[w].pc.Busy?
    requires EffectOk(w, s.workers[w].pc.c, s.workers[w], s.ctx[s.workers[w].pc.c], e)
    ensures Typed(Put(s, w, e))
  {
    var s' := Put(s, w, e);
    var x := s.workers[w].pc.c;
    forall v, d | 0 <= v < |s'.workers| && d in s'.workers[v].heap
      ensures d < |s'.ctx|
    {
      if v == w && d != x { assert d in s.workers[w].heap; }
    }
  }

  lemma PutHands(s: State, w: WorkerId, e: Effect)
    requires Inv(s) && w < |s.workers| && s.workers[w].pc.Busy?
    requires EffectOk(w, s.workers[w].pc.c, s.workers[w], s.ctx[s.workers[w].pc.c], e)
    ensures HandsOk(Put(s, w, e), s.workers[w].pc.c)
  {}

  lemma PutSubject(s: State, w: WorkerId, e: Effect)
    requires Inv(s) && w < |s.workers| && s.workers[w].pc.Busy?
    requires EffectOk(w, s.workers[w].pc.c, s.workers[w], s.ctx[s.workers[w].pc.c], e)
    ensures CtxOk(Put(s, w, e), s.workers[w].pc.c)
  {
    var x := s.workers[w].pc.c;
    assert CtxOk(s, x) && InHand(s, w, x);
    OnlyHand(s, x, w);
    PutPlaces(s, w, e);
    PutHands(s, w, e);
  }

  lemma PutPreserves(s: State, w: WorkerId, e: Effect)
    requires Inv(s) && w < |s.workers| && s.workers[w].pc.Busy?
    requires EffectOk(w, s.workers[w].pc.c, s.workers[w], s.ctx[s.workers[w].pc.c], e)
    ensures Inv(Put(s, w, e))
  {
    PutTyped(s, w, e);
    PutSubject(s, w, e);
    forall c | 0 <= c < |s.ctx| && c != s.workers[w].pc.c
      ensures Same(s, Put(s, w, e), c)
    {}
    AllFromOne(s, Put(s, w, e), s.workers[w].pc.c);
  }

  lemma ProceedPreserves(s: State, w: WorkerId, request: Request, clock: int)
    requires Inv(s) && Enabled(s, Proceed(w, request, clock))
    ensures Inv(Apply(s, Proceed(w, request, clock)))
  {
    var p := s.workers[w];
    var c := p.pc.c;
    assert CtxOk(s, c) && InHand(s, w, c);
    var e := Work(w, p, s.ctx[c], request, clock);
    assert EffectOk(w, c, p, s.ctx[c], e) by {
      WorkKeepsOwner(w, p, s.ctx[c], request, clock);
      WorkKeepsTask(w, p, s.ctx[c], request, clock);
      WorkKeepsHistory(w, p, s.ctx[c], request, clock);
      WorkRoutes(w, p, s.ctx[c], request, clock);
      assert Located(s.ctx[c], w);
      WorkHeap(w, p, s.ctx[c], request, clock);
    }
    PutPreserves(s, w, e);
  }

  // ---- the other actions -----------------------------------------------------------------

  /** `s'` has one more context than `s`: a parked one that nothing else knows. */
  ghost predicate OneMore(s: State, s': State, r: Ctx) {
    && |s'.ctx| == |s.ctx| + 1
    && (forall c {:trigger s'.ctx[c]} :: 0 <= c < |s.ctx| ==> s'.ctx[c] == s.ctx[c])
    && s'.ctx[|s.ctx|] == r && r.owner.Parked? && OwnerOk(r) && HistoryOk(r)
    && s'.workers == s.workers && s'.runQ == s.runQ && s'.pool == s.pool
    && s'.carried == s.carried && s'.asked == s.asked
  }

  lemma OneMoreSubject(s: State, s': State, r: Ctx)
    requires Inv(s) && OneMore(s, s', r)
    ensures CtxOk(s', |s.ctx|)
  {
    forall w | 0 <= w < |s'.workers|
      ensures !InHand(s', w, |s.ctx|)
    {}
  }

  lemma OneMorePreserves(s: State, s': State, r: Ctx)
    requires Inv(s) && OneMore(s, s', r)
    ensures Inv(s')
  {
    OneMoreSubject(s, s', r);
    forall c | 0 <= c < |s.ctx|
      ensures CtxOk(s', c)
    {
      assert CtxOk(s, c);
      Unaffected(s, s', c);
    }
  }

  lemma CreateFromPoolSubject(s: State, c: CtxId)
    requires Inv(s) && Enabled(s, CreateFromPool(c))
    ensures CtxOk(Apply(s, CreateFromPool(c)), c)
  {
    assert CtxOk(s, c);
  }

  lemma CreateFromPoolPreserves(s: State, c: CtxId)
    requires Inv(s) && Enabled(s, CreateFromPool(c))
    ensures Inv(Apply(s, CreateFromPool(c)))
  {
    CreateFromPoolSubject(s, c);
    AllFromOne(s, Apply(s, CreateFromPool(c)), c);
  }

  /** A live context waits for a plain resume only when it is parked, and for a removal only
      when it is in the timer machinery. */
  lemma WaitingPlaces(s: State, c: CtxId)
    requires c < |s.ctx| && CtxOk(s, c) && s.ctx[c].live
    ensures s.ctx[c].status.YieldSet? ==> s.ctx[c].owner.Parked?
    ensures s.ctx[c].status.SleepSetSet? ==> s.ctx[c].owner.Timer?
  {}

  lemma ResumeLocal(r: Ctx)
    requires OwnerOk(r) && HistoryOk(r) && r.live
    requires r.status.YieldSet? ==> r.owner.Parked?
    ensures OwnerOk(Resumed(r)) && HistoryOk(Resumed(r))
  {}

  lemma ResumeTask(r: Ctx, w: WorkerId, task: Task)
    requires r.live && OwnerOk(r) && TaskOk(r, w, task)
    ensures TaskOk(Resumed(r), w, task)
  {}

  /** How a resume moves a context between owners. */
  lemma ResumedOwner(r: Ctx)
    requires r.live && (r.status.YieldSet? ==> r.owner.Parked?) && (r.status.SleepSetSet? ==> r.owner.Timer?)
    ensures var o, res := Resumed(r).owner, ResultOf(Attempt(Resume, r.status));
            if res == 0 then r.owner.Parked? && o == Carried
            else if res == 4 then r.owner.Timer? && o == r.owner.(remove := Asked)
            else o == r.owner
  {}

  lemma ResumePlaces(s: State, c: CtxId)
    requires Inv(s) && Enabled(s, ResumeCas(c))
    ensures PlacesOk(Apply(s, ResumeCas(c)), c)
  {
    assert CtxOk(s, c);
    WaitingPlaces(s, c);
    ResumedOwner(s.ctx[c]);
    AskedOnce(s, c);
  }

  lemma AskedOnce(s: State, c: CtxId)
    requires c < |s.ctx| && CtxOk(s, c) && s.ctx[c].live
    ensures s.ctx[c].status.SleepSetSet? ==> s.ctx[c].owner.Timer? && s.ctx[c].owner.remove.NotAsked?
  {}

  lemma ResumeHands(s: State, c: CtxId)
    requires Inv(s) && Enabled(s, ResumeCas(c))
    ensures HandsOk(Apply(s, ResumeCas(c)), c)
  {
    assert CtxOk(s, c);
    WaitingPlaces(s, c);
  }

  lemma ResumeCasSubject(s: State, c: CtxId)
    requires Inv(s) && Enabled(s, ResumeCas(c))
    ensures CtxOk(Apply(s, ResumeCas(c)), c)
  {
    var s' := Apply(s, ResumeCas(c));
    assert CtxOk(s, c);
    WaitingPlaces(s, c);
    ResumePlaces(s, c);
    ResumeHands(s, c);
    ResumeLocal(s.ctx[c]);
    forall w | 0 <= w < |s.workers| && InHand(s', w, c)
      ensures TaskOk(s'.ctx[c], w, s'.workers[w].pc.task)
    {
      assert InHand(s, w, c);
      ResumeTask(s.ctx[c], w, s.workers[w].pc.task);
    }
  }

  lemma ResumeCasPreserves(s: State, c: CtxId)
    requires Inv(s) && Enabled(s, ResumeCas(c))
    ensures Inv(Apply(s, ResumeCas(c)))
  {
    ResumeCasSubject(s, c);
    AllFromOne(s, Apply(s, ResumeCas(c)), c);
  }

  lemma ResumePushSubject(s: State, c: CtxId)
    requires Inv(s) && Enabled(s, ResumePush(c))
    ensures CtxOk(Apply(s, ResumePush(c)), c)
  {
    assert CtxOk(s, c);
  }

  lemma ResumePushPreserves(s: State, c: CtxId)
    requires Inv(s) && Enabled(s, ResumePush(c))
    ensures Inv(Apply(s, ResumePush(c)))
  {
    ResumePushSubject(s, c);
    AllFromOne(s, Apply(s, ResumePush(c)), c);
  }

  lemma ResumeFilePlaces(s: State, c: CtxId)
    requires Inv(s) && Enabled(s, ResumeFile(c))
    ensures PlacesOk(Apply(s, ResumeFile(c)), c)
  {
    assert CtxOk(s, c);
  }

  lemma ResumeFileSubject(s: State, c: CtxId)
    requires Inv(s) && Enabled(s, ResumeFile(c))
    ensures CtxOk(Apply(s, ResumeFile(c)), c)
  {
    assert CtxOk(s, c);
    ResumeFilePlaces(s, c);
  }

  lemma ResumeFileOthers(s: State, c: CtxId, d: CtxId)
    requires Typed(s) && Enabled(s, ResumeFile(c)) && d < |s.ctx| && d != c
    ensures Same(s, Apply(s, ResumeFile(c)), d)
  {}

  lemma ResumeFilePreserves(s: State, c: CtxId)
    requires Inv(s) && Enabled(s, ResumeFile(c))
    ensures Inv(Apply(s, ResumeFile(c)))
  {
    ResumeFileSubject(s, c);
    forall d | 0 <= d < |s.ctx| && d != c
      ensures Same(s, Apply(s, ResumeFile(c)), d)
    {
      ResumeFileOthers(s, c, d);
    }
    AllFromOne(s, Apply(s, ResumeFile(c)), c);
  }

  lemma DrainPopSubject(s: State, w: WorkerId, c: CtxId)
    requires Inv(s) && Enabled(s, DrainPop(w, c))
    ensures CtxOk(Apply(s, DrainPop(w, c)), c)
  {
    assert CtxOk(s, c);
  }

  lemma DrainPopPreserves(s: State, w: WorkerId, c: CtxId)
    requires Inv(s) && Enabled(s, DrainPop(w, c))
    ensures Inv(Apply(s, DrainPop(w, c)))
  {
    DrainPopSubject(s, w, c);
    AllFromOne(s, Apply(s, DrainPop(w, c)), c);
  }

  lemma ExpirePopPlaces(s: State, w: WorkerId, c: CtxId)
    requires Inv(s) && Enabled(s, ExpirePop(w, c))
    ensures PlacesOk(Apply(s, ExpirePop(w, c)), c)
  {
    assert CtxOk(s, c);
  }

  lemma ExpirePopSubject(s: State, w: WorkerId, c: CtxId)
    requires Inv(s) && Enabled(s, ExpirePop(w, c))
    ensures CtxOk(Apply(s, ExpirePop(w, c)), c)
  {
    assert CtxOk(s, c);
    ExpirePopPlaces(s, w, c);
  }

  lemma ExpirePopOthers(s: State, w: WorkerId, c: CtxId, d: CtxId)
    requires Typed(s) && Enabled(s, ExpirePop(w, c)) && d < |s.ctx| && d != c
    ensures Same(s, Apply(s, ExpirePop(w, c)), d)
  {}

  lemma ExpirePopPreserves(s: State, w: WorkerId, c: CtxId)
    requires Inv(s) && Enabled(s, ExpirePop(w, c))
    ensures Inv(Apply(s, ExpirePop(w, c)))
  {
    ExpirePopSubject(s, w, c);
    forall d | 0 <= d < |s.ctx| && d != c
      ensures Same(s, Apply(s, ExpirePop(w, c)), d)
    {
      ExpirePopOthers(s, w, c, d);
    }
    AllFromOne(s, Apply(s, ExpirePop(w, c)), c);
  }

  lemma PopRunSubject(s: State, w: WorkerId, c: CtxId)
    requires Inv(s) && Enabled(s, PopRun(w, c))
    ensures CtxOk(Apply(s, PopRun(w, c)), c)
  {
    assert CtxOk(s, c);
  }

  lemma PopRunPreserves(s: State, w: WorkerId, c: CtxId)
    requires Inv(s) && Enabled(s, PopRun(w, c))
    ensures Inv(Apply(s, PopRun(w, c)))
  {
    PopRunSubject(s, w, c);
    AllFromOne(s, Apply(s, PopRun(w, c)), c);
  }

  lemma LoopPreserves(s: State, w: WorkerId, at: Loop)
    requires Inv(s) && w < |s.workers| && s.workers[w].pc.Free?
    ensures Inv(SetPc(s, w, Free(at)))
  {
    var s' := SetPc(s, w, Free(at));
    forall c | 0 <= c < |s'.ctx|
      ensures CtxOk(s', c)
    {
      assert CtxOk(s, c);
      Unaffected(s, s', c);
    }
  }

  lemma ActionPreserves(s: State, a: Action)
    requires Inv(s) && Enabled(s, a)
    ensures Inv(Apply(s, a))
  {
    match a
    case CreateNew => OneMorePreserves(s, Apply(s, a), NewCtx());
    case CreateFromPool(c) => CreateFromPoolPreserves(s, c);
    case ResumeCas(c) => ResumeCasPreserves(s, c);
    case ResumePush(c) => ResumePushPreserves(s, c);
    case ResumeFile(c) => ResumeFilePreserves(s, c);
    case DrainPop(w, c) => DrainPopPreserves(s, w, c);
    case ExpirePop(w, c) => ExpirePopPreserves(s, w, c);
    case PopRun(w, c) => PopRunPreserves(s, w, c);
    case Proceed(w, request, clock) => ProceedPreserves(s, w, request, clock);
    case ReadClock(w, clock) => LoopPreserves(s, w, Drain(clock));
    case DrainEnd(w) => LoopPreserves(s, w, Expire(s.workers[w].pc.at.now));
    case ExpireEnd(w) => LoopPreserves(s, w, Pop);
    case PopNothing(w) => LoopPreserves(s, w, Top);
  }
}
