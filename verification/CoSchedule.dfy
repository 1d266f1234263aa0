/**
 `coschedule` and the sleeping part of `coworker` as code: methods on the real status words, flags
 and queues.  Between any two operations that other threads can observe, those may take any steps
 (`Others`).  Every method states the run it is part of: from the old state to the new one in which
 its thread takes exactly the named steps (`Ran`), and what it leaves behind.  The theorems about all
 runs show that the assertions and error exits of the code never fire.

 Reading the clock is a parameter.  Calling a worker for a queued context is the subject of
 `WorkerPool`.
 */
module CoSchedule {
  import opened CoStatus
  import opened Runs
  import opened Counting
  import opened Scheduler
  import opened SchedulerInvariant
  import opened SchedulerTheorems

  /** The fields of a context that the code reads and writes. */
  datatype Fields = Fields(status: Status, tid: WorkerId, timeout: int, interrupted: bool)

  function FieldsOf(r: Ctx): Fields {
    Fields(r.status, r.tid, r.timeout, r.interrupted)
  }

  /** The program's variables. */
  datatype Variables = Variables(
    ctx: seq<Fields>,
    ctxQue: seq<CtxId>,
    ctxBuf: seq<CtxId>,
    timeRemove: seq<seq<CtxId>>,
    timeWait: seq<multiset<CtxId>>)

  /** The variables are what the state of the transition system says. */
  ghost predicate Coupled(x: Variables, m: State) {
    && |x.ctx| == |m.ctx| && |x.timeRemove| == |x.timeWait| == |m.workers|
    && (forall c :: 0 <= c < |x.ctx| ==> x.ctx[c] == FieldsOf(m.ctx[c]))
    && m.runQ == multiset(x.ctxQue) && m.pool == multiset(x.ctxBuf)
    && (forall w :: 0 <= w < |x.timeRemove| ==>
          m.workers[w].filed == multiset(x.timeRemove[w]) && m.workers[w].heap == x.timeWait[w])
  }

  /** The variables after a worker's step with effect `e`. */
  function Written(x: Variables, w: WorkerId, c: CtxId, e: Effect): Variables
    requires w < |x.timeWait| && c < |x.ctx|
  {
    x.(ctx := if x.ctx[c] == FieldsOf(e.r) then x.ctx else x.ctx[c := FieldsOf(e.r)],
       ctxQue := if e.toRun then x.ctxQue + [c] else x.ctxQue,
       ctxBuf := if e.toPool then x.ctxBuf + [c] else x.ctxBuf,
       timeWait := if x.timeWait[w] == e.heap then x.timeWait else x.timeWait[w := e.heap])
  }

  lemma WrittenIsPut(x: Variables, m: State, w: WorkerId, c: CtxId, e: Effect)
    requires Coupled(x, m) && w < |m.workers| && c < |m.ctx|
    requires m.workers[w].pc.Busy? && m.workers[w].pc.c == c
    ensures Coupled(Written(x, w, c, e), Put(m, w, e))
  {}

  predicate StoreOnly(p: Worker, e: Effect) {
    e.heap == p.heap && !e.toRun && !e.toPool
  }

  lemma WrittenStore(x: Variables, m: State, w: WorkerId, c: CtxId, e: Effect)
    requires Coupled(x, m) && w < |m.workers| && c < |m.ctx| && StoreOnly(m.workers[w], e)
    ensures Written(x, w, c, e) == x.(ctx := x.ctx[c := FieldsOf(e.r)])
  {}

  /** A step between contexts that changes no variable. */
  ghost predicate IdleStep(m: State, a: Action, t: State)
    requires a.ReadClock? || a.DrainEnd? || a.ExpireEnd? || a.PopNothing?
  {
    a.w < |t.workers| == |m.workers| &&
    match a
    case ReadClock(w, clock) => t.workers[w].pc == Free(Drain(clock))
    case DrainEnd(w) => m.workers[w].pc.Free? && m.workers[w].pc.at.Drain? && t.workers[w].pc == Free(Expire(m.workers[w].pc.at.now))
    case ExpireEnd(w) => t.workers[w].pc == Free(Pop)
    case PopNothing(w) => t.workers[w].pc == Free(Top)
  }

  lemma IdleFields(m: State, a: Action)
    requires Typed(m) && Enabled(m, a) && (a.ReadClock? || a.DrainEnd? || a.ExpireEnd? || a.PopNothing?)
    ensures IdleStep(m, a, Apply(m, a))
  {}

  // What one step of each task does, in terms of the variables.

  /** Where a request to suspend leads. */
  function SuspendTask(request: Request): Task {
    if request.DoSleep? then Sleeping(request.until) else Yielding
  }

  lemma SuspendEffect(w: WorkerId, p: Worker, r: Ctx, op: Op, request: Request, clock: int)
    requires p.pc.Busy? && p.pc.task.Running? && Attempt(op, r.status).Move?
    requires (op == Yield && request.DoYield?) || (op == Sleep && request.DoSleep?)
    ensures var e := Work(w, p, r, request, clock);
            && StoreOnly(p, e) && FieldsOf(e.r) == FieldsOf(r).(status := Attempt(op, r.status).next)
            && e.r.suspension == (if op == Yield then ByYield else BySleep)
            && e.next == Busy(p.pc.c, SuspendTask(request))
  {}

  lemma YieldEffect(w: WorkerId, p: Worker, r: Ctx, request: Request, clock: int)
    requires p.pc.Busy? && p.pc.task.Yielding?
    ensures var e := Work(w, p, r, request, clock);
            e.r == r && StoreOnly(p, e) && e.next == Busy(p.pc.c, Switching)
  {}

  lemma ResetEffect(w: WorkerId, p: Worker, r: Ctx, request: Request, clock: int)
    requires p.pc.Busy? && p.pc.task.Ending?
    ensures var e := Work(w, p, r, request, clock);
            && StoreOnly(p, e) && e.next == Busy(p.pc.c, Recycling)
            && FieldsOf(e.r) == FieldsOf(r).(status := YieldSet, timeout := 0, interrupted := true)
  {}

  lemma EndEffect(w: WorkerId, p: Worker, r: Ctx, request: Request, clock: int)
    requires p.pc.Busy? && p.pc.task.Running? && request.DoEnd?
    ensures var e := Work(w, p, r, request, clock);
            StoreOnly(p, e) && FieldsOf(e.r) == FieldsOf(r) && e.next == Busy(p.pc.c, Ending)
  {}

  lemma EnterEffect(w: WorkerId, p: Worker, r: Ctx, request: Request, clock: int)
    requires p.pc.Busy? && p.pc.task.Popped?
    ensures var e := Work(w, p, r, request, clock);
            StoreOnly(p, e) && FieldsOf(e.r) == FieldsOf(r).(tid := w) && e.next == Busy(p.pc.c, Running)
  {}

  lemma SwitchEffect(w: WorkerId, p: Worker, r: Ctx, request: Request, clock: int)
    requires p.pc.Busy? && p.pc.task.Switching? && Attempt(Sw, r.status).Move?
    ensures var e, o := Work(w, p, r, request, clock), Attempt(Sw, r.status);
            && StoreOnly(p, e) && FieldsOf(e.r) == FieldsOf(r).(status := o.next) && 0 <= o.res <= 2
            && e.next == if o.res == 0 then Busy(p.pc.c, Push(Top)) else if o.res == 2 then Busy(p.pc.c, Add) else Free(Top)
  {}

  lemma AddEffect(w: WorkerId, p: Worker, r: Ctx, request: Request, clock: int)
    requires p.pc.Busy? && p.pc.task.Add? && Attempt(Op.SleepAdd, r.status).Move?
    ensures var e, o := Work(w, p, r, request, clock), Attempt(Op.SleepAdd, r.status);
            && StoreOnly(p, e) && FieldsOf(e.r) == FieldsOf(r).(status := o.next)
            && 0 <= o.res <= 1 && e.next == Busy(p.pc.c, if o.res == 0 then Push(Top) else AddCheck)
  {}

  lemma CheckEffect(w: WorkerId, p: Worker, r: Ctx, request: Request, clock: int)
    requires p.pc.Busy? && p.pc.task.AddCheck?
    ensures var e := Work(w, p, r, request, clock);
            && StoreOnly(p, e) && FieldsOf(e.r) == FieldsOf(r)
            && e.next == Busy(p.pc.c, if r.timeout <= clock then TimeoutCas(Top, clock) else HeapPush)
  {}

  lemma HeapPushEffect(w: WorkerId, p: Worker, r: Ctx, request: Request, clock: int)
    requires p.pc.Busy? && p.pc.task.HeapPush?
    ensures var e := Work(w, p, r, request, clock);
            && FieldsOf(e.r) == FieldsOf(r) && e.heap == p.heap + multiset{p.pc.c}
            && !e.toRun && !e.toPool && e.next == Free(Top)
  {}

  lemma UnheapEffect(w: WorkerId, p: Worker, r: Ctx, request: Request, clock: int)
    requires p.pc.Busy? && p.pc.task.Unheap?
    ensures var e := Work(w, p, r, request, clock);
            && FieldsOf(e.r) == FieldsOf(r) && e.heap == p.heap - multiset{p.pc.c}
            && !e.toRun && !e.toPool && e.next == Busy(p.pc.c, RemoveCas(p.pc.task.now))
  {}

  lemma TimeoutEffect(w: WorkerId, p: Worker, r: Ctx, request: Request, clock: int)
    requires p.pc.Busy? && p.pc.task.TimeoutCas?
    ensures var e, o := Work(w, p, r, request, clock), Attempt(Op.SleepTimeout, r.status);
            && StoreOnly(p, e) && FieldsOf(e.r) == FieldsOf(r).(status := StatusAfter(o, r.status))
            && e.next == if ResultOf(o) == 0 then Busy(p.pc.c, SetBreak(p.pc.task.back, false)) else Free(p.pc.task.back)
  {}

  lemma PushEffect(w: WorkerId, p: Worker, r: Ctx, request: Request, clock: int)
    requires p.pc.Busy? && p.pc.task.Push?
    ensures var e := Work(w, p, r, request, clock);
            && FieldsOf(e.r) == FieldsOf(r) && e.heap == p.heap && e.toRun && !e.toPool && e.next == Free(p.pc.task.back)
  {}

  lemma RemoveEffect(w: WorkerId, p: Worker, r: Ctx, request: Request, clock: int)
    requires p.pc.Busy? && p.pc.task.RemoveCas? && r.status == SleepSetRemove
    ensures var e := Work(w, p, r, request, clock);
            && StoreOnly(p, e) && FieldsOf(e.r) == FieldsOf(r).(status := Ready)
            && e.next == Busy(p.pc.c, SetBreak(Drain(p.pc.task.now), true))
  {}

  lemma RecycleEffect(w: WorkerId, p: Worker, r: Ctx, request: Request, clock: int)
    requires p.pc.Busy? && p.pc.task.Recycling?
    ensures var e := Work(w, p, r, request, clock);
            && FieldsOf(e.r) == FieldsOf(r) && e.heap == p.heap && !e.toRun && e.toPool && e.next == Free(Top)
  {}

  lemma ProceedIsPut(m: State, w: WorkerId, c: CtxId, request: Request, clock: int)
    requires Typed(m) && w < |m.workers| && c < |m.ctx| && m.workers[w].pc.Busy? && m.workers[w].pc.c == c
    ensures Can(m, Proceed(w, request, clock))
    ensures Next(m, Proceed(w, request, clock)) == Put(m, w, Work(w, m.workers[w], m.ctx[c], request, clock))
  {}

  lemma PutAt(m: State, w: WorkerId, e: Effect)
    requires w < |m.workers| && m.workers[w].pc.Busy? && m.workers[w].pc.c < |m.ctx|
    ensures var t, c := Put(m, w, e), m.workers[w].pc.c;
            && |t.workers| == |m.workers| && |t.ctx| == |m.ctx|
            && t.workers[w].pc == e.next && t.workers[w].heap == e.heap && t.ctx[c] == e.r
  {}

  lemma WrittenByResume(x: Variables, m: State, a: Action)
    requires Coupled(x, m) && Typed(m) && a.ResumeCas? && Enabled(m, a)
    ensures Coupled(x.(ctx := x.ctx[a.c := FieldsOf(Resumed(m.ctx[a.c]))]), Apply(m, a))
  {}

  lemma ResumeCounts(m: State, a: Action)
    requires Typed(m) && a.ResumeCas? && Enabled(m, a)
    ensures var t, res := Apply(m, a), ResultOf(Attempt(Resume, m.ctx[a.c].status));
            && t.carried == (if res == 0 then m.carried + multiset{a.c} else m.carried)
            && t.asked == (if res == 4 then m.asked + multiset{a.c} else m.asked)
            && |t.ctx| == |m.ctx| && t.ctx[a.c].tid == m.ctx[a.c].tid
            && (res == 0 ==> a.c in t.carried) && (res == 4 ==> a.c in t.asked)
  {}

  lemma WrittenByPush(x: Variables, m: State, a: Action)
    requires Coupled(x, m) && Typed(m) && a.ResumePush? && Enabled(m, a)
    ensures Coupled(x.(ctxQue := x.ctxQue + [a.c]), Apply(m, a))
  {}

  lemma WrittenByFile(x: Variables, m: State, a: Action, w: WorkerId)
    requires Coupled(x, m) && Typed(m) && a.ResumeFile? && Enabled(m, a) && w == m.ctx[a.c].tid
    ensures Coupled(x.(timeRemove := x.timeRemove[w := x.timeRemove[w] + [a.c]]), Apply(m, a))
  {}

  lemma WrittenByDrain(x: Variables, m: State, a: Action)
    requires Coupled(x, m) && Typed(m) && a.DrainPop? && Enabled(m, a)
    requires x.timeRemove[a.w] != [] && x.timeRemove[a.w][0] == a.c
    ensures Coupled(x.(timeRemove := x.timeRemove[a.w := x.timeRemove[a.w][1..]]), Apply(m, a))
  {
    PopFront(x.timeRemove[a.w]);
  }

  lemma WrittenByExpire(x: Variables, m: State, a: Action)
    requires Coupled(x, m) && Typed(m) && a.ExpirePop? && Enabled(m, a)
    ensures Coupled(x.(timeWait := x.timeWait[a.w := x.timeWait[a.w] - multiset{a.c}]), Apply(m, a))
  {}

  lemma WrittenByRun(x: Variables, m: State, a: Action)
    requires Coupled(x, m) && Typed(m) && a.PopRun? && Enabled(m, a)
    requires x.ctxQue != [] && x.ctxQue[0] == a.c
    ensures Coupled(x.(ctxQue := x.ctxQue[1..]), Apply(m, a))
  {
    PopFront(x.ctxQue);
  }

  lemma WrittenByNew(x: Variables, m: State, a: Action)
    requires Coupled(x, m) && Typed(m) && a.CreateNew? && Enabled(m, a)
    ensures Coupled(x.(ctx := x.ctx + [FieldsOf(NewCtx())]), Apply(m, a))
  {}

  lemma WrittenByReuse(x: Variables, m: State, a: Action)
    requires Coupled(x, m) && Typed(m) && a.CreateFromPool? && Enabled(m, a)
    requires x.ctxBuf != [] && x.ctxBuf[0] == a.c
    ensures Coupled(x.(ctxBuf := x.ctxBuf[1..]), Apply(m, a))
  {
    PopFront(x.ctxBuf);
  }

  lemma WrittenByNothing(x: Variables, m: State, a: Action)
    requires Coupled(x, m) && Typed(m) && Enabled(m, a)
    requires a.ReadClock? || a.DrainEnd? || a.ExpireEnd? || a.PopNothing?
    ensures Coupled(x, Apply(m, a))
  {}

  /** Where the thread that executes a method stands; other threads cannot move it. */
  datatype Slot =
    | Anywhere
    | Handle(c: CtxId)                          // holds a handle of a context that has not ended
    | AtPush(c: CtxId)                          // in dco_resume, before the push on the run queue
    | AtFile(c: CtxId)                          // in dco_resume, before the push on time_remove_
    | AtTask(w: WorkerId, c: CtxId, task: Task) // a worker with a context in hand
    | AtLoop(w: WorkerId, at: Loop)             // a worker between contexts

  ghost predicate Stands(m: State, slot: Slot) {
    match slot
    case Anywhere => true
    case Handle(c) => c < |m.ctx| && m.ctx[c].live
    case AtPush(c) => c in m.carried
    case AtFile(c) => c in m.asked
    case AtTask(w, c, task) => w < |m.workers| && c < |m.ctx| && m.workers[w].pc == Busy(c, task)
    case AtLoop(w, at) => At(m, w, at)
  }

  type Turns = seq<Turn<Slot, Action>>

  ghost predicate OthersRan(s: State, t: State, slot: Slot) {
    Meanwhile(Sys(), Stands, s, t, slot)
  }

  /** A run from `s` to `t` in which the thread takes exactly the steps `turns`. */
  ghost predicate Ran(s: State, turns: Turns, t: State) {
    Path(Sys(), Stands, s, turns, t)
  }

  /** A run that ends with others at work while the thread is at `slot`. */
  ghost predicate Paused(s: State, turns: Turns, t: State, slot: Slot) {
    exists m :: Ran(s, turns, m) && OthersRan(m, t, slot)
  }

  lemma Join(s: State, xs: Turns, m: State, ys: Turns, t: State)
    requires Ran(s, xs, m) && Ran(m, ys, t)
    ensures Ran(s, xs + ys, t)
  {
    Chain(Sys(), Stands, s, xs, m, ys, t);
  }

  lemma JoinPair(s: State, x: Turn<Slot, Action>, m: State, y: Turn<Slot, Action>, t: State)
    requires Ran(s, [x], m) && Ran(m, [y], t)
    ensures Ran(s, [x, y], t)
  {
    Join(s, [x], m, [y], t);
    assert [x] + [y] == [x, y];
  }

  lemma RanNothing(s: State)
    ensures Ran(s, [], s)
  {}

  lemma StepKeepsKept(s: State, m: State, a: Action, w: WorkerId, c: CtxId, task: Task)
    requires Inv(m) && HandKept(s, m, w, c) && Can(m, a)
    requires Stands(m, AtTask(w, c, task)) && Stands(Next(m, a), AtTask(w, c, task))
    ensures Inv(Next(m, a)) && HandKept(s, Next(m, a), w, c)
  {
    ActionPreserves(m, a);
    StepKeepsHand(m, a, w, c);
  }

  /** Others leave a context alone that a worker has in hand. */
  lemma OthersKeepHand(s: State, t: State, w: WorkerId, c: CtxId, task: Task)
    requires Reachable(s) && OthersRan(s, t, AtTask(w, c, task))
    ensures HandKept(s, t, w, c)
  {
    ReachableInv(s);
    var slot := AtTask(w, c, task);
    var acts :| Passes(Sys(), Stands, s, acts, t, slot);
    PassesStands(Sys(), Stands, s, acts, t, slot);
    var inv := m => Inv(m) && HandKept(s, m, w, c);
    forall m, a | inv(m) && Stands(m, slot) && Sys().enabled(m, a) && Stands(Sys().next(m, a), slot)
      ensures inv(Sys().next(m, a))
    {
      StepKeepsKept(s, m, a, w, c, task);
    }
    MeanwhileInvariant(Sys(), Stands, inv, s, t, slot);
  }

  // ---- the steps of the operations -------------------------------------------------------

  /** The next step with a context in hand. */
  function Do(w: WorkerId, c: CtxId, task: Task, request: Request, clock: int): Turn<Slot, Action> {
    Turn(AtTask(w, c, task), Proceed(w, request, clock))
  }

  function Plain(w: WorkerId, c: CtxId, task: Task): Turn<Slot, Action> {
    Do(w, c, task, DoYield, 0)
  }

  /** `dco_resume` after its compare-exchange. */
  function DeliverTurns(c: CtxId, res: int): Turns {
    if res == 0 then [Turn(AtPush(c), ResumePush(c))]
    else if res == 4 then [Turn(AtFile(c), ResumeFile(c))]
    else []
  }

  /** The end of a coroutine: its last step, the reset, the push on the buffer. */
  function EndTurns(w: WorkerId, c: CtxId): Turns {
    [Do(w, c, Running, DoEnd, 0), Plain(w, c, Ending)]
  }

  function FinishTurns(w: WorkerId, c: CtxId): Turns {
    EndTurns(w, c) + [Plain(w, c, Recycling)]
  }

  lemma JoinFinish(s: State, w: WorkerId, c: CtxId, m: State, t: State)
    requires Ran(s, EndTurns(w, c), m) && Ran(m, [Plain(w, c, Recycling)], t)
    ensures Ran(s, FinishTurns(w, c), t)
  {
    Join(s, EndTurns(w, c), m, [Plain(w, c, Recycling)], t);
  }

  function WakeTurns(w: WorkerId, c: CtxId, back: Loop, interrupted: bool): Turns {
    [Plain(w, c, SetBreak(back, interrupted)), Plain(w, c, Push(back))]
  }

  function TimeoutTurns(w: WorkerId, c: CtxId, back: Loop, clock: int, res: int): Turns {
    [Plain(w, c, TimeoutCas(back, clock))] + if res == 0 then WakeTurns(w, c, back, false) else []
  }

  function RemoveTurns(w: WorkerId, c: CtxId, now: int): Turns {
    [Plain(w, c, RemoveCas(now))] + WakeTurns(w, c, Drain(now), true)
  }

  /** How `dco_sleep_add` ends: a resume was first; the heap keeps the context; the deadline had
      passed; it had passed but a resume was first and will have the context removed. */
  datatype Added = WokenFirst | Armed | TimedOut | Overtaken

  function AddTurns(w: WorkerId, c: CtxId, clock: int, added: Added): Turns {
    [Plain(w, c, Add)] +
    match added
    case WokenFirst => [Plain(w, c, Push(Top))]
    case Armed => [Do(w, c, AddCheck, DoYield, clock), Plain(w, c, HeapPush)]
    case TimedOut => [Do(w, c, AddCheck, DoYield, clock)] + TimeoutTurns(w, c, Top, clock, 0)
    case Overtaken => [Do(w, c, AddCheck, DoYield, clock)] + TimeoutTurns(w, c, Top, clock, -1)
  }

  function SwitchTurns(w: WorkerId, c: CtxId, clock: int, res: int, added: Added): Turns {
    [Plain(w, c, Switching)] +
    if res == 0 then [Plain(w, c, Push(Top))] else if res == 2 then AddTurns(w, c, clock, added) else []
  }

  class CoSchedule {
    var ctx: seq<Fields>
    var ctxQue: seq<CtxId>               // ctx_que_
    var ctxBuf: seq<CtxId>               // ctx_buf_
    var timeRemove: seq<seq<CtxId>>      // time_remove_ of each worker
    var timeWait: seq<multiset<CtxId>>   // time_wait_ of each worker
    /** The state of the transition system: the variables, where each thread is, and the history. */
    ghost var model: State
    /** No other thread does anything: then the effect of `DcoResume` can be stated outright. */
    ghost const alone: bool

    ghost function Now(): Variables
      reads this
    {
      Variables(ctx, ctxQue, ctxBuf, timeRemove, timeWait)
    }

    ghost predicate Valid()
      reads this
    {
      Reachable(model) && Typed(model) && Coupled(Now(), model)
    }

    ghost predicate Has(slot: Slot)
      reads this
    {
      Stands(model, slot)
    }

    /** `c` is the last that was pushed on the run queue. */
    ghost predicate LastQueued(c: CtxId)
      reads this
    {
      c < |ctx| && ctxQue != [] && ctxQue[|ctxQue| - 1] == c
    }

    /** `size` workers at the top of their loop and no context yet. */
    constructor (size: nat, ghost alone: bool)
      ensures Valid() && this.alone == alone && Initial(model) && |model.workers| == size
    {
      this.alone := alone;
      ctx, ctxQue, ctxBuf := [], [], [];
      timeRemove, timeWait := seq(size, i => []), seq(size, i => multiset{});
      model := State([], seq(size, i => Worker(Free(Top), multiset{}, multiset{})),
                     multiset{}, multiset{}, multiset{}, multiset{});
      new;
      LeadsNowhere(Sys(), model);
    }

    /** Any steps of other threads while this one stands at `slot`. */
    method Others(ghost slot: Slot)
      requires Valid() && Has(slot)
      modifies this
      ensures Valid() && Has(slot) && OthersRan(old(model), model, slot)
    {
      NothingHappens(Sys(), Stands, model, slot);
    }

    /** The same for a method that also states its effect when nobody interferes. */
    method OthersUnlessAlone(ghost slot: Slot)
      requires Valid() && Has(slot)
      modifies this
      ensures Valid() && Has(slot) && OthersRan(old(model), model, slot)
      ensures alone ==> model == old(model) && Now() == old(Now())
    {
      NothingHappens(Sys(), Stands, model, slot);
    }

    /** The step `a`, after others have led from `s` to the present state. */
    ghost method Take(s: State, slot: Slot, a: Action)
      requires Reachable(model) && Can(model, a) && OthersRan(s, model, slot)
      modifies this`model
      ensures Reachable(model) && Typed(model) && model == Apply(old(model), a)
      ensures Ran(s, [Turn(slot, a)], model)
    {
      ReachableStep(model, a);
      OneTurn(Sys(), Stands, s, model, Turn(slot, a));
      model := Apply(model, a);
    }

    ghost method TakeProceed(s: State, w: WorkerId, c: CtxId, task: Task, request: Request, clock: int)
      requires Reachable(model) && Typed(model) && Has(AtTask(w, c, task)) && OthersRan(s, model, AtTask(w, c, task))
      modifies this`model
      ensures Reachable(model) && Typed(model) && w < |old(model).workers| && c < |old(model).ctx|
      ensures model == Put(old(model), w, Work(w, old(model).workers[w], old(model).ctx[c], request, clock))
      ensures Ran(s, [Do(w, c, task, request, clock)], model)
    {
      ProceedIsPut(model, w, c, request, clock);
      ReachableStep(model, Proceed(w, request, clock));
      OneTurn(Sys(), Stands, s, model, Do(w, c, task, request, clock));
      model := Put(model, w, Work(w, model.workers[w], model.ctx[c], request, clock));
    }

    /** The next step with the context in hand: it has been executed on the variables, which were `x`
        when the others had led from `s` to the present state. */
    ghost method Perform(s: State, x: Variables, w: WorkerId, c: CtxId, task: Task, request: Request, clock: int)
      requires Reachable(model) && Typed(model) && Coupled(x, model)
      requires Has(AtTask(w, c, task)) && OthersRan(s, model, AtTask(w, c, task))
      requires Now() == Written(x, w, c, Work(w, model.workers[w], model.ctx[c], request, clock))
      modifies this`model
      ensures Valid() && w < |model.workers| && c < |model.ctx|
      ensures var e := Work(w, old(model).workers[w], old(model).ctx[c], request, clock);
              model.workers[w].pc == e.next && model.workers[w].heap == e.heap && model.ctx[c] == e.r
      ensures Ran(s, [Do(w, c, task, request, clock)], model)
    {
      var e := Work(w, model.workers[w], model.ctx[c], request, clock);
      WrittenIsPut(x, model, w, c, e);
      PutAt(model, w, e);
      TakeProceed(s, w, c, task, request, clock);
    }

    /** The same for a step that only writes fields of the context. */
    ghost method PerformStore(s: State, x: Variables, w: WorkerId, c: CtxId, task: Task, request: Request, clock: int)
      requires Reachable(model) && Typed(model) && Coupled(x, model)
      requires Has(AtTask(w, c, task)) && OthersRan(s, model, AtTask(w, c, task))
      requires var e := Work(w, model.workers[w], model.ctx[c], request, clock);
               && StoreOnly(model.workers[w], e)
               && c < |x.ctx| && Now() == x.(ctx := x.ctx[c := FieldsOf(e.r)])
      modifies this`model
      ensures Valid() && w < |model.workers| && c < |model.ctx|
      ensures var e := Work(w, old(model).workers[w], old(model).ctx[c], request, clock);
              model.workers[w].pc == e.next && model.workers[w].heap == e.heap && model.ctx[c] == e.r
      ensures Ran(s, [Do(w, c, task, request, clock)], model)
    {
      WrittenStore(x, model, w, c, Work(w, model.workers[w], model.ctx[c], request, clock));
      Perform(s, x, w, c, task, request, clock);
    }

    ghost method StepResume(s: State, x: Variables, a: Action)
      requires Reachable(model) && Typed(model) && Coupled(x, model) && a.ResumeCas? && Enabled(model, a)
      requires OthersRan(s, model, Handle(a.c))
      requires a.c < |x.ctx| && Now() == x.(ctx := x.ctx[a.c := FieldsOf(Resumed(model.ctx[a.c]))])
      modifies this`model
      ensures Valid() && model == Apply(old(model), a) && Ran(s, [Turn(Handle(a.c), a)], model)
      ensures var res := ResultOf(Attempt(Resume, old(model).ctx[a.c].status));
              && model.carried == (if res == 0 then old(model.carried) + multiset{a.c} else old(model.carried))
              && model.asked == (if res == 4 then old(model.asked) + multiset{a.c} else old(model.asked))
      ensures |model.ctx| == old(|model.ctx|) && model.ctx[a.c].tid == old(model.ctx[a.c].tid)
      ensures ResultOf(Attempt(Resume, old(model).ctx[a.c].status)) == 0 ==> Has(AtPush(a.c))
      ensures ResultOf(Attempt(Resume, old(model).ctx[a.c].status)) == 4 ==> Has(AtFile(a.c))
    {
      WrittenByResume(x, model, a);
      ResumeCounts(model, a);
      Take(s, Handle(a.c), a);
    }

    ghost method StepPush(s: State, x: Variables, a: Action)
      requires Reachable(model) && Typed(model) && Coupled(x, model) && a.ResumePush? && Enabled(model, a)
      requires OthersRan(s, model, AtPush(a.c))
      requires Now() == x.(ctxQue := x.ctxQue + [a.c])
      modifies this`model
      ensures Valid() && Ran(s, [Turn(AtPush(a.c), a)], model)
      ensures model.carried == old(model.carried) - multiset{a.c} && model.asked == old(model.asked)
    {
      WrittenByPush(x, model, a);
      Take(s, AtPush(a.c), a);
    }

    ghost method StepFile(s: State, x: Variables, a: Action, w: WorkerId)
      requires Reachable(model) && Typed(model) && Coupled(x, model) && a.ResumeFile? && Enabled(model, a)
      requires OthersRan(s, model, AtFile(a.c))
      requires w == model.ctx[a.c].tid && w < |x.timeRemove|
      requires Now() == x.(timeRemove := x.timeRemove[w := x.timeRemove[w] + [a.c]])
      modifies this`model
      ensures Valid() && Ran(s, [Turn(AtFile(a.c), a)], model)
      ensures model.asked == old(model.asked) - multiset{a.c} && model.carried == old(model.carried)
    {
      WrittenByFile(x, model, a, w);
      Take(s, AtFile(a.c), a);
    }

    ghost method StepDrain(s: State, x: Variables, a: Action, now: int)
      requires Reachable(model) && Typed(model) && Coupled(x, model) && a.DrainPop? && Enabled(model, a)
      requires At(model, a.w, Drain(now)) && OthersRan(s, model, AtLoop(a.w, Drain(now))) && a.w < |x.timeRemove|
      requires x.timeRemove[a.w] != [] && x.timeRemove[a.w][0] == a.c
      requires Now() == x.(timeRemove := x.timeRemove[a.w := x.timeRemove[a.w][1..]])
      modifies this`model
      ensures Valid() && Has(AtTask(a.w, a.c, Unheap(now))) && model == Next(old(model), a)
      ensures Ran(s, [Turn(AtLoop(a.w, Drain(now)), a)], model)
    {
      WrittenByDrain(x, model, a);
      Take(s, AtLoop(a.w, Drain(now)), a);
    }

    ghost method StepExpire(s: State, x: Variables, a: Action, now: int)
      requires Reachable(model) && Typed(model) && Coupled(x, model) && a.ExpirePop? && Enabled(model, a)
      requires At(model, a.w, Expire(now)) && OthersRan(s, model, AtLoop(a.w, Expire(now))) && a.w < |x.timeWait|
      requires Now() == x.(timeWait := x.timeWait[a.w := x.timeWait[a.w] - multiset{a.c}])
      modifies this`model
      ensures Valid() && Has(AtTask(a.w, a.c, TimeoutCas(Expire(now), now)))
      ensures model.workers[a.w].heap == timeWait[a.w]
      ensures Ran(s, [Turn(AtLoop(a.w, Expire(now)), a)], model)
    {
      WrittenByExpire(x, model, a);
      Take(s, AtLoop(a.w, Expire(now)), a);
    }

    ghost method StepRun(s: State, x: Variables, a: Action)
      requires Reachable(model) && Typed(model) && Coupled(x, model) && a.PopRun? && Enabled(model, a)
      requires OthersRan(s, model, AtLoop(a.w, Pop))
      requires x.ctxQue != [] && x.ctxQue[0] == a.c && Now() == x.(ctxQue := x.ctxQue[1..])
      modifies this`model
      ensures Valid() && Has(AtTask(a.w, a.c, Popped)) && Ran(s, [Turn(AtLoop(a.w, Pop), a)], model)
      ensures model == Next(old(model), a)
    {
      WrittenByRun(x, model, a);
      Take(s, AtLoop(a.w, Pop), a);
    }

    ghost method StepNew(s: State, x: Variables, a: Action)
      requires Reachable(model) && Typed(model) && Coupled(x, model) && a.CreateNew? && Enabled(model, a)
      requires OthersRan(s, model, Anywhere) && Now() == x.(ctx := x.ctx + [FieldsOf(NewCtx())])
      modifies this`model
      ensures Valid() && Has(Handle(|x.ctx|)) && model.ctx[|x.ctx|].owner.Parked?
      ensures Ran(s, [Turn(Anywhere, a)], model) && model == Next(old(model), a)
    {
      WrittenByNew(x, model, a);
      Take(s, Anywhere, a);
    }

    ghost method StepReuse(s: State, x: Variables, a: Action)
      requires Reachable(model) && Typed(model) && Coupled(x, model) && a.CreateFromPool? && Enabled(model, a)
      requires OthersRan(s, model, Anywhere)
      requires x.ctxBuf != [] && x.ctxBuf[0] == a.c && Now() == x.(ctxBuf := x.ctxBuf[1..])
      modifies this`model
      ensures Valid() && Has(Handle(a.c)) && model.ctx[a.c].owner.Parked? && model.ctx[a.c].status == YieldSet
      ensures Ran(s, [Turn(Anywhere, a)], model) && model == Next(old(model), a)
    {
      PooledIsReset(model, a.c);
      WrittenByReuse(x, model, a);
      Take(s, Anywhere, a);
    }

    // ---- dco_create and the end of a coroutine -------------------------------------------

    /** `dco_create`: a recycled context or a new one, parked and ready for its first resume; whether the
        buffer holds one is decided in the state `at`. */
    method DcoCreate() returns (c: CtxId, ghost reused: bool, ghost at: State)
      requires Valid()
      modifies this
      ensures Valid() && Has(Handle(c)) && c < |ctx| && ctx[c].status == YieldSet && model.ctx[c].owner.Parked?
      ensures Ran(old(model), [Turn(Anywhere, if reused then CreateFromPool(c) else CreateNew)], model)
      ensures OthersRan(old(model), at, Anywhere) && (reused <==> at.pool != multiset{})
      ensures model == Next(at, if reused then CreateFromPool(c) else CreateNew)
      ensures !reused ==> c == |ctx| - 1 && ctx[c].timeout == 0 && !ctx[c].interrupted
      ensures alone ==> (reused <==> old(ctxBuf) != [])
      ensures alone && reused ==> c == old(ctxBuf)[0] && Now() == old(Now()).(ctxBuf := old(ctxBuf)[1..])
      ensures alone && !reused ==> Now() == old(Now()).(ctx := old(ctx) + [ctx[c]])
    {
      ghost var s := model;
      OthersUnlessAlone(Anywhere);
      at := model;
      c, reused := CreateNow(s);
    }

    method CreateNow(ghost s: State) returns (c: CtxId, ghost reused: bool)
      requires Valid() && OthersRan(s, model, Anywhere)
      modifies this`ctx, this`ctxBuf, this`model
      ensures Valid() && Has(Handle(c)) && c < |ctx| && ctx[c].status == YieldSet && model.ctx[c].owner.Parked?
      ensures Ran(s, [Turn(Anywhere, if reused then CreateFromPool(c) else CreateNew)], model)
      ensures model == Next(old(model), if reused then CreateFromPool(c) else CreateNew)
      ensures (reused <==> old(ctxBuf) != []) && (reused <==> old(model).pool != multiset{})
      ensures reused ==> c == old(ctxBuf)[0] && ctxBuf == old(ctxBuf)[1..] && ctx == old(ctx)
      ensures !reused ==> c == |ctx| - 1 && ctx[c].timeout == 0 && !ctx[c].interrupted
      ensures !reused ==> ctx == old(ctx) + [ctx[c]] && ctxBuf == old(ctxBuf)
    {
      if ctxBuf == [] {
        c := NewContext(s);
        reused := false;
      } else {
        c := ReuseContext(s);
        reused := true;
      }
    }

    method NewContext(ghost s: State) returns (c: CtxId)
      requires Valid() && OthersRan(s, model, Anywhere)
      modifies this`ctx, this`model
      ensures Valid() && Has(Handle(c)) && c == |ctx| - 1 && ctx[c].status == YieldSet && model.ctx[c].owner.Parked?
      ensures ctx == old(ctx) + [ctx[c]] && ctx[c].timeout == 0 && !ctx[c].interrupted
      ensures Ran(s, [Turn(Anywhere, CreateNew)], model) && model == Next(old(model), CreateNew)
    {
      ghost var x := Now();
      c := |ctx|;
      ctx := ctx + [Fields(YieldSet, 0, 0, false)];
      StepNew(s, x, CreateNew);
    }

    method ReuseContext(ghost s: State) returns (c: CtxId)
      requires Valid() && OthersRan(s, model, Anywhere) && ctxBuf != []
      modifies this`ctxBuf, this`model
      ensures Valid() && Has(Handle(c)) && c < |ctx| && ctx[c].status == YieldSet && model.ctx[c].owner.Parked?
      ensures c == old(ctxBuf)[0] && ctxBuf == old(ctxBuf)[1..]
      ensures Ran(s, [Turn(Anywhere, CreateFromPool(c))], model) && model == Next(old(model), CreateFromPool(c))
    {
      ghost var x := Now();
      c := ctxBuf[0];
      PopFront(ctxBuf);
      ctxBuf := ctxBuf[1..];
      StepReuse(s, x, CreateFromPool(c));
    }

    /** `end_` is set: reset, outside all timer heaps, and recycle. */
    method Finish(w: WorkerId, c: CtxId)
      requires Valid() && Has(AtTask(w, c, Running))
      modifies this
      ensures Valid() && Has(AtLoop(w, Top))
      ensures ctxBuf != [] && ctxBuf[|ctxBuf| - 1] == c && c < |ctx| && ctx[c].status == YieldSet
      ensures ctx[c].timeout == 0 && ctx[c].interrupted
      ensures Ran(old(model), FinishTurns(w, c), model)
    {
      ghost var s := model;
      EndAndReset(w, c);
      RecycleFinished(s, w, c);
    }

    /** The deadline and the interrupted flag of `c` are as `reset` leaves them. */
    ghost predicate WasReset(c: CtxId)
      reads this
    {
      c < |model.ctx| && model.ctx[c].timeout == 0 && model.ctx[c].interrupted
    }

    /** `c` is last in the buffer, and reset. */
    ghost predicate Recycled(c: CtxId)
      reads this
    {
      && ctxBuf != [] && ctxBuf[|ctxBuf| - 1] == c && c < |ctx| && ctx[c].status == YieldSet
      && ctx[c].timeout == 0 && ctx[c].interrupted
    }

    method RecycleFinished(ghost s: State, w: WorkerId, c: CtxId)
      requires Valid() && Has(AtTask(w, c, Recycling))
      requires WasReset(c)
      requires Ran(s, EndTurns(w, c), model)
      modifies this
      ensures Valid() && Has(AtLoop(w, Top))
      ensures Recycled(c)
      ensures Ran(s, FinishTurns(w, c), model)
    {
      ghost var m := model;
      Recycle(w, c);
      JoinFinish(s, w, c, m, model);
    }

    method EndAndReset(w: WorkerId, c: CtxId)
      requires Valid() && Has(AtTask(w, c, Running))
      modifies this
      ensures Valid() && Has(AtTask(w, c, Recycling)) && WasReset(c)
      ensures Ran(old(model), EndTurns(w, c), model)
    {
      ghost var s := model;
      End(w, c);
      ghost var m := model;
      ResetContext(w, c);
      JoinPair(s, Do(w, c, Running, DoEnd, 0), m, Plain(w, c, Ending), model);
    }

    method End(w: WorkerId, c: CtxId)
      requires Valid() && Has(AtTask(w, c, Running))
      modifies this
      ensures Valid() && Has(AtTask(w, c, Ending))
      ensures Ran(old(model), [Do(w, c, Running, DoEnd, 0)], model)
    {
      ghost var s := model;
      Others(AtTask(w, c, Running));
      EndEffect(w, model.workers[w], model.ctx[c], DoEnd, 0);
      Perform(s, Now(), w, c, Running, DoEnd, 0);
    }

    method ResetContext(w: WorkerId, c: CtxId)
      requires Valid() && Has(AtTask(w, c, Ending))
      modifies this
      ensures Valid() && Has(AtTask(w, c, Recycling)) && WasReset(c)
      ensures Ran(old(model), [Plain(w, c, Ending)], model)
    {
      ghost var s := model;
      Others(AtTask(w, c, Ending));
      ResetNow(s, w, c);
    }

    method ResetNow(ghost s: State, w: WorkerId, c: CtxId)
      requires Valid() && Has(AtTask(w, c, Ending)) && OthersRan(s, model, AtTask(w, c, Ending))
      modifies this`ctx, this`model
      ensures Valid() && Has(AtTask(w, c, Recycling)) && WasReset(c)
      ensures Ran(s, [Plain(w, c, Ending)], model)
    {
      AssertionsHold(model, w);
      assert forall v :: 0 <= v < |timeWait| ==> c !in timeWait[v];
      ghost var x := Now();
      ctx := ctx[c := ctx[c].(status := YieldSet, timeout := 0, interrupted := true)];
      ResetEffect(w, model.workers[w], model.ctx[c], DoYield, 0);
      PerformStore(s, x, w, c, Ending, DoYield, 0);
    }

    method Recycle(w: WorkerId, c: CtxId)
      requires Valid() && Has(AtTask(w, c, Recycling))
      requires WasReset(c)
      modifies this
      ensures Valid() && Has(AtLoop(w, Top))
      ensures Recycled(c)
      ensures Ran(old(model), [Plain(w, c, Recycling)], model)
    {
      ghost var s := model;
      Others(AtTask(w, c, Recycling));
      OthersKeepHand(s, model, w, c, Recycling);
      RecycleNow(s, w, c);
    }

    method RecycleNow(ghost s: State, w: WorkerId, c: CtxId)
      requires Valid() && Has(AtTask(w, c, Recycling)) && OthersRan(s, model, AtTask(w, c, Recycling))
      requires WasReset(c)
      modifies this`ctxBuf, this`model
      ensures Valid() && Has(AtLoop(w, Top))
      ensures Recycled(c)
      ensures Ran(s, [Plain(w, c, Recycling)], model)
    {
      RecycledIsReset(model, w, c);
      ghost var x := Now();
      ctxBuf := ctxBuf + [c];
      RecycleEffect(w, model.workers[w], model.ctx[c], DoYield, 0);
      Perform(s, x, w, c, Recycling, DoYield, 0);
    }

    // ---- dco_resume ----------------------------------------------------------------------

    /** `dco_resume`: decided in the state `at`, where the compare-exchange succeeds or the table
        refuses; 0 queues the context, 4 hands it to the worker that keeps it. */
    method DcoResume(c: CtxId) returns (res: int, ghost at: State)
      requires Valid() && Has(Handle(c))
      modifies this
      ensures Valid()
      ensures OthersRan(old(model), at, Handle(c)) && Can(at, ResumeCas(c))
      ensures match at.ctx[c].status
              case YieldSet => res == 0 && Leaves(at, c, Ready)
              case YieldReset => res == 1 && Leaves(at, c, YieldBreak)
              case SleepReset => res == 2 && Leaves(at, c, SleepBreak)
              case SleepSet => res == 3 && Leaves(at, c, SleepSetBreak)
              case SleepSetSet => res == 4 && Leaves(at, c, SleepSetRemove)
              case _ => res == -1 && Leaves(at, c, at.ctx[c].status)
      ensures Ran(Apply(at, ResumeCas(c)), DeliverTurns(c, res), model)
      ensures Ran(old(model), [Turn(Handle(c), ResumeCas(c))] + DeliverTurns(c, res), model)
      ensures res == 0 ==> LastQueued(c)
      ensures alone ==> at == old(model) && StatusOnly(c, Resume, old(ctx))
      ensures alone ==> model.carried == old(model.carried) && model.asked == old(model.asked)
      ensures alone ==> ctxQue == if res == 0 then old(ctxQue) + [c] else old(ctxQue)
      ensures alone ==> Filed(res == 4, c, old(ctx)[c].tid, old(timeRemove))
      ensures alone ==> ctxBuf == old(ctxBuf) && timeWait == old(timeWait)
    {
      ghost var s := model;
      res, at := TryResume(c);
      ghost var m := model;
      Deliver(c, res);
      Join(s, [Turn(Handle(c), ResumeCas(c))], m, DeliverTurns(c, res), model);
      PutAndTake(old(model).carried, c);
      PutAndTake(old(model).asked, c);
    }

    /** What a successful resume does with the context. */
    method Deliver(c: CtxId, res: int)
      requires Valid() && (res == 0 ==> Has(AtPush(c))) && (res == 4 ==> Has(AtFile(c)))
      modifies this
      ensures Valid() && Ran(old(model), DeliverTurns(c, res), model)
      ensures res == 0 ==> LastQueued(c)
      ensures alone && res == 0 ==> Now() == old(Now()).(ctxQue := old(ctxQue) + [c])
      ensures alone && res == 4 ==>
                Now() == old(Now()).(timeRemove := timeRemove) && c < |ctx| && Filed(true, c, ctx[c].tid, old(timeRemove))
      ensures alone && res != 0 && res != 4 ==> Now() == old(Now())
      ensures alone ==> model.carried == if res == 0 then old(model.carried) - multiset{c} else old(model.carried)
      ensures alone ==> model.asked == if res == 4 then old(model.asked) - multiset{c} else old(model.asked)
    {
      if res == 0 {
        PushResumed(c);
      } else if res == 4 {
        FileResumed(c);
      } else {
        RanNothing(model);
      }
    }

    /** Of all context fields only the status of `c` has changed, as `op` decides. */
    ghost predicate StatusOnly(c: CtxId, op: Op, was: seq<Fields>)
      requires c < |was|
      reads this
    {
      ctx == was[c := was[c].(status := StatusAfter(Attempt(op, was[c].status), was[c].status))]
    }

    /** `c` has been appended to `time_remove_` of worker `w`, or nothing has. */
    ghost predicate Filed(yes: bool, c: CtxId, w: WorkerId, was: seq<seq<CtxId>>)
      reads this
    {
      if yes then w < |was| && timeRemove == was[w := was[w] + [c]] else timeRemove == was
    }

    method TryResume(c: CtxId) returns (res: int, ghost at: State)
      requires Valid() && Has(Handle(c))
      modifies this
      ensures Valid() && (res == 0 ==> Has(AtPush(c))) && (res == 4 ==> Has(AtFile(c)))
      ensures OthersRan(old(model), at, Handle(c)) && Can(at, ResumeCas(c)) && model == Apply(at, ResumeCas(c))
      ensures match at.ctx[c].status
              case YieldSet => res == 0 && Leaves(at, c, Ready)
              case YieldReset => res == 1 && Leaves(at, c, YieldBreak)
              case SleepReset => res == 2 && Leaves(at, c, SleepBreak)
              case SleepSet => res == 3 && Leaves(at, c, SleepSetBreak)
              case SleepSetSet => res == 4 && Leaves(at, c, SleepSetRemove)
              case _ => res == -1 && Leaves(at, c, at.ctx[c].status)
      ensures Ran(old(model), [Turn(Handle(c), ResumeCas(c))], model)
      ensures alone ==> at == old(model) && StatusOnly(c, Resume, old(ctx))
      ensures alone ==> model.carried == if res == 0 then old(model.carried) + multiset{c} else old(model.carried)
      ensures alone ==> model.asked == if res == 4 then old(model.asked) + multiset{c} else old(model.asked)
      ensures alone ==> Now() == old(Now()).(ctx := ctx)
    {
      ghost var s := model;
      OthersUnlessAlone(Handle(c));
      at := model;
      res := ResumeNow(s, c);
      ResumeOutcome(at, c, res);
    }

    method ResumeNow(ghost s: State, c: CtxId) returns (res: int)
      requires Valid() && Has(Handle(c)) && OthersRan(s, model, Handle(c))
      modifies this`ctx, this`model
      ensures Valid() && (res == 0 ==> Has(AtPush(c))) && (res == 4 ==> Has(AtFile(c)))
      ensures Can(old(model), ResumeCas(c)) && model == Apply(old(model), ResumeCas(c))
      ensures res == ResultOf(Attempt(Resume, old(model).ctx[c].status))
      ensures res == ResultOf(Attempt(Resume, old(ctx[c].status))) && StatusOnly(c, Resume, old(ctx))
      ensures Ran(s, [Turn(Handle(c), ResumeCas(c))], model)
      ensures model.carried == if res == 0 then old(model.carried) + multiset{c} else old(model.carried)
      ensures model.asked == if res == 4 then old(model.asked) + multiset{c} else old(model.asked)
    {
      ghost var x := Now();
      var st := ctx[c].status;
      res := ResultOf(Attempt(Resume, st));
      ctx := ctx[c := ctx[c].(status := StatusAfter(Attempt(Resume, st), st))];
      StepResume(s, x, ResumeCas(c));
    }

    method PushResumed(c: CtxId)
      requires Valid() && Has(AtPush(c))
      modifies this
      ensures Valid() && LastQueued(c)
      ensures Ran(old(model), [Turn(AtPush(c), ResumePush(c))], model)
      ensures alone ==> Now() == old(Now()).(ctxQue := old(ctxQue) + [c])
      ensures alone ==> model.carried == old(model.carried) - multiset{c} && model.asked == old(model.asked)
    {
      ghost var s := model;
      OthersUnlessAlone(AtPush(c));
      PushResumedNow(s, c);
    }

    method PushResumedNow(ghost s: State, c: CtxId)
      requires Valid() && Has(AtPush(c)) && OthersRan(s, model, AtPush(c))
      modifies this`ctxQue, this`model
      ensures Valid() && LastQueued(c) && ctxQue == old(ctxQue) + [c]
      ensures Ran(s, [Turn(AtPush(c), ResumePush(c))], model)
      ensures model.carried == old(model.carried) - multiset{c} && model.asked == old(model.asked)
    {
      ghost var x := Now();
      ctxQue := ctxQue + [c];
      StepPush(s, x, ResumePush(c));
    }

    method FileResumed(c: CtxId)
      requires Valid() && Has(AtFile(c))
      modifies this
      ensures Valid()
      ensures Ran(old(model), [Turn(AtFile(c), ResumeFile(c))], model)
      ensures alone ==> Now() == old(Now()).(timeRemove := timeRemove) && c < |ctx| && Filed(true, c, ctx[c].tid, old(timeRemove))
      ensures alone ==> model.asked == old(model.asked) - multiset{c} && model.carried == old(model.carried)
    {
      ghost var s := model;
      OthersUnlessAlone(AtFile(c));
      AskedHasWorker(model, c);
      FileResumedNow(s, c);
    }

    method FileResumedNow(ghost s: State, c: CtxId)
      requires Valid() && Has(AtFile(c)) && OthersRan(s, model, AtFile(c)) && c < |ctx| && ctx[c].tid < |timeRemove|
      modifies this`timeRemove, this`model
      ensures Valid() && Filed(true, c, ctx[c].tid, old(timeRemove))
      ensures Ran(s, [Turn(AtFile(c), ResumeFile(c))], model)
      ensures model.asked == old(model.asked) - multiset{c} && model.carried == old(model.carried)
    {
      ghost var x := Now();
      var w := ctx[c].tid;
      timeRemove := timeRemove[w := timeRemove[w] + [c]];
      StepFile(s, x, ResumeFile(c), w);
    }

    // ---- a coroutine suspends itself -----------------------------------------------------

    /** `dco_yield` up to the switch: it never fails in running code, so it will return 0. */
    method DcoYield(w: WorkerId, c: CtxId) returns (res: int)
      requires Valid() && Has(AtTask(w, c, Running))
      modifies this
      ensures Valid() && res == 0 && Has(AtTask(w, c, Switching)) && model.ctx[c].suspension.ByYield?
      ensures Ran(old(model), [Do(w, c, Running, DoYield, 0), Plain(w, c, Yielding)], model)
    {
      ghost var s := model;
      res := TrySuspend(w, c, Yield, DoYield);
      if res < 0 {
        return;
      }
      res := 0;
      ghost var m := model;
      LeaveStack(w, c);
      JoinPair(s, Do(w, c, Running, DoYield, 0), m, Plain(w, c, Yielding), model);
    }

    method LeaveStack(w: WorkerId, c: CtxId)
      requires Valid() && Has(AtTask(w, c, Yielding))
      modifies this
      ensures Valid() && Has(AtTask(w, c, Switching)) && model.ctx[c].suspension == old(model).ctx[c].suspension
      ensures Ran(old(model), [Plain(w, c, Yielding)], model)
    {
      ghost var s := model;
      Others(AtTask(w, c, Yielding));
      OthersKeepHand(s, model, w, c, Yielding);
      YieldEffect(w, model.workers[w], model.ctx[c], DoYield, 0);
      Perform(s, Now(), w, c, Yielding, DoYield, 0);
    }

    /** `dco_sleep_until` up to the switch; what it returns then is the subject of `SleepResultOf`. */
    method DcoSleepUntil(w: WorkerId, c: CtxId, until: int) returns (refused: bool)
      requires Valid() && Has(AtTask(w, c, Running))
      modifies this
      ensures Valid() && !refused && Has(AtTask(w, c, Switching)) && model.ctx[c].suspension.BySleep?
      ensures c < |ctx| && ctx[c].timeout == until && ctx[c].interrupted
      ensures Ran(old(model), [Do(w, c, Running, DoSleep(until), 0), Plain(w, c, Sleeping(until))], model)
    {
      ghost var s := model;
      var res := TrySuspend(w, c, Sleep, DoSleep(until));
      refused := res < 0;
      if refused {
        return;
      }
      ghost var m := model;
      SetTimeout(w, c, until);
      JoinPair(s, Do(w, c, Running, DoSleep(until), 0), m, Plain(w, c, Sleeping(until)), model);
    }

    method SetTimeout(w: WorkerId, c: CtxId, until: int)
      requires Valid() && Has(AtTask(w, c, Sleeping(until))) && model.ctx[c].suspension.BySleep?
      modifies this
      ensures Valid() && Has(AtTask(w, c, Switching)) && model.ctx[c].suspension.BySleep?
      ensures c < |ctx| && ctx[c].timeout == until && ctx[c].interrupted
      ensures Ran(old(model), [Plain(w, c, Sleeping(until))], model)
    {
      ghost var s := model;
      Others(AtTask(w, c, Sleeping(until)));
      OthersKeepHand(s, model, w, c, Sleeping(until));
      TimeoutFields(s, w, c, until);
    }

    method TimeoutFields(ghost s: State, w: WorkerId, c: CtxId, until: int)
      requires Valid() && Has(AtTask(w, c, Sleeping(until))) && OthersRan(s, model, AtTask(w, c, Sleeping(until)))
      modifies this`ctx, this`model
      ensures Valid() && Has(AtTask(w, c, Switching)) && model.ctx[c].suspension == old(model).ctx[c].suspension
      ensures c < |ctx| && ctx[c].timeout == until && ctx[c].interrupted
      ensures Ran(s, [Plain(w, c, Sleeping(until))], model)
    {
      ghost var x := Now();
      ctx := ctx[c := ctx[c].(timeout := until, interrupted := true)];
      PerformStore(s, x, w, c, Sleeping(until), DoYield, 0);
    }

    /** `try_yield_full` or `try_sleep_full` of the running context. */
    method TrySuspend(w: WorkerId, c: CtxId, op: Op, ghost request: Request) returns (res: int)
      requires Valid() && Has(AtTask(w, c, Running))
      requires (op == Yield && request.DoYield?) || (op == Sleep && request.DoSleep?)
      modifies this
      ensures Valid() && res >= 0
      ensures Has(AtTask(w, c, SuspendTask(request)))
      ensures c < |model.ctx| && model.ctx[c].suspension == if op == Yield then ByYield else BySleep
      ensures Ran(old(model), [Do(w, c, Running, request, 0)], model)
    {
      ghost var s := model;
      Others(AtTask(w, c, Running));
      res := SuspendNow(s, w, c, op, request);
    }

    method SuspendNow(ghost s: State, w: WorkerId, c: CtxId, op: Op, ghost request: Request) returns (res: int)
      requires (op == Yield && request.DoYield?) || (op == Sleep && request.DoSleep?)
      requires Valid() && Has(AtTask(w, c, Running)) && OthersRan(s, model, AtTask(w, c, Running))
      modifies this`ctx, this`model
      ensures Valid() && res >= 0
      ensures Has(AtTask(w, c, SuspendTask(request)))
      ensures c < |model.ctx| && model.ctx[c].suspension == if op == Yield then ByYield else BySleep
      ensures Ran(s, [Do(w, c, Running, request, 0)], model)
    {
      RunningCanSuspend(model, w, c);
      ghost var x := Now();
      var st := ctx[c].status;
      res := ResultOf(Attempt(op, st));
      ctx := ctx[c := ctx[c].(status := StatusAfter(Attempt(op, st), st))];
      SuspendEffect(w, model.workers[w], model.ctx[c], op, request, 0);
      PerformStore(s, x, w, c, Running, request, 0);
    }

    /** The end of `dco_sleep_until`, when the coroutine runs again: 0 exactly when a timeout won. */
    method SleepResultOf(w: WorkerId, c: CtxId) returns (res: int)
      requires Valid() && Has(AtTask(w, c, Running)) && model.ctx[c].suspension.BySleep?
      ensures res == 0 <==> model.ctx[c].wake.ByTimeout?
      ensures res == 1 <==> model.ctx[c].wake.ByResume?
      ensures model.ctx[c].wake.ByTimeout? ==> model.ctx[c].wake.clock >= ctx[c].timeout
    {
      SleepReturns(model, w);
      res := if ctx[c].interrupted then 1 else 0;
    }

    // ---- back on the worker --------------------------------------------------------------

    /** `in_dco_sw`: the status change, made in the state `at`, is never refused, and the worker comes back
        to its loop.  0: a resume came first and the context is queued; 1: it is parked; 2:
        `dco_sleep_add`. */
    method InDcoSw(w: WorkerId, c: CtxId, clock: int) returns (res: int, ghost added: Added, ghost at: State)
      requires Valid() && Has(AtTask(w, c, Switching))
      modifies this
      ensures Valid() && 0 <= res <= 2 && Has(AtLoop(w, Top))
      ensures Ran(old(model), SwitchTurns(w, c, clock, res, added), model)
      ensures res == 0 ==> LastQueued(c)
      ensures res == 2 ==> AddedAs(w, c, clock, added)
      ensures OthersRan(old(model), at, AtTask(w, c, Switching)) && c < |at.ctx|
      ensures match at.ctx[c].status
              case YieldReset => res == 1
              case SleepReset => res == 2
              case YieldBreak => res == 0
              case SleepBreak => res == 0
              case _ => false
    {
      ghost var s := model;
      added := WokenFirst;
      res, at := TrySwitch(w, c);
      ghost var m := model;
      if res == 0 {
        AddQue(w, c, Top);
        Join(s, [Plain(w, c, Switching)], m, [Plain(w, c, Push(Top))], model);
      } else if res == 2 {
        ghost var started;
        added, started := SleepAdd(w, c, clock);
        Join(s, [Plain(w, c, Switching)], m, AddTurns(w, c, clock, added), model);
      } else {
        assert [Plain(w, c, Switching)] + [] == [Plain(w, c, Switching)];
      }
    }

    method TrySwitch(w: WorkerId, c: CtxId) returns (res: int, ghost at: State)
      requires Valid() && Has(AtTask(w, c, Switching))
      modifies this
      ensures OthersRan(old(model), at, AtTask(w, c, Switching)) && c < |at.ctx|
      ensures match at.ctx[c].status
              case YieldReset => res == 1
              case SleepReset => res == 2
              case YieldBreak => res == 0
              case SleepBreak => res == 0
              case _ => false
      ensures Valid() && 0 <= res <= 2
      ensures Has(if res == 0 then AtTask(w, c, Push(Top)) else if res == 2 then AtTask(w, c, Add) else AtLoop(w, Top))
      ensures Ran(old(model), [Plain(w, c, Switching)], model)
    {
      ghost var s := model;
      Others(AtTask(w, c, Switching));
      at := model;
      res := SwitchNow(s, w, c);
    }

    method SwitchNow(ghost s: State, w: WorkerId, c: CtxId) returns (res: int)
      requires Valid() && Has(AtTask(w, c, Switching)) && OthersRan(s, model, AtTask(w, c, Switching))
      modifies this`ctx, this`model
      ensures Valid() && 0 <= res <= 2
      ensures match old(model).ctx[c].status
              case YieldReset => res == 1
              case SleepReset => res == 2
              case YieldBreak => res == 0
              case SleepBreak => res == 0
              case _ => false
      ensures Has(if res == 0 then AtTask(w, c, Push(Top)) else if res == 2 then AtTask(w, c, Add) else AtLoop(w, Top))
      ensures Ran(s, [Plain(w, c, Switching)], model)
    {
      SwitchingCanSwitch(model, w, c);
      ghost var x := Now();
      var st := ctx[c].status;
      res := ResultOf(Attempt(Sw, st));
      ctx := ctx[c := ctx[c].(status := StatusAfter(Attempt(Sw, st), st))];
      SwitchEffect(w, model.workers[w], model.ctx[c], DoYield, 0);
      PerformStore(s, x, w, c, Switching, DoYield, 0);
    }

    /** `in_dco_add_que` by a worker. */
    method AddQue(w: WorkerId, c: CtxId, ghost back: Loop)
      requires Valid() && Has(AtTask(w, c, Push(back)))
      modifies this
      ensures Valid() && Has(AtLoop(w, back)) && LastQueued(c)
      ensures ctx[c].interrupted == old(model).ctx[c].interrupted && timeWait[w] == old(model).workers[w].heap
      ensures ctx[c].timeout == old(model).ctx[c].timeout
      ensures Ran(old(model), [Plain(w, c, Push(back))], model)
    {
      ghost var s := model;
      Others(AtTask(w, c, Push(back)));
      OthersKeepHand(s, model, w, c, Push(back));
      PushNow(s, w, c, back);
    }

    method PushNow(ghost s: State, w: WorkerId, c: CtxId, ghost back: Loop)
      requires Valid() && Has(AtTask(w, c, Push(back))) && OthersRan(s, model, AtTask(w, c, Push(back)))
      modifies this`ctxQue, this`model
      ensures Valid() && Has(AtLoop(w, back)) && LastQueued(c)
      ensures Ran(s, [Plain(w, c, Push(back))], model)
    {
      ghost var x := Now();
      ctxQue := ctxQue + [c];
      PushEffect(w, model.workers[w], model.ctx[c], DoYield, 0);
      Perform(s, x, w, c, Push(back), DoYield, 0);
    }

    /** What `dco_sleep_add` leaves. */
    ghost predicate AddedAs(w: WorkerId, c: CtxId, clock: int, added: Added)
      reads this
    {
      && c < |ctx| && w < |timeWait|
      && match added
         case WokenFirst => LastQueued(c)
         case Armed => c in timeWait[w] && ctx[c].timeout > clock
         case TimedOut => LastQueued(c) && !ctx[c].interrupted && ctx[c].timeout <= clock
         case Overtaken => ctx[c].status == SleepSetRemove && ctx[c].timeout <= clock
    }

    /** `dco_sleep_add`: its assertion holds, whatever resumes happen meanwhile; in the state `at` it sees
        whether one was first. */
    method SleepAdd(w: WorkerId, c: CtxId, clock: int) returns (ghost added: Added, ghost at: State)
      requires Valid() && Has(AtTask(w, c, Add))
      modifies this
      ensures Valid() && Has(AtLoop(w, Top)) && AddedAs(w, c, clock, added)
      ensures Ran(old(model), AddTurns(w, c, clock, added), model)
      ensures OthersRan(old(model), at, AtTask(w, c, Add)) && c < |at.ctx|
      ensures if added.WokenFirst? then at.ctx[c].status == SleepSetBreak else at.ctx[c].status == SleepSet
    {
      ghost var s := model;
      var res;
      res, at := TrySleepAdd(w, c);
      ghost var m := model;
      if res == 0 {
        AddQue(w, c, Top);
        added := WokenFirst;
        Join(s, [Plain(w, c, Add)], m, [Plain(w, c, Push(Top))], model);
        return;
      }
      ghost var rest;
      added, rest := AddTimer(w, c, clock);
      Join(s, [Plain(w, c, Add)], m, rest, model);
    }

    /** The second half: the deadline decides. */
    method AddTimer(w: WorkerId, c: CtxId, clock: int) returns (ghost added: Added, ghost turns: Turns)
      requires Valid() && Has(AtTask(w, c, AddCheck))
      modifies this
      ensures Valid() && Has(AtLoop(w, Top)) && !added.WokenFirst? && AddedAs(w, c, clock, added)
      ensures Ran(old(model), turns, model) && [Plain(w, c, Add)] + turns == AddTurns(w, c, clock, added)
    {
      ghost var s := model;
      var due := CheckDeadline(w, c, clock);
      ghost var m := model;
      if due {
        var res, _ := SleepTimeout(w, c, Top, clock);
        added := if res == 0 then TimedOut else Overtaken;
        turns := [Do(w, c, AddCheck, DoYield, clock)] + TimeoutTurns(w, c, Top, clock, res);
        Join(s, [Do(w, c, AddCheck, DoYield, clock)], m, TimeoutTurns(w, c, Top, clock, res), model);
      } else {
        PushTimer(w, c, clock);
        added := Armed;
        turns := [Do(w, c, AddCheck, DoYield, clock), Plain(w, c, HeapPush)];
        JoinPair(s, Do(w, c, AddCheck, DoYield, clock), m, Plain(w, c, HeapPush), model);
      }
    }

    method TrySleepAdd(w: WorkerId, c: CtxId) returns (res: int, ghost at: State)
      requires Valid() && Has(AtTask(w, c, Add))
      modifies this
      ensures OthersRan(old(model), at, AtTask(w, c, Add)) && c < |at.ctx|
      ensures if res == 0 then at.ctx[c].status == SleepSetBreak else at.ctx[c].status == SleepSet
      ensures Valid() && 0 <= res <= 1
      ensures Has(AtTask(w, c, if res == 0 then Push(Top) else AddCheck))
      ensures Ran(old(model), [Plain(w, c, Add)], model)
    {
      ghost var s := model;
      Others(AtTask(w, c, Add));
      at := model;
      res := AddNow(s, w, c);
    }

    method AddNow(ghost s: State, w: WorkerId, c: CtxId) returns (res: int)
      requires Valid() && Has(AtTask(w, c, Add)) && OthersRan(s, model, AtTask(w, c, Add))
      modifies this`ctx, this`model
      ensures if res == 0 then old(model).ctx[c].status == SleepSetBreak else old(model).ctx[c].status == SleepSet
      ensures Valid() && 0 <= res <= 1
      ensures Has(AtTask(w, c, if res == 0 then Push(Top) else AddCheck))
      ensures Ran(s, [Plain(w, c, Add)], model)
    {
      SleepersMove(model, w, c);
      ghost var x := Now();
      var st := ctx[c].status;
      res := ResultOf(Attempt(Op.SleepAdd, st));
      ctx := ctx[c := ctx[c].(status := StatusAfter(Attempt(Op.SleepAdd, st), st))];
      AddEffect(w, model.workers[w], model.ctx[c], DoYield, 0);
      PerformStore(s, x, w, c, Add, DoYield, 0);
    }

    method CheckDeadline(w: WorkerId, c: CtxId, clock: int) returns (due: bool)
      requires Valid() && Has(AtTask(w, c, AddCheck))
      modifies this
      ensures Valid() && Has(AtTask(w, c, if due then TimeoutCas(Top, clock) else HeapPush))
      ensures due <==> model.ctx[c].timeout <= clock
      ensures Ran(old(model), [Do(w, c, AddCheck, DoYield, clock)], model)
    {
      ghost var s := model;
      Others(AtTask(w, c, AddCheck));
      due := ctx[c].timeout <= clock;
      CheckEffect(w, model.workers[w], model.ctx[c], DoYield, clock);
      Perform(s, Now(), w, c, AddCheck, DoYield, clock);
    }

    method PushTimer(w: WorkerId, c: CtxId, ghost clock: int)
      requires Valid() && Has(AtTask(w, c, HeapPush)) && model.ctx[c].timeout > clock
      modifies this
      ensures Valid() && Has(AtLoop(w, Top))
      ensures c < |ctx| && w < |timeWait| && c in timeWait[w] && ctx[c].timeout > clock
      ensures Ran(old(model), [Plain(w, c, HeapPush)], model)
    {
      ghost var s := model;
      Others(AtTask(w, c, HeapPush));
      OthersKeepHand(s, model, w, c, HeapPush);
      ArmNow(s, w, c);
    }

    method ArmNow(ghost s: State, w: WorkerId, c: CtxId)
      requires Valid() && Has(AtTask(w, c, HeapPush)) && OthersRan(s, model, AtTask(w, c, HeapPush))
      modifies this`timeWait, this`model
      ensures Valid() && Has(AtLoop(w, Top))
      ensures c < |ctx| && w < |timeWait| && c in timeWait[w]
      ensures Ran(s, [Plain(w, c, HeapPush)], model)
    {
      ghost var x := Now();
      timeWait := timeWait[w := timeWait[w] + multiset{c}];
      HeapPushEffect(w, model.workers[w], model.ctx[c], DoYield, 0);
      Perform(s, x, w, c, HeapPush, DoYield, 0);
    }

    /** `dco_sleep_timeout`: 0 queues the context as timed out; otherwise a resume came first, which
        has marked it for removal, and nothing is queued here. */
    method SleepTimeout(w: WorkerId, c: CtxId, ghost back: Loop, ghost clock: int) returns (res: int, ghost at: State)
      requires Valid() && Has(AtTask(w, c, TimeoutCas(back, clock)))
      modifies this
      ensures Valid() && Has(AtLoop(w, back)) && (res == 0 || res == -1) && c < |ctx| && w < |timeWait|
      ensures if res == 0 then LastQueued(c) && !ctx[c].interrupted else ctx[c].status == SleepSetRemove
      ensures timeWait[w] == old(model).workers[w].heap && ctx[c].timeout == old(model).ctx[c].timeout
      ensures Ran(old(model), TimeoutTurns(w, c, back, clock, res), model)
      ensures OthersRan(old(model), at, AtTask(w, c, TimeoutCas(back, clock))) && c < |at.ctx|
      ensures at.ctx[c].status == if res == 0 then SleepSetSet else SleepSetRemove
    {
      ghost var s := model;
      res, at := TryTimeout(w, c, back, clock);
      if res == 0 {
        ghost var m := model;
        Wake(w, c, back, false);
        Join(s, [Plain(w, c, TimeoutCas(back, clock))], m, WakeTurns(w, c, back, false), model);
      } else {
        assert [Plain(w, c, TimeoutCas(back, clock))] + [] == [Plain(w, c, TimeoutCas(back, clock))];
      }
    }

    method TryTimeout(w: WorkerId, c: CtxId, ghost back: Loop, ghost clock: int) returns (res: int, ghost at: State)
      requires Valid() && Has(AtTask(w, c, TimeoutCas(back, clock)))
      modifies this
      ensures OthersRan(old(model), at, AtTask(w, c, TimeoutCas(back, clock))) && c < |at.ctx|
      ensures at.ctx[c].status == if res == 0 then SleepSetSet else SleepSetRemove
      ensures c < |model.ctx| && model.ctx[c].timeout == old(model).ctx[c].timeout
      ensures Valid() && Has(if res == 0 then AtTask(w, c, SetBreak(back, false)) else AtLoop(w, back))
      ensures (res == 0 || res == -1) && c < |ctx| && w < |timeWait| && (res != 0 ==> ctx[c].status == SleepSetRemove)
      ensures timeWait[w] == old(model).workers[w].heap
      ensures Ran(old(model), [Plain(w, c, TimeoutCas(back, clock))], model)
    {
      ghost var s := model;
      Others(AtTask(w, c, TimeoutCas(back, clock)));
      OthersKeepHand(s, model, w, c, TimeoutCas(back, clock));
      at := model;
      res := TimeoutNow(s, w, c, back, clock);
    }

    method TimeoutNow(ghost s: State, w: WorkerId, c: CtxId, ghost back: Loop, ghost clock: int) returns (res: int)
      requires Valid() && Has(AtTask(w, c, TimeoutCas(back, clock))) && OthersRan(s, model, AtTask(w, c, TimeoutCas(back, clock)))
      modifies this`ctx, this`model
      ensures c < |ctx| && old(model).ctx[c].status == if res == 0 then SleepSetSet else SleepSetRemove
      ensures ctx[c].timeout == old(ctx)[c].timeout
      ensures Valid() && Has(if res == 0 then AtTask(w, c, SetBreak(back, false)) else AtLoop(w, back))
      ensures (res == 0 || res == -1) && c < |ctx| && w < |timeWait| && (res != 0 ==> ctx[c].status == SleepSetRemove)
      ensures Ran(s, [Plain(w, c, TimeoutCas(back, clock))], model)
    {
      ExpiringIsArmed(model, w, c);
      ghost var x := Now();
      var st := ctx[c].status;
      res := ResultOf(Attempt(Op.SleepTimeout, st));
      ctx := ctx[c := ctx[c].(status := StatusAfter(Attempt(Op.SleepTimeout, st), st))];
      TimeoutEffect(w, model.workers[w], model.ctx[c], DoYield, 0);
      PerformStore(s, x, w, c, TimeoutCas(back, clock), DoYield, 0);
    }

    /** `break_ = value` and the push on the run queue. */
    method Wake(w: WorkerId, c: CtxId, ghost back: Loop, value: bool)
      requires Valid() && Has(AtTask(w, c, SetBreak(back, value)))
      modifies this
      ensures Valid() && Has(AtLoop(w, back)) && LastQueued(c) && ctx[c].interrupted == value
      ensures w < |timeWait| && timeWait[w] == old(model).workers[w].heap
      ensures ctx[c].timeout == old(model).ctx[c].timeout
      ensures Ran(old(model), WakeTurns(w, c, back, value), model)
    {
      ghost var s := model;
      SetInterrupted(w, c, back, value);
      ghost var m := model;
      AddQue(w, c, back);
      JoinPair(s, Plain(w, c, SetBreak(back, value)), m, Plain(w, c, Push(back)), model);
    }

    method SetInterrupted(w: WorkerId, c: CtxId, ghost back: Loop, value: bool)
      requires Valid() && Has(AtTask(w, c, SetBreak(back, value)))
      modifies this
      ensures Valid() && Has(AtTask(w, c, Push(back))) && model.ctx[c].interrupted == value
      ensures model.workers[w].heap == old(model).workers[w].heap && model.ctx[c].timeout == old(model).ctx[c].timeout
      ensures Ran(old(model), [Plain(w, c, SetBreak(back, value))], model)
    {
      ghost var s := model;
      Others(AtTask(w, c, SetBreak(back, value)));
      OthersKeepHand(s, model, w, c, SetBreak(back, value));
      InterruptedNow(s, w, c, back, value);
    }

    method InterruptedNow(ghost s: State, w: WorkerId, c: CtxId, ghost back: Loop, value: bool)
      requires Valid() && Has(AtTask(w, c, SetBreak(back, value))) && OthersRan(s, model, AtTask(w, c, SetBreak(back, value)))
      modifies this`ctx, this`model
      ensures Valid() && Has(AtTask(w, c, Push(back))) && model.ctx[c].interrupted == value
      ensures model.ctx[c].timeout == old(model).ctx[c].timeout
      ensures Ran(s, [Plain(w, c, SetBreak(back, value))], model)
    {
      ghost var x := Now();
      ctx := ctx[c := ctx[c].(interrupted := value)];
      PerformStore(s, x, w, c, SetBreak(back, value), DoYield, 0);
    }

    /** `dco_sleep_remove`: a context that was handed over is still marked, so it is always queued as
        interrupted. */
    method SleepRemove(w: WorkerId, c: CtxId, ghost now: int) returns (res: int)
      requires Valid() && Has(AtTask(w, c, RemoveCas(now)))
      modifies this
      ensures Valid() && Has(AtLoop(w, Drain(now))) && res == 0
      ensures LastQueued(c) && ctx[c].interrupted && w < |timeWait| && timeWait[w] == old(model).workers[w].heap
      ensures Ran(old(model), RemoveTurns(w, c, now), model)
    {
      ghost var s := model;
      res := TryRemove(w, c, now);
      ghost var m := model;
      if res == 0 {
        Wake(w, c, Drain(now), true);
        Join(s, [Plain(w, c, RemoveCas(now))], m, WakeTurns(w, c, Drain(now), true), model);
      }
    }

    method TryRemove(w: WorkerId, c: CtxId, ghost now: int) returns (res: int)
      requires Valid() && Has(AtTask(w, c, RemoveCas(now)))
      modifies this
      ensures Valid() && res == 0 && Has(AtTask(w, c, SetBreak(Drain(now), true)))
      ensures model.workers[w].heap == old(model).workers[w].heap
      ensures Ran(old(model), [Plain(w, c, RemoveCas(now))], model)
    {
      ghost var s := model;
      Others(AtTask(w, c, RemoveCas(now)));
      OthersKeepHand(s, model, w, c, RemoveCas(now));
      res := RemoveNow(s, w, c, now);
    }

    method RemoveNow(ghost s: State, w: WorkerId, c: CtxId, ghost now: int) returns (res: int)
      requires Valid() && Has(AtTask(w, c, RemoveCas(now))) && OthersRan(s, model, AtTask(w, c, RemoveCas(now)))
      modifies this`ctx, this`model
      ensures Valid() && res == 0 && Has(AtTask(w, c, SetBreak(Drain(now), true)))
      ensures Ran(s, [Plain(w, c, RemoveCas(now))], model)
    {
      SleepersMove(model, w, c);
      ghost var x := Now();
      var st := ctx[c].status;
      res := ResultOf(Attempt(Op.SleepRemove, st));
      ctx := ctx[c := ctx[c].(status := StatusAfter(Attempt(Op.SleepRemove, st), st))];
      RemoveEffect(w, model.workers[w], model.ctx[c], DoYield, 0);
      PerformStore(s, x, w, c, RemoveCas(now), DoYield, 0);
    }

    // ---- the loops of dco_time_proc and dco_get_next, one round --------------------------

    ghost method Idle(s: State, slot: Slot, a: Action)
      requires Valid() && Enabled(model, a) && (a.ReadClock? || a.DrainEnd? || a.ExpireEnd? || a.PopNothing?)
      requires OthersRan(s, model, slot)
      modifies this`model
      ensures Valid() && Ran(s, [Turn(slot, a)], model) && IdleStep(old(model), a, model)
      ensures model == Next(old(model), a)
    {
      WrittenByNothing(Now(), model, a);
      IdleFields(model, a);
      Take(s, slot, a);
    }

    /** `now = msnow()` */
    method ReadTime(w: WorkerId, now: int)
      requires Valid() && Has(AtLoop(w, Top))
      modifies this
      ensures Valid() && Has(AtLoop(w, Drain(now)))
      ensures Ran(old(model), [Turn(AtLoop(w, Top), ReadClock(w, now))], model)
    {
      ghost var s := model;
      Others(AtLoop(w, Top));
      Idle(s, AtLoop(w, Top), ReadClock(w, now));
    }

    /** `time_remove_` of worker w. */
    ghost function Removals(w: WorkerId): seq<CtxId>
      reads this
    {
      if w < |timeRemove| then timeRemove[w] else []
    }

    /** One round of the loop over `time_remove_`: the context that was popped leaves the heap and is
        queued as interrupted. */
    method DrainOnce(w: WorkerId, ghost now: int) returns (more: bool, c: CtxId, ghost at: State)
      requires Valid() && Has(AtLoop(w, Drain(now)))
      modifies this
      ensures Valid() && Has(AtLoop(w, if more then Drain(now) else Expire(now)))
      ensures more ==> LastQueued(c) && ctx[c].interrupted && w < |timeWait| && timeWait[w][c] == 0
      ensures Ran(old(model),
                  if more then [Turn(AtLoop(w, Drain(now)), DrainPop(w, c)), Plain(w, c, Unheap(now))] + RemoveTurns(w, c, now)
                  else [Turn(AtLoop(w, Drain(now)), DrainEnd(w))],
                  model)
      ensures OthersRan(old(model), at, AtLoop(w, Drain(now)))
      ensures w < |at.workers| && (more <==> at.workers[w].filed != multiset{})
      ensures more ==> Ran(Next(at, DrainPop(w, c)), [Plain(w, c, Unheap(now))] + RemoveTurns(w, c, now), model)
      ensures alone ==> (more <==> old(Removals(w)) != []) && (more ==> c == old(Removals(w))[0])
    {
      ghost var s := model;
      more, c, at := PopRemoval(w, now);
      if more {
        ghost var m := model;
        RemoveTimer(w, c, now);
        JoinPair(s, Turn(AtLoop(w, Drain(now)), DrainPop(w, c)), m, Plain(w, c, Unheap(now)), model);
        ghost var t := model;
        var _ := SleepRemove(w, c, now);
        Join(s, [Turn(AtLoop(w, Drain(now)), DrainPop(w, c)), Plain(w, c, Unheap(now))], t, RemoveTurns(w, c, now), model);
        Join(m, [Plain(w, c, Unheap(now))], t, RemoveTurns(w, c, now), model);
      }
    }

    method PopRemoval(w: WorkerId, ghost now: int) returns (found: bool, c: CtxId, ghost at: State)
      requires Valid() && Has(AtLoop(w, Drain(now)))
      modifies this
      ensures Valid() && Has(if found then AtTask(w, c, Unheap(now)) else AtLoop(w, Expire(now)))
      ensures Ran(old(model), [Turn(AtLoop(w, Drain(now)), if found then DrainPop(w, c) else DrainEnd(w))], model)
      ensures OthersRan(old(model), at, AtLoop(w, Drain(now)))
      ensures w < |at.workers| && (found <==> at.workers[w].filed != multiset{})
      ensures model == Next(at, if found then DrainPop(w, c) else DrainEnd(w))
      ensures alone ==> (found <==> old(Removals(w)) != []) && (found ==> c == old(Removals(w))[0])
    {
      ghost var s := model;
      OthersUnlessAlone(AtLoop(w, Drain(now)));
      at := model;
      found, c := timeRemove[w] != [], 0;
      if found {
        c := TakeRemoval(s, w, now);
      } else {
        Idle(s, AtLoop(w, Drain(now)), DrainEnd(w));
      }
    }

    method TakeRemoval(ghost s: State, w: WorkerId, ghost now: int) returns (c: CtxId)
      requires Valid() && Has(AtLoop(w, Drain(now))) && OthersRan(s, model, AtLoop(w, Drain(now))) && timeRemove[w] != []
      modifies this`timeRemove, this`model
      ensures Valid() && Has(AtTask(w, c, Unheap(now))) && c == old(timeRemove[w])[0]
      ensures Ran(s, [Turn(AtLoop(w, Drain(now)), DrainPop(w, c))], model) && model == Next(old(model), DrainPop(w, c))
    {
      ghost var x := Now();
      c := timeRemove[w][0];
      PopFront(timeRemove[w]);
      timeRemove := timeRemove[w := timeRemove[w][1..]];
      StepDrain(s, x, DrainPop(w, c), now);
    }

    method RemoveTimer(w: WorkerId, c: CtxId, ghost now: int)
      requires Valid() && Has(AtTask(w, c, Unheap(now)))
      modifies this
      ensures Valid() && Has(AtTask(w, c, RemoveCas(now))) && model.workers[w].heap[c] == 0
      ensures Ran(old(model), [Plain(w, c, Unheap(now))], model)
    {
      ghost var s := model;
      Others(AtTask(w, c, Unheap(now)));
      UnheapNow(s, w, c, now);
    }

    method UnheapNow(ghost s: State, w: WorkerId, c: CtxId, ghost now: int)
      requires Valid() && Has(AtTask(w, c, Unheap(now))) && OthersRan(s, model, AtTask(w, c, Unheap(now)))
      modifies this`timeWait, this`model
      ensures Valid() && Has(AtTask(w, c, RemoveCas(now))) && model.workers[w].heap[c] == 0
      ensures Ran(s, [Plain(w, c, Unheap(now))], model)
    {
      OnceInHeap(model, w, c);
      ghost var x := Now();
      timeWait := timeWait[w := timeWait[w] - multiset{c}];
      UnheapEffect(w, model.workers[w], model.ctx[c], DoYield, 0);
      Perform(s, x, w, c, Unheap(now), DoYield, 0);
    }

    /** One round of the loop over `time_wait_`; `c` is what its `top` returned, and it is due.  It
        leaves the heap, and is queued unless a resume came first. */
    method ExpireOnce(w: WorkerId, now: int, c: CtxId) returns (res: int, ghost at: State)
      requires Valid() && Has(AtLoop(w, Expire(now)))
      requires c in timeWait[w] && c < |ctx| && ctx[c].timeout <= now
      requires forall d :: d in timeWait[w] ==> d < |ctx| && ctx[c].timeout <= ctx[d].timeout
      modifies this
      ensures Valid() && Has(AtLoop(w, Expire(now))) && (res == 0 || res == -1) && c < |ctx| && w < |timeWait|
      ensures if res == 0 then LastQueued(c) && !ctx[c].interrupted else ctx[c].status == SleepSetRemove
      ensures timeWait[w] == old(timeWait[w]) - multiset{c}
      ensures Ran(old(model), [Turn(AtLoop(w, Expire(now)), ExpirePop(w, c))] + TimeoutTurns(w, c, Expire(now), now, res), model)
      ensures Paused(old(model), [Turn(AtLoop(w, Expire(now)), ExpirePop(w, c))], at, AtTask(w, c, TimeoutCas(Expire(now), now)))
      ensures c < |at.ctx| && at.ctx[c].status == if res == 0 then SleepSetSet else SleepSetRemove
    {
      ghost var s := model;
      TakeTimer(w, now, c);
      ghost var m := model;
      res, at := SleepTimeout(w, c, Expire(now), now);
      Join(s, [Turn(AtLoop(w, Expire(now)), ExpirePop(w, c))], m, TimeoutTurns(w, c, Expire(now), now, res), model);
    }

    method TakeTimer(w: WorkerId, now: int, c: CtxId)
      requires Valid() && Has(AtLoop(w, Expire(now)))
      requires c in timeWait[w] && c < |ctx| && ctx[c].timeout <= now
      requires forall d :: d in timeWait[w] ==> d < |ctx| && ctx[c].timeout <= ctx[d].timeout
      modifies this
      ensures Valid() && Has(AtTask(w, c, TimeoutCas(Expire(now), now)))
      ensures model.workers[w].heap == old(timeWait[w]) - multiset{c}
      ensures Ran(old(model), [Turn(AtLoop(w, Expire(now)), ExpirePop(w, c))], model)
    {
      ghost var x := Now();
      NothingHappens(Sys(), Stands, model, AtLoop(w, Expire(now)));
      timeWait := timeWait[w := timeWait[w] - multiset{c}];
      StepExpire(model, x, ExpirePop(w, c), now);
    }

    /** The end of that loop: nothing in the heap is due. */
    method ExpireDone(w: WorkerId, now: int)
      requires Valid() && Has(AtLoop(w, Expire(now)))
      requires forall d :: d in timeWait[w] ==> d < |ctx| && ctx[d].timeout > now
      modifies this
      ensures Valid() && Has(AtLoop(w, Pop))
      ensures Ran(old(model), [Turn(AtLoop(w, Expire(now)), ExpireEnd(w))], model)
    {
      NothingHappens(Sys(), Stands, model, AtLoop(w, Expire(now)));
      Idle(model, AtLoop(w, Expire(now)), ExpireEnd(w));
    }

    /** `ctx_que_.pop`, the assertion on the status, and the switch into the coroutine; whether there is
        a context to run is decided in the state `at`. */
    method RunNext(w: WorkerId) returns (found: bool, c: CtxId, ghost at: State)
      requires Valid() && Has(AtLoop(w, Pop))
      modifies this
      ensures Valid() && Has(if found then AtTask(w, c, Running) else AtLoop(w, Top))
      ensures found ==> c < |ctx| && ctx[c].status == Ready && ctx[c].tid == w
      ensures Ran(old(model),
                  if found then [Turn(AtLoop(w, Pop), PopRun(w, c)), Plain(w, c, Popped)]
                  else [Turn(AtLoop(w, Pop), PopNothing(w))],
                  model)
      ensures OthersRan(old(model), at, AtLoop(w, Pop)) && (found <==> at.runQ != multiset{})
      ensures found ==> Ran(Next(at, PopRun(w, c)), [Plain(w, c, Popped)], model)
      ensures alone ==> (found <==> old(ctxQue) != [])
      ensures alone && found ==> c == old(ctxQue)[0] && ctxQue == old(ctxQue)[1..]
      ensures alone && !found ==> Now() == old(Now())
    {
      ghost var s := model;
      found, c, at := PopReady(w);
      if found {
        ghost var m := model;
        Enter(w, c);
        JoinPair(s, Turn(AtLoop(w, Pop), PopRun(w, c)), m, Plain(w, c, Popped), model);
      }
    }

    method PopReady(w: WorkerId) returns (found: bool, c: CtxId, ghost at: State)
      requires Valid() && Has(AtLoop(w, Pop))
      modifies this
      ensures Valid() && Has(if found then AtTask(w, c, Popped) else AtLoop(w, Top))
      ensures Ran(old(model), [Turn(AtLoop(w, Pop), if found then PopRun(w, c) else PopNothing(w))], model)
      ensures OthersRan(old(model), at, AtLoop(w, Pop)) && (found <==> at.runQ != multiset{})
      ensures model == Next(at, if found then PopRun(w, c) else PopNothing(w))
      ensures alone ==> (found <==> old(ctxQue) != [])
      ensures alone && found ==> c == old(ctxQue)[0] && ctxQue == old(ctxQue)[1..]
      ensures alone && !found ==> Now() == old(Now())
    {
      ghost var s := model;
      OthersUnlessAlone(AtLoop(w, Pop));
      at := model;
      found, c := ctxQue != [], 0;
      if found {
        c := TakeFront(s, w);
      } else {
        Idle(s, AtLoop(w, Pop), PopNothing(w));
      }
    }

    method TakeFront(ghost s: State, w: WorkerId) returns (c: CtxId)
      requires Valid() && Has(AtLoop(w, Pop)) && OthersRan(s, model, AtLoop(w, Pop)) && ctxQue != []
      modifies this`ctxQue, this`model
      ensures Valid() && Has(AtTask(w, c, Popped)) && c == old(ctxQue)[0] && ctxQue == old(ctxQue)[1..]
      ensures Ran(s, [Turn(AtLoop(w, Pop), PopRun(w, c))], model) && model == Next(old(model), PopRun(w, c))
    {
      ghost var x := Now();
      c := ctxQue[0];
      PopFront(ctxQue);
      ctxQue := ctxQue[1..];
      StepRun(s, x, PopRun(w, c));
    }

    method Enter(w: WorkerId, c: CtxId)
      requires Valid() && Has(AtTask(w, c, Popped))
      modifies this
      ensures Valid() && Has(AtTask(w, c, Running))
      ensures c < |ctx| && ctx[c].status == Ready && ctx[c].tid == w
      ensures Ran(old(model), [Plain(w, c, Popped)], model)
      ensures alone ==> ctxQue == old(ctxQue)
    {
      ghost var s := model;
      OthersUnlessAlone(AtTask(w, c, Popped));
      EnterNow(s, w, c);
    }

    method EnterNow(ghost s: State, w: WorkerId, c: CtxId)
      requires Valid() && Has(AtTask(w, c, Popped)) && OthersRan(s, model, AtTask(w, c, Popped))
      modifies this`ctx, this`model
      ensures Valid() && Has(AtTask(w, c, Running))
      ensures c < |ctx| && ctx[c].status == Ready && ctx[c].tid == w
      ensures Ran(s, [Plain(w, c, Popped)], model)
    {
      AssertionsHold(model, w);
      assert ctx[c].status == Ready;
      ghost var x := Now();
      ctx := ctx[c := ctx[c].(tid := w)];
      EnterEffect(w, model.workers[w], model.ctx[c], DoYield, 0);
      PerformStore(s, x, w, c, Popped, DoYield, 0);
    }
  }

  /** A resume of `c` in the state `at` leaves it in status `st`. */
  ghost predicate Leaves(at: State, c: CtxId, st: Status) {
    var t := Next(at, ResumeCas(c));
    c < |t.ctx| && t.ctx[c].status == st
  }

  lemma ResumeOutcome(at: State, c: CtxId, res: int)
    requires Can(at, ResumeCas(c)) && res == ResultOf(Attempt(Resume, at.ctx[c].status))
    ensures match at.ctx[c].status
            case YieldSet => res == 0 && Leaves(at, c, Ready)
            case YieldReset => res == 1 && Leaves(at, c, YieldBreak)
            case SleepReset => res == 2 && Leaves(at, c, SleepBreak)
            case SleepSet => res == 3 && Leaves(at, c, SleepSetBreak)
            case SleepSetSet => res == 4 && Leaves(at, c, SleepSetRemove)
            case _ => res == -1 && Leaves(at, c, at.ctx[c].status)
  {}

  // ---- what the theorems say at the places above -----------------------------------------

  lemma AskedHasWorker(m: State, c: CtxId)
    requires Reachable(m) && c in m.asked
    ensures c < |m.ctx| && m.ctx[c].tid < |m.workers|
  {
    ReachableInv(m);
    assert CtxOk(m, c);
  }

  lemma PooledIsReset(m: State, c: CtxId)
    requires Reachable(m) && c in m.pool
    ensures c < |m.ctx| && m.ctx[c].status == YieldSet
  {
    ReachableInv(m);
    assert CtxOk(m, c);
  }

  lemma OnceInHeap(m: State, w: WorkerId, c: CtxId)
    requires Reachable(m) && w < |m.workers| && c < |m.ctx|
    ensures m.workers[w].heap[c] <= 1
  {
    NeverTwice(m, c);
  }

  lemma HandTask(m: State, w: WorkerId, c: CtxId)
    requires Reachable(m) && w < |m.workers| && c < |m.ctx| && m.workers[w].pc.Busy? && m.workers[w].pc.c == c
    ensures TaskOk(m.ctx[c], w, m.workers[w].pc.task) && OwnerOk(m.ctx[c])
  {
    ReachableInv(m);
    assert CtxOk(m, c) && InHand(m, w, c);
  }

  lemma SleepersMove(m: State, w: WorkerId, c: CtxId)
    requires Reachable(m) && w < |m.workers| && c < |m.ctx| && m.workers[w].pc.Busy? && m.workers[w].pc.c == c
    ensures m.workers[w].pc.task.Add? ==> Attempt(Op.SleepAdd, m.ctx[c].status).Move?
    ensures m.workers[w].pc.task.RemoveCas? ==> m.ctx[c].status == SleepSetRemove
  {
    HandTask(m, w, c);
  }

  lemma RunningCanSuspend(m: State, w: WorkerId, c: CtxId)
    requires Reachable(m) && Stands(m, AtTask(w, c, Running))
    ensures Attempt(Yield, m.ctx[c].status).Move? && Attempt(Sleep, m.ctx[c].status).Move?
  {
    HandTask(m, w, c);
  }

  lemma SwitchingCanSwitch(m: State, w: WorkerId, c: CtxId)
    requires Reachable(m) && Stands(m, AtTask(w, c, Switching))
    ensures Attempt(Sw, m.ctx[c].status).Move?
  {
    HandTask(m, w, c);
  }

  lemma RecycledIsReset(m: State, w: WorkerId, c: CtxId)
    requires Reachable(m) && Stands(m, AtTask(w, c, Recycling))
    ensures m.ctx[c].status == YieldSet
  {
    HandTask(m, w, c);
  }

  lemma ExpiringIsArmed(m: State, w: WorkerId, c: CtxId)
    requires Reachable(m) && w < |m.workers| && c < |m.ctx| && m.workers[w].pc.Busy? && m.workers[w].pc.c == c
    requires m.workers[w].pc.task.TimeoutCas?
    ensures m.ctx[c].status == SleepSetSet || m.ctx[c].status == SleepSetRemove
  {
    HandTask(m, w, c);
  }
}
