/**
 The coroutine scheduling protocol of src/coctx.cpp, src/coschedule.cpp and src/coworker.cpp as a
 transition system.  Any number of contexts, of worker threads and of callers of `dco_resume`;
 every compare-exchange, every queue and heap operation and every plain store that another thread
 can observe is a step of its own.

 A queue is a multiset and a pop takes any element, because the queue promises no order between
 producers.  A pop may also report "empty" at any time, and `msnow` may return any value.
 */
module Scheduler {
  import opened CoStatus

  type CtxId = nat
  type WorkerId = nat

  // ---- state -----------------------------------------------------------------------------

  /** Where a timer entry stands: not pushed yet, in the heap, or out of it again. */
  datatype HeapPos = Coming | InHeap | OutOfHeap

  /** How far a resume of a sleeping context has come: nobody resumed it, the resumer has changed
      the status, the context is in `time_remove_`, the worker has popped it from there. */
  datatype RemovePos = NotAsked | Asked | Filed | Taken

  /** History variable: who is responsible for a context. */
  datatype Owner =
    | Pool                                          // in ctx_buf_
    | Parked                                        // switched out by a yield, or just created
    | Carried                                       // a resumer, between its CAS and its push
    | Queued                                        // in ctx_que_
    | On(w: WorkerId)                               // worker w runs it, switches it, or carries it to the queue
    | Adding(w: WorkerId)                           // worker w, before the timer-add CAS
    | Timer(w: WorkerId, heap: HeapPos, remove: RemovePos)

  datatype Suspension = ByCreate | ByYield | BySleep

  datatype Wake = NotWoken | ByResume | ByTimeout(clock: int)

  datatype Ctx = Ctx(
    status: Status,
    tid: WorkerId,           // tid_
    timeout: int,            // timeout_
    interrupted: bool,       // break_
    live: bool,              // handed out by dco_create and not yet at its end
    // history
    owner: Owner,
    suspension: Suspension,
    wake: Wake,
    suspends: nat,
    resumes: nat,
    timeouts: nat,
    pushes: nat)

  /** Where a worker goes after it has carried a context to the run queue. */
  datatype Loop =
    | Top               // before `now = msnow()` in dco_time_proc
    | Drain(now: int)   // before time_remove_.pop
    | Expire(now: int)  // before time_wait_.top
    | Pop               // before ctx_que_.pop

  /** What a worker is about to do with the one context it has in hand. */
  datatype Task =
    | Unheap(now: int)                  // time_wait_.remove of the context popped from time_remove_
    | RemoveCas(now: int)               // try_sleep_remove_full
    | TimeoutCas(back: Loop, clock: int) // try_sleep_timeout_full, after reading `clock`
    | SetBreak(back: Loop, value: bool) // `break_ = value`
    | Push(back: Loop)                  // ctx_que_.push
    | Popped                            // `tid_ = local_id_`, switch in
    | Running                           // coroutine code
    | Yielding                          // after try_yield_full: callback, switch out
    | Sleeping(until: int)              // after try_sleep_full: callback, set_timeout, switch out
    | Switching                         // back on the worker's stack: try_sw_full
    | Ending                            // `end_` seen: reset
    | Recycling                         // ctx_buf_.push
    | Add                               // try_sleep_add_full
    | AddCheck                          // the deadline test of dco_sleep_add
    | HeapPush                          // time_wait_.push

  datatype Pc = Free(at: Loop) | Busy(c: CtxId, task: Task)

  datatype Worker = Worker(pc: Pc, heap: multiset<CtxId>, filed: multiset<CtxId>)

  datatype State = State(
    ctx: seq<Ctx>,
    workers: seq<Worker>,
    runQ: multiset<CtxId>,      // ctx_que_
    pool: multiset<CtxId>,      // ctx_buf_
    carried: multiset<CtxId>,   // resumers whose CAS returned 0, before their push
    asked: multiset<CtxId>)     // resumers whose CAS returned 4, before their push on time_remove_

  // ---- steps -----------------------------------------------------------------------------

  /** What the coroutine that runs on a worker does next. */
  datatype Request = DoYield | DoSleep(until: int) | DoEnd

  datatype Action =
    | CreateNew                             // dco_create with an empty ctx_buf_
    | CreateFromPool(c: CtxId)
    | ResumeCas(c: CtxId)                   // any thread, any time
    | ResumePush(c: CtxId)
    | ResumeFile(c: CtxId)
    | ReadClock(w: WorkerId, clock: int)
    | DrainPop(w: WorkerId, c: CtxId)
    | DrainEnd(w: WorkerId)
    | ExpirePop(w: WorkerId, c: CtxId)
    | ExpireEnd(w: WorkerId)
    | PopRun(w: WorkerId, c: CtxId)
    | PopNothing(w: WorkerId)               // park; the wait may end at any time
    | Proceed(w: WorkerId, request: Request, clock: int)  // next step with the context in hand

  /** Contexts named anywhere exist. */
  ghost predicate Typed(s: State) {
    && (forall c :: c in s.runQ || c in s.pool || c in s.carried || c in s.asked ==> c < |s.ctx|)
    && (forall w :: 0 <= w < |s.workers| && s.workers[w].pc.Busy? ==> s.workers[w].pc.c < |s.ctx|)
    && (forall w, c :: 0 <= w < |s.workers| && c in s.workers[w].heap ==> c < |s.ctx|)
    && (forall w, c :: 0 <= w < |s.workers| && c in s.workers[w].filed ==> c < |s.ctx|)
  }

  predicate At(s: State, w: WorkerId, l: Loop) {
    w < |s.workers| && s.workers[w].pc == Free(l)
  }

  ghost predicate Enabled(s: State, a: Action)
    requires Typed(s)
  {
    match a
    case CreateNew => true
    case CreateFromPool(c) => c in s.pool
    case ResumeCas(c) => c < |s.ctx| && s.ctx[c].live
    case ResumePush(c) => c in s.carried
    case ResumeFile(c) => c in s.asked && s.ctx[c].tid < |s.workers|
    case ReadClock(w, _) => At(s, w, Top)
    case DrainPop(w, c) => w < |s.workers| && s.workers[w].pc.Free? && s.workers[w].pc.at.Drain? && c in s.workers[w].filed
    case DrainEnd(w) => w < |s.workers| && s.workers[w].pc.Free? && s.workers[w].pc.at.Drain?
    case ExpirePop(w, c) =>
      && w < |s.workers| && s.workers[w].pc.Free? && s.workers[w].pc.at.Expire?
      && c in s.workers[w].heap && s.ctx[c].timeout <= s.workers[w].pc.at.now
      && forall d :: d in s.workers[w].heap ==> s.ctx[c].timeout <= s.ctx[d].timeout
    case ExpireEnd(w) =>
      && w < |s.workers| && s.workers[w].pc.Free? && s.workers[w].pc.at.Expire?
      && forall d :: d in s.workers[w].heap ==> s.ctx[d].timeout > s.workers[w].pc.at.now
    case PopRun(w, c) => At(s, w, Pop) && c in s.runQ
    case PopNothing(w) => At(s, w, Pop)
    case Proceed(w, _, _) => w < |s.workers| && s.workers[w].pc.Busy?
  }

  function NewCtx(): Ctx {
    Ctx(YieldSet, 0, 0, false, true, Parked, ByCreate, NotWoken, 1, 0, 0, 0)
  }

  function HandOut(r: Ctx): Ctx {
    r.(live := true, owner := Parked, suspension := ByCreate, wake := NotWoken, suspends := r.suspends + 1)
  }

  /** The context after a resume whose compare-exchange saw status `r.status`. */
  function Resumed(r: Ctx): Ctx {
    match Attempt(Resume, r.status)
    case Refuse => r
    case Move(next, res) =>
      var r1 := r.(status := next, wake := ByResume, resumes := r.resumes + 1);
      if res == 0 then r1.(owner := Carried)
      else if res == 4 then InRemove(r1, Asked)
      else r1
  }

  function InRemove(r: Ctx, x: RemovePos): Ctx {
    if r.owner.Timer? then r.(owner := r.owner.(remove := x)) else r
  }

  function InHeapAt(r: Ctx, x: HeapPos): Ctx {
    if r.owner.Timer? then r.(owner := r.owner.(heap := x)) else r
  }

  function PushedOnce(r: Ctx): Ctx {
    r.(owner := Queued, pushes := r.pushes + 1)
  }

  /** The effect of one step of a worker on the context it has in hand: the context, the worker's
      next place (`None` keeps the context in hand), and which queue receives the context. */
  datatype Effect = Effect(r: Ctx, next: Pc, heap: multiset<CtxId>, toRun: bool, toPool: bool)

  function Hold(r: Ctx, p: Worker, c: CtxId, task: Task): Effect {
    Effect(r, Busy(c, task), p.heap, false, false)
  }

  function Drop(r: Ctx, p: Worker, at: Loop): Effect {
    Effect(r, Free(at), p.heap, false, false)
  }

  function Work(w: WorkerId, p: Worker, r: Ctx, request: Request, clock: int): Effect
    requires p.pc.Busy?
  {
    var c := p.pc.c;
    match p.pc.task
    case Unheap(now) =>
      Hold(InHeapAt(r, OutOfHeap), p, c, RemoveCas(now)).(heap := p.heap - multiset{c})
    case RemoveCas(now) =>
      (match Attempt(SleepRemove, r.status)
       case Refuse => Drop(r, p, Drain(now))
       case Move(next, _) => Hold(r.(status := next, owner := On(w)), p, c, SetBreak(Drain(now), true)))
    case TimeoutCas(back, seen) =>
      (match Attempt(SleepTimeout, r.status)
       case Refuse => Drop(r, p, back)
       case Move(next, _) =>
         Hold(r.(status := next, owner := On(w), wake := ByTimeout(seen), timeouts := r.timeouts + 1),
              p, c, SetBreak(back, false)))
    case SetBreak(back, value) => Hold(r.(interrupted := value), p, c, Push(back))
    case Push(back) => Drop(PushedOnce(r), p, back).(toRun := true)
    case Popped => Hold(r.(tid := w), p, c, Running)
    case Running =>
      (match request
       case DoYield =>
         (match Attempt(Yield, r.status)
          case Refuse => Hold(r, p, c, Running)
          case Move(next, _) =>
            Hold(r.(status := next, suspension := ByYield, wake := NotWoken, suspends := r.suspends + 1),
                 p, c, Yielding))
       case DoSleep(until) =>
         (match Attempt(Sleep, r.status)
          case Refuse => Hold(r, p, c, Running)
          case Move(next, _) =>
            Hold(r.(status := next, suspension := BySleep, wake := NotWoken, suspends := r.suspends + 1),
                 p, c, Sleeping(until)))
       case DoEnd => Hold(r.(live := false), p, c, Ending))
    case Yielding => Hold(r, p, c, Switching)
    case Sleeping(until) => Hold(r.(timeout := until, interrupted := true), p, c, Switching)
    case Switching =>
      (match Attempt(Sw, r.status)
       case Refuse => Drop(r, p, Top)
       case Move(next, res) =>
         var r1 := r.(status := next);
         if res == 0 then Hold(r1, p, c, Push(Top))
         else if res == 2 then Hold(r1.(owner := Adding(w)), p, c, Add)
         else Drop(r1.(owner := Parked), p, Top))
    case Ending => Hold(r.(status := YieldSet, timeout := 0, interrupted := true), p, c, Recycling)
    case Recycling => Drop(r.(owner := Pool), p, Top).(toPool := true)
    case Add =>
      (match Attempt(SleepAdd, r.status)
       case Refuse => Drop(r, p, Top)
       case Move(next, res) =>
         var r1 := r.(status := next);
         if res == 0 then Hold(r1.(owner := On(w)), p, c, Push(Top))
         else Hold(r1.(owner := Timer(w, Coming, NotAsked)), p, c, AddCheck))
    case AddCheck =>
      if r.timeout <= clock then Hold(InHeapAt(r, OutOfHeap), p, c, TimeoutCas(Top, clock))
      else Hold(r, p, c, HeapPush)
    case HeapPush => Drop(InHeapAt(r, InHeap), p, Top).(heap := p.heap + multiset{c})
  }

  function SetPc(s: State, w: WorkerId, pc: Pc): State
    requires w < |s.workers|
  {
    s.(workers := s.workers[w := s.workers[w].(pc := pc)])
  }

  function SetCtx(s: State, c: CtxId, r: Ctx): State
    requires c < |s.ctx|
  {
    s.(ctx := s.ctx[c := r])
  }

  ghost function Apply(s: State, a: Action): State
    requires Typed(s) && Enabled(s, a)
  {
    match a
    case CreateNew => s.(ctx := s.ctx + [NewCtx()])
    case CreateFromPool(c) => SetCtx(s, c, HandOut(s.ctx[c])).(pool := s.pool - multiset{c})
    case ResumeCas(c) =>
      var res := ResultOf(Attempt(Resume, s.ctx[c].status));
      SetCtx(s, c, Resumed(s.ctx[c])).(
        carried := if res == 0 then s.carried + multiset{c} else s.carried,
        asked := if res == 4 then s.asked + multiset{c} else s.asked)
    case ResumePush(c) =>
      SetCtx(s, c, PushedOnce(s.ctx[c])).(carried := s.carried - multiset{c}, runQ := s.runQ + multiset{c})
    case ResumeFile(c) =>
      var w := s.ctx[c].tid;
      var p := s.workers[w];
      SetCtx(s, c, InRemove(s.ctx[c], Filed)).(
        asked := s.asked - multiset{c},
        workers := s.workers[w := p.(filed := p.filed + multiset{c})])
    case ReadClock(w, clock) => SetPc(s, w, Free(Drain(clock)))
    case DrainPop(w, c) =>
      var p := s.workers[w];
      SetCtx(s, c, InRemove(s.ctx[c], Taken)).(
        workers := s.workers[w := p.(pc := Busy(c, Unheap(p.pc.at.now)), filed := p.filed - multiset{c})])
    case DrainEnd(w) => SetPc(s, w, Free(Expire(s.workers[w].pc.at.now)))
    case ExpirePop(w, c) =>
      var p := s.workers[w];
      SetCtx(s, c, InHeapAt(s.ctx[c], OutOfHeap)).(
        workers := s.workers[w := p.(pc := Busy(c, TimeoutCas(p.pc.at, p.pc.at.now)),
                                     heap := p.heap - multiset{c})])
    case ExpireEnd(w) => SetPc(s, w, Free(Pop))
    case PopRun(w, c) =>
      SetCtx(SetPc(s, w, Busy(c, Popped)), c, s.ctx[c].(owner := On(w))).(runQ := s.runQ - multiset{c})
    case PopNothing(w) => SetPc(s, w, Free(Top))
    case Proceed(w, request, clock) =>
      Put(s, w, Work(w, s.workers[w], s.ctx[s.workers[w].pc.c], request, clock))
  }

  /** Writes back the effect of worker `w`'s step on the context it has in hand. */
  function Put(s: State, w: WorkerId, e: Effect): State
    requires w < |s.workers| && s.workers[w].pc.Busy? && s.workers[w].pc.c < |s.ctx|
  {
    var c := s.workers[w].pc.c;
    SetCtx(s, c, e.r).(
      workers := s.workers[w := s.workers[w].(pc := e.next, heap := e.heap)],
      runQ := if e.toRun then s.runQ + multiset{c} else s.runQ,
      pool := if e.toPool then s.pool + multiset{c} else s.pool)
  }
}
