/**
 `in_dco_add_que`, `in_dco_call_worker` and `in_dco_wait_worker` as code: methods on the real flags
 and queues.  Between any two atomic operations of a method other threads may take any steps
 (`Others`).  Every method states the run it is part of: from the old state to the new one in which
 its thread takes exactly the named steps (`Ran`).
 */
module WorkerPool {
  import opened Runs
  import opened Counting
  import opened Parking

  /** Where the thread that executes a method stands; other threads cannot move it. */
  datatype Slot =
    | Nowhere
    | AtPop
    | AtRaise
    | AtMark(tid: nat)
    | AtClear(tid: nat)
    | AtNotify(tid: nat)
    | AtStage(w: nat, stage: Stage)

  type Turns = seq<Turn<Slot, Action>>

  ghost predicate Stands(s: State, slot: Slot) {
    match slot
    case Nowhere => true
    case AtPop => s.callers.popping > 0
    case AtRaise => s.callers.raising > 0
    case AtMark(tid) => tid in s.callers.marking && tid < |s.workers|
    case AtClear(tid) => tid in s.callers.clearing && tid < |s.workers|
    case AtNotify(tid) => tid in s.callers.notifying && tid < |s.workers|
    case AtStage(w, g) => w < |s.workers| && s.workers[w].stage == g
  }

  ghost predicate OthersRan(s: State, t: State, slot: Slot) {
    Meanwhile(Sys(), Stands, s, t, slot)
  }

  /** A run from `s` to `t` in which the thread takes exactly the steps `turns`. */
  ghost predicate Ran(s: State, turns: Turns, t: State) {
    Path(Sys(), Stands, s, turns, t)
  }

  lemma Join(s: State, xs: Turns, m: State, ys: Turns, t: State)
    requires Ran(s, xs, m) && Ran(m, ys, t)
    ensures Ran(s, xs + ys, t)
  {
    Chain(Sys(), Stands, s, xs, m, ys, t);
  }

  /** How a call ends: it woke a worker, or stored a credit. */
  datatype Call = Woke(tid: nat) | Stored

  function WakeTurns(tid: nat): Turns {
    [Turn(AtMark(tid), CallMark(tid)), Turn(AtClear(tid), CallClear(tid)), Turn(AtNotify(tid), CallNotify(tid))]
  }

  function CallTurns(call: Call): Turns {
    match call
    case Woke(tid) => [Turn(AtPop, CallPop(tid))] + WakeTurns(tid)
    case Stored => [Turn(AtPop, CallMiss), Turn(AtRaise, CallRaise)]
  }

  /** How a worker comes to park: it is registered still; it registers; and then it takes a credit and
      makes the call that the credit stands for. */
  datatype Rest = StillRegistered | Registered | Called(call: Call)

  function RestTurns(tid: nat, rest: Rest): Turns {
    [Turn(AtStage(tid, SetWait), DoSetWait(tid))]
    + (if rest.StillRegistered? then [] else RegisterTurns(tid))
    + (if rest.Called? then CallTurns(rest.call) else [])
  }

  function RegisterTurns(tid: nat): Turns {
    [Turn(AtStage(tid, ClearRun), DoClearRun(tid)), Turn(AtStage(tid, Stage.Register), DoRegister(tid)),
     Turn(AtStage(tid, Credit), DoCredit(tid))]
  }

  lemma RestShape(tid: nat)
    ensures RestTurns(tid, StillRegistered) == [Turn(AtStage(tid, SetWait), DoSetWait(tid))]
    ensures RestTurns(tid, Registered) == RestTurns(tid, StillRegistered) + RegisterTurns(tid)
    ensures forall call :: RestTurns(tid, Called(call)) == RestTurns(tid, Registered) + CallTurns(call)
  {}

  lemma Pair<T>(x: T, y: T)
    ensures [x] + [y] == [x, y]
  {}

  lemma Triple<T>(x: T, y: T, z: T)
    ensures [x] + [y] + [z] == [x, y, z]
  {}

  /** The program's variables. */
  datatype Variables = Variables(
    queue: nat, waiting: seq<nat>, sem: int, run: seq<bool>, wait: seq<bool>, token: seq<bool>)

  ghost predicate Coupled(x: Variables, m: State) {
    && m.queue == x.queue && m.listed == multiset(x.waiting) && m.credit == x.sem
    && |x.run| == |x.wait| == |x.token| == |m.workers|
    && forall w :: 0 <= w < |x.run| ==>
         m.workers[w].run == x.run[w] && m.workers[w].wait == x.wait[w] && m.workers[w].token == x.token[w]
  }

  /** The variables after a step. */
  function Wrote(x: Variables, a: Action): Variables
    requires Named(x, a)
  {
    match a
    case Add => x.(queue := x.queue + 1)
    case CallPop(_) => x.(waiting := x.waiting[1..])
    case CallRaise => x.(sem := Increase(x.sem, |x.run|))
    case CallMark(tid) => x.(run := x.run[tid := true])
    case CallClear(tid) => x.(wait := x.wait[tid := false])
    case CallNotify(tid) => x.(token := x.token[tid := true])
    case DoSetWait(w) => x.(wait := x.wait[w := true])
    case DoClearRun(w) => x.(run := x.run[w := false])
    case DoRegister(w) => x.(waiting := x.waiting + [w])
    case DoCredit(_) => x.(sem := if x.sem > 0 then x.sem - 1 else x.sem)
    case _ => x
  }

  /** The action is one of those above, and what it names exists; a pop takes the front. */
  predicate Named(x: Variables, a: Action) {
    && |x.run| == |x.wait| == |x.token|
    && match a
       case Add => true
       case CallMiss => true
       case CallRaise => true
       case CallPop(tid) => x.waiting != [] && x.waiting[0] == tid
       case CallMark(tid) => tid < |x.run| && !x.run[tid]
       case CallClear(tid) => tid < |x.run|
       case CallNotify(tid) => tid < |x.run|
       case DoSetWait(w) => w < |x.run|
       case DoClearRun(w) => w < |x.run|
       case DoRegister(w) => w < |x.run|
       case DoCredit(w) => w < |x.run|
       case _ => false
  }

  lemma CallerWrote(x: Variables, m: State, a: Action)
    requires Coupled(x, m) && Enabled(m, a) && Named(x, a) && IsCallerStep(a)
    ensures Coupled(Wrote(x, a), Apply(m, a))
  {
    if a.CallPop? { PopFront(x.waiting); }
  }

  lemma WorkerWrote(x: Variables, m: State, a: Action)
    requires Coupled(x, m) && Enabled(m, a) && Named(x, a) && !IsCallerStep(a)
    ensures Coupled(Wrote(x, a), Apply(m, a))
  {}

  /** Where the threads are after a step: callers as counted, and at most one worker has moved. */
  ghost predicate Stepped(m: State, a: Action, t: State)
    requires Enabled(m, a)
  {
    && |t.workers| == |m.workers| && t.callers == Apply(m, a).callers
    && (IsCallerStep(a) ==> forall w :: 0 <= w < |m.workers| ==> t.workers[w].stage == m.workers[w].stage)
    && (!IsCallerStep(a) ==> t.workers[a.w].stage == Apply(m, a).workers[a.w].stage)
  }

  lemma StepWrites(x: Variables, m: State, a: Action)
    requires Coupled(x, m) && Enabled(m, a) && Named(x, a)
    ensures Coupled(Wrote(x, a), Apply(m, a)) && Stepped(m, a, Apply(m, a))
  {
    StepsOnce(m, a);
    if IsCallerStep(a) { CallerWrote(x, m, a); } else { WorkerWrote(x, m, a); }
  }

  lemma StepsOnce(m: State, a: Action)
    requires Enabled(m, a)
    ensures Stepped(m, a, Apply(m, a))
  {}

  /** The effect of one call on a pool nobody else uses. */
  ghost predicate CalledAs(x: Variables, call: Call, y: Variables) {
    match call
    case Stored => x.waiting == [] && y == x.(sem := Increase(x.sem, |x.run|))
    case Woke(tid) => x.waiting != [] && tid == x.waiting[0] && WokenAs(x.(waiting := x.waiting[1..]), tid, y)
  }

  /** The effect of parking on such a pool: nothing if the worker is registered still; otherwise it
      registers, and a credit, if there is one, is spent on a call. */
  ghost predicate ParkedAs(x: Variables, tid: nat, rest: Rest, y: Variables) {
    && tid < |x.run| == |x.wait|
    && if rest.StillRegistered? then x.wait[tid] && y == x
       else !x.wait[tid] && RegisteredAs(x.(wait := x.wait[tid := true]), tid, rest, y)
  }

  ghost predicate RegisteredAs(x: Variables, tid: nat, rest: Rest, y: Variables)
    requires tid < |x.run|
  {
    var z := x.(run := x.run[tid := false], waiting := x.waiting + [tid]);
    match rest
    case StillRegistered => false
    case Registered => x.sem <= 0 && y == z
    case Called(call) => x.sem > 0 && CalledAs(z.(sem := x.sem - 1), call, y)
  }

  ghost predicate WokenAs(x: Variables, tid: nat, y: Variables) {
    && tid < |x.run| == |x.wait| == |x.token|
    && y == x.(run := x.run[tid := true], wait := x.wait[tid := false], token := x.token[tid := true])
  }

  class Pool {
    var queue: nat          // contexts in ctx_que_
    var waiting: seq<nat>   // worker_wait_
    var sem: int            // sem_
    var run: seq<bool>      // run_ of each worker
    var wait: seq<bool>     // wait_
    var token: seq<bool>    // the worker's semaphore
    /** What `sem_` held after construction. */
    ghost const start: int
    /** The state of the transition system: the fields, and where each thread is. */
    ghost var model: State
    /** No other thread does anything: then the methods' effects can be stated outright. */
    ghost const alone: bool

    ghost function Now(): Variables
      reads this
    {
      Variables(queue, waiting, sem, run, wait, token)
    }

    ghost predicate Valid()
      reads this
    {
      Reachable(start, model) && Coupled(Now(), model)
    }

    ghost predicate Has(slot: Slot)
      reads this
    {
      Stands(model, slot)
    }

    /** The constructor of the scheduler registers every worker.  It does not initialise `sem_`:
        whatever is found there is `found`. */
    constructor (size: nat, found: int, ghost alone: bool)
      ensures Valid() && this.alone == alone && start == found && Initial(found, model)
      ensures |run| == size && queue == 0 && sem == found
      ensures forall w: nat :: multiset(waiting)[w] == One(w < size)
    {
      this.alone, this.start := alone, found;
      queue, waiting, sem := 0, [], found;
      run := seq(size, i => false);
      wait := seq(size, i => true);
      token := seq(size, i => false);
      new;
      for i := 0 to size
        invariant forall w: nat :: multiset(waiting)[w] == One(w < i)
        invariant queue == 0 && sem == found && |run| == |wait| == |token| == size
        invariant forall w :: 0 <= w < size ==> !run[w] && wait[w] && !token[w]
      {
        waiting := waiting + [i];
      }
      model := State(seq(size, i => Worker(false, true, false, Awake, Listed)), 0, multiset(waiting), found, CALM, NONE);
      LeadsNowhere(Sys(), model);
    }

    /** Any steps of other threads while this one stands at `slot`. */
    method Others(ghost slot: Slot)
      requires Valid() && Has(slot)
      modifies this
      ensures Valid() && Has(slot) && OthersRan(old(model), model, slot) && |run| == old(|run|)
      ensures alone ==> model == old(model) && Now() == old(Now())
    {
      NothingHappens(Sys(), Stands, model, slot);
    }

    /** The step `a`, executed on the variables, which were `x` when others had led from `s` to the
        present state. */
    ghost method Take(s: State, x: Variables, slot: Slot, a: Action)
      requires Reachable(start, model) && Enabled(model, a) && OthersRan(s, model, slot)
      requires Coupled(x, model) && Named(x, a) && Now() == Wrote(x, a)
      modifies this`model
      ensures Valid() && Stepped(old(model), a, model)
      ensures Ran(s, [Turn(slot, a)], model)
    {
      StepWrites(x, model, a);
      ReachableStep(start, model, a);
      OneTurn(Sys(), Stands, s, model, Turn(slot, a));
      model := Apply(model, a);
    }

    /** No worker has moved. */
    ghost predicate SameStages(was: State)
      reads this
    {
      && |model.workers| == |was.workers|
      && forall w :: 0 <= w < |was.workers| ==> model.workers[w].stage == was.workers[w].stage
    }

    // ---- calling a worker ----------------------------------------------------------------

    /** `in_dco_add_que`: one context more, and then a call. */
    method AddQue() returns (ghost call: Call)
      requires Valid()
      modifies this
      ensures Valid() && (start >= 0 && queue > 0 && |run| > 0 ==> Attended(model))
      ensures Ran(old(model), [Turn(Nowhere, Add)] + CallTurns(call), model)
      ensures alone ==> CalledAs(old(Now()).(queue := old(queue) + 1), call, Now())
      ensures alone ==> model.callers == old(model.callers)
    {
      ghost var s := model;
      Enqueue();
      ghost var m := model;
      call := CallWorker();
      Join(s, [Turn(Nowhere, Add)], m, CallTurns(call), model);
      if start >= 0 && queue > 0 && |run| > 0 { QueuedWorkIsAttended(start, model); }
    }

    method Enqueue()
      requires Valid()
      modifies this
      ensures Valid() && Has(AtPop)
      ensures Ran(old(model), [Turn(Nowhere, Add)], model)
      ensures alone ==> Now() == old(Now()).(queue := old(queue) + 1)
      ensures alone ==> model.callers == old(model.callers).(popping := old(model.callers.popping) + 1)
    {
      ghost var s := model;
      Others(Nowhere);
      ghost var x := Now();
      queue := queue + 1;
      Take(s, x, Nowhere, Add);
    }

    /** `in_dco_call_worker`.  That the loop ends is a property of the protocol: a popped worker id
        always has `run_` false. */
    method CallWorker() returns (ghost call: Call)
      requires Valid() && Has(AtPop)
      modifies this
      ensures Valid() && Ran(old(model), CallTurns(call), model)
      ensures call.Woke? ==> call.tid < |token| && token[call.tid]
      ensures alone ==> CalledAs(old(Now()), call, Now())
      ensures alone ==> model.callers == old(model.callers).(popping := old(model.callers.popping) - 1)
      ensures alone ==> SameStages(old(model))
    {
      var again := true;
      call := Stored;
      while again
        invariant Valid() && (again ==> model == old(model) && Now() == old(Now()))
        invariant !again ==> Ran(old(model), CallTurns(call), model)
        invariant !again && call.Woke? ==> call.tid < |token| && token[call.tid]
        invariant alone && !again ==>
                    && CalledAs(old(Now()), call, Now())
                    && model.callers == old(model.callers).(popping := old(model.callers.popping) - 1)
                    && SameStages(old(model))
        decreases again
      {
        again, call := CallOnce();
      }
    }

    /** Body of the loop. */
    method CallOnce() returns (again: bool, ghost call: Call)
      requires Valid() && Has(AtPop)
      modifies this
      ensures Valid() && !again && Ran(old(model), CallTurns(call), model)
      ensures call.Woke? ==> call.tid < |token| && token[call.tid]
      ensures alone ==> CalledAs(old(Now()), call, Now())
      ensures alone ==> model.callers == old(model.callers).(popping := old(model.callers.popping) - 1)
      ensures alone ==> SameStages(old(model))
    {
      ghost var s, before := model, model.callers;
      var found, tid := PopWaiting();
      ghost var m := model;
      if !found {
        RaiseCredit();
        Join(s, [Turn(AtPop, CallMiss)], m, [Turn(AtRaise, CallRaise)], model);
        Pair(Turn(AtPop, CallMiss), Turn(AtRaise, CallRaise));
        return false, Stored;
      }
      again := WakeWorker(tid);
      call := Woke(tid);
      Join(s, [Turn(AtPop, CallPop(tid))], m, WakeTurns(tid), model);
      PutAndTake(before.marking, tid);
    }

    /** The popped worker is woken unless it runs already, in which case the caller tries again. */
    method WakeWorker(tid: nat) returns (again: bool)
      requires Valid() && Has(AtMark(tid))
      modifies this
      ensures Valid() && !again && Ran(old(model), WakeTurns(tid), model) && tid < |token| && token[tid]
      ensures alone ==> WokenAs(old(Now()), tid, Now())
      ensures alone ==> model.callers == old(model.callers).(marking := old(model.callers.marking) - multiset{tid})
      ensures alone ==> SameStages(old(model))
    {
      ghost var s, before := model, model.callers;
      again := MarkRunning(tid);
      if !again {
        ghost var m := model;
        ClearWaiting(tid);
        Join(s, [Turn(AtMark(tid), CallMark(tid))], m, [Turn(AtClear(tid), CallClear(tid))], model);
        m := model;
        Post(tid);
        Join(s, [Turn(AtMark(tid), CallMark(tid))] + [Turn(AtClear(tid), CallClear(tid))], m,
             [Turn(AtNotify(tid), CallNotify(tid))], model);
        Triple(Turn(AtMark(tid), CallMark(tid)), Turn(AtClear(tid), CallClear(tid)), Turn(AtNotify(tid), CallNotify(tid)));
        PutAndTake(before.clearing, tid);
        PutAndTake(before.notifying, tid);
      }
    }

    method PopWaiting() returns (found: bool, tid: nat)
      requires Valid() && Has(AtPop)
      modifies this
      ensures Valid() && (if found then Has(AtMark(tid)) else Has(AtRaise))
      ensures Ran(old(model), [Turn(AtPop, if found then CallPop(tid) else CallMiss)], model)
      ensures alone ==> found == (old(waiting) != []) && (found ==> tid == old(waiting)[0])
      ensures alone ==> Now() == if found then old(Now()).(waiting := old(waiting)[1..]) else old(Now())
      ensures alone && found ==>
                model.callers == old(model.callers).(popping := old(model.callers.popping) - 1,
                                                     marking := old(model.callers.marking) + multiset{tid})
      ensures alone && !found ==>
                model.callers == old(model.callers).(popping := old(model.callers.popping) - 1,
                                                     raising := old(model.callers.raising) + 1)
      ensures alone ==> SameStages(old(model))
    {
      ghost var s := model;
      Others(AtPop);
      ghost var x := Now();
      tid := 0;
      found := waiting != [];
      if found {
        tid := TakeFront(s);
      } else {
        Take(s, x, AtPop, CallMiss);
      }
    }

    method TakeFront(ghost s: State) returns (tid: nat)
      requires Valid() && Has(AtPop) && waiting != [] && OthersRan(s, model, AtPop)
      modifies this`waiting, this`model
      ensures Valid() && Has(AtMark(tid)) && tid == old(waiting)[0] && waiting == old(waiting)[1..]
      ensures Ran(s, [Turn(AtPop, CallPop(tid))], model)
      ensures model.callers == old(model.callers).(popping := old(model.callers.popping) - 1,
                                                   marking := old(model.callers.marking) + multiset{tid})
      ensures SameStages(old(model))
    {
      ghost var x := Now();
      tid := waiting[0];
      PopFront(waiting);
      ReachableInv(start, model);
      waiting := waiting[1..];
      Take(s, x, AtPop, CallPop(tid));
    }

    /** Nobody to wake: `atomic_increase_if_positive(sem_, workers_.size(), 1)`. */
    method RaiseCredit()
      requires Valid() && Has(AtRaise)
      modifies this
      ensures Valid() && Ran(old(model), [Turn(AtRaise, CallRaise)], model)
      ensures alone ==> Now() == old(Now()).(sem := Increase(old(sem), |old(run)|))
      ensures alone ==> model.callers == old(model.callers).(raising := old(model.callers.raising) - 1)
      ensures alone ==> SameStages(old(model))
    {
      ghost var s := model;
      Others(AtRaise);
      ghost var x := Now();
      if sem < |run| {
        sem := sem + 1;
      }
      Take(s, x, AtRaise, CallRaise);
    }

    /** `run_.exchange(true)` of the popped worker: it never ran. */
    method MarkRunning(tid: nat) returns (was: bool)
      requires Valid() && Has(AtMark(tid))
      modifies this
      ensures Valid() && !was && Has(AtClear(tid))
      ensures Ran(old(model), [Turn(AtMark(tid), CallMark(tid))], model)
      ensures alone ==> tid < |old(run)| && Now() == old(Now()).(run := old(run)[tid := true])
      ensures alone ==> model.callers == old(model.callers).(marking := old(model.callers.marking) - multiset{tid},
                                                              clearing := old(model.callers.clearing) + multiset{tid})
      ensures alone ==> SameStages(old(model))
    {
      ghost var s := model;
      Others(AtMark(tid));
      ghost var x := Now();
      Registration(start, model, tid);
      was := run[tid];
      run := run[tid := true];
      Take(s, x, AtMark(tid), CallMark(tid));
    }

    method ClearWaiting(tid: nat)
      requires Valid() && Has(AtClear(tid))
      modifies this
      ensures Valid() && Has(AtNotify(tid))
      ensures Ran(old(model), [Turn(AtClear(tid), CallClear(tid))], model)
      ensures alone ==> tid < |old(wait)| && Now() == old(Now()).(wait := old(wait)[tid := false])
      ensures alone ==> model.callers == old(model.callers).(clearing := old(model.callers.clearing) - multiset{tid},
                                                              notifying := old(model.callers.notifying) + multiset{tid})
      ensures alone ==> SameStages(old(model))
    {
      ghost var s := model;
      Others(AtClear(tid));
      ghost var x := Now();
      wait := wait[tid := false];
      Take(s, x, AtClear(tid), CallClear(tid));
    }

    /** `sem_.try_notify` */
    method Post(tid: nat)
      requires Valid() && Has(AtNotify(tid))
      modifies this
      ensures Valid() && tid < |token| && token[tid]
      ensures Ran(old(model), [Turn(AtNotify(tid), CallNotify(tid))], model)
      ensures alone ==> tid < |old(token)| && Now() == old(Now()).(token := old(token)[tid := true])
      ensures alone ==> model.callers == old(model.callers).(notifying := old(model.callers.notifying) - multiset{tid})
      ensures alone ==> SameStages(old(model))
    {
      ghost var s := model;
      Others(AtNotify(tid));
      ghost var x := Now();
      token := token[tid := true];
      Take(s, x, AtNotify(tid), CallNotify(tid));
    }

    // ---- parking -------------------------------------------------------------------------

    /** `in_dco_wait_worker`, called by worker `tid` when it found the run queue empty.  Registering may
        start a call, which goes on when the worker is already counted as parked. */
    method WaitWorker(tid: nat) returns (ghost rest: Rest)
      requires Valid() && Has(AtStage(tid, SetWait))
      modifies this
      ensures Valid() && Ran(old(model), RestTurns(tid, rest), model)
      ensures !rest.Called? ==> Has(AtStage(tid, Parked))
      ensures alone ==> Has(AtStage(tid, Parked)) && model.callers == old(model.callers)
      ensures alone ==> ParkedAs(old(Now()), tid, rest, Now())
    {
      ghost var s := model;
      RestShape(tid);
      var was := SetWaiting(tid);
      rest := StillRegistered;
      if !was {
        rest := RegisterAndCall(tid, s);
      }
    }

    method RegisterAndCall(tid: nat, ghost s: State) returns (ghost rest: Rest)
      requires Valid() && Has(AtStage(tid, ClearRun)) && Ran(s, RestTurns(tid, StillRegistered), model)
      modifies this
      ensures alone ==> tid < |old(run)| && RegisteredAs(old(Now()), tid, rest, Now())
      ensures Valid() && !rest.StillRegistered? && Ran(s, RestTurns(tid, rest), model)
      ensures !rest.Called? ==> Has(AtStage(tid, Parked))
      ensures alone ==> Has(AtStage(tid, Parked)) && model.callers == old(model.callers)
    {
      ghost var m := model;
      var credit := RegisterAgain(tid);
      RestShape(tid);
      Join(s, RestTurns(tid, StillRegistered), m, RegisterTurns(tid), model);
      rest := Registered;
      if credit {
        rest := CallForCredit(tid, s);
      }
    }

    method CallForCredit(tid: nat, ghost s: State) returns (ghost rest: Rest)
      requires Valid() && Has(AtPop) && Ran(s, RestTurns(tid, Registered), model)
      modifies this
      ensures Valid() && rest.Called? && Ran(s, RestTurns(tid, rest), model)
      ensures alone ==> model.callers == old(model.callers).(popping := old(model.callers.popping) - 1)
      ensures alone ==> SameStages(old(model)) && CalledAs(old(Now()), rest.call, Now())
    {
      ghost var m := model;
      ghost var call := CallWorker();
      Join(s, RestTurns(tid, Registered), m, CallTurns(call), model);
      RestShape(tid);
      rest := Called(call);
    }

    method RegisterAgain(tid: nat) returns (credit: bool)
      requires Valid() && Has(AtStage(tid, ClearRun))
      modifies this
      ensures Valid() && (if credit then Has(AtPop) else Has(AtStage(tid, Parked)))
      ensures Ran(old(model), RegisterTurns(tid), model)
      ensures alone ==> tid < |old(run)| && (credit <==> old(sem) > 0)
      ensures alone ==> Now() == old(Now()).(run := old(run)[tid := false], waiting := old(waiting) + [tid],
                                             sem := if credit then old(sem) - 1 else old(sem))
      ensures alone ==> Has(AtStage(tid, Parked))
      ensures alone ==> model.callers == if credit then old(model.callers).(popping := old(model.callers.popping) + 1) else old(model.callers)
    {
      ghost var s := model;
      ClearRunning(tid);
      ghost var m := model;
      Register(tid);
      ghost var turns := [Turn(AtStage(tid, ClearRun), DoClearRun(tid))] + [Turn(AtStage(tid, Stage.Register), DoRegister(tid))];
      Join(s, [Turn(AtStage(tid, ClearRun), DoClearRun(tid))], m, [Turn(AtStage(tid, Stage.Register), DoRegister(tid))], model);
      m := model;
      credit := TakeCredit(tid);
      Join(s, turns, m, [Turn(AtStage(tid, Credit), DoCredit(tid))], model);
      Triple(Turn(AtStage(tid, ClearRun), DoClearRun(tid)), Turn(AtStage(tid, Stage.Register), DoRegister(tid)),
             Turn(AtStage(tid, Credit), DoCredit(tid)));
    }

    /** `wait_.exchange(true)`: a worker that is still registered just parks. */
    method SetWaiting(tid: nat) returns (was: bool)
      requires Valid() && Has(AtStage(tid, SetWait))
      modifies this
      ensures Valid() && Has(AtStage(tid, if was then Parked else ClearRun))
      ensures Ran(old(model), [Turn(AtStage(tid, SetWait), DoSetWait(tid))], model)
      ensures alone ==> was == old(wait[tid]) && model.callers == old(model.callers)
      ensures alone ==> Now() == old(Now()).(wait := old(wait)[tid := true])
    {
      ghost var s := model;
      Others(AtStage(tid, SetWait));
      ghost var x := Now();
      was := wait[tid];
      wait := wait[tid := true];
      Take(s, x, AtStage(tid, SetWait), DoSetWait(tid));
    }

    method ClearRunning(tid: nat)
      requires Valid() && Has(AtStage(tid, ClearRun))
      modifies this
      ensures Valid() && Has(AtStage(tid, Stage.Register))
      ensures Ran(old(model), [Turn(AtStage(tid, ClearRun), DoClearRun(tid))], model)
      ensures alone ==> model.callers == old(model.callers)
      ensures alone ==> tid < |old(run)| && Now() == old(Now()).(run := old(run)[tid := false])
    {
      ghost var s := model;
      Others(AtStage(tid, ClearRun));
      ghost var x := Now();
      run := run[tid := false];
      Take(s, x, AtStage(tid, ClearRun), DoClearRun(tid));
    }

    method Register(tid: nat)
      requires Valid() && Has(AtStage(tid, Stage.Register))
      modifies this
      ensures Valid() && Has(AtStage(tid, Credit))
      ensures Ran(old(model), [Turn(AtStage(tid, Stage.Register), DoRegister(tid))], model)
      ensures alone ==> model.callers == old(model.callers)
      ensures alone ==> Now() == old(Now()).(waiting := old(waiting) + [tid])
    {
      ghost var s := model;
      Others(AtStage(tid, Stage.Register));
      ghost var x := Now();
      waiting := waiting + [tid];
      Take(s, x, AtStage(tid, Stage.Register), DoRegister(tid));
    }

    /** `atomic_decrement_if_positive(sem_, 0, 1)` */
    method TakeCredit(tid: nat) returns (ok: bool)
      requires Valid() && Has(AtStage(tid, Credit))
      modifies this
      ensures Valid() && Has(AtStage(tid, Parked)) && (ok ==> Has(AtPop))
      ensures Ran(old(model), [Turn(AtStage(tid, Credit), DoCredit(tid))], model)
      ensures alone ==> ok == (old(sem) > 0)
      ensures alone ==> Now() == old(Now()).(sem := if ok then old(sem) - 1 else old(sem))
      ensures alone ==> model.callers == if ok then old(model.callers).(popping := old(model.callers.popping) + 1) else old(model.callers)
    {
      ghost var s := model;
      Others(AtStage(tid, Credit));
      ok := CreditNow(tid, s);
    }

    method CreditNow(tid: nat, ghost s: State) returns (ok: bool)
      requires Valid() && Has(AtStage(tid, Credit)) && OthersRan(s, model, AtStage(tid, Credit))
      modifies this`sem, this`model
      ensures Valid() && Has(AtStage(tid, Parked)) && (ok ==> Has(AtPop))
      ensures Ran(s, [Turn(AtStage(tid, Credit), DoCredit(tid))], model)
      ensures ok == (old(sem) > 0) && sem == if ok then old(sem) - 1 else old(sem)
      ensures model.callers == if ok then old(model.callers).(popping := old(model.callers.popping) + 1) else old(model.callers)
    {
      ghost var x := Now();
      ok := sem > 0;
      if ok {
        sem := sem - 1;
      }
      Take(s, x, AtStage(tid, Credit), DoCredit(tid));
    }
  }
}
