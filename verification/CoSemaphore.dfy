/**
 `cosemaphore` and the futex calls it makes as code: methods on the counter, the wait queue and the
 contexts' status.  Between any two atomic operations of a method other contexts may take any steps
 (`Others`).  Every method states the run it is part of: from the old state to the new one in which
 its context takes exactly the named steps (`Ran`).
 */
module CoSemaphore {
  import opened CoStatus
  import opened Runs
  import Counting
  import opened Sem = Semaphore

  /** Context i is at `pc`. */
  datatype Slot = Slot(i: nat, pc: Pc)

  type Turns = seq<Turn<Slot, Action>>

  ghost predicate Stands(s: State, slot: Slot) {
    slot.i < |s.actors| && s.actors[slot.i].pc == slot.pc
  }

  /** Other contexts lead from `s` to `t` while context i stays at `pc`. */
  ghost predicate OthersRan(s: State, t: State, i: nat, pc: Pc) {
    Meanwhile(Sys(), Stands, s, t, Slot(i, pc))
  }

  /** A run from `s` to `t` in which the context takes exactly the steps `turns`. */
  ghost predicate Ran(s: State, turns: Turns, t: State) {
    Path(Sys(), Stands, s, turns, t)
  }

  /** One step of context i that is at `pc`. */
  function StepAt(i: nat, pc: Pc): Turn<Slot, Action> { Turn(Slot(i, pc), Step(i)) }

  lemma Join(s: State, xs: Turns, m: State, ys: Turns, t: State)
    requires Ran(s, xs, m) && Ran(m, ys, t)
    ensures Ran(s, xs + ys, t)
  {
    Chain(Sys(), Stands, s, xs, m, ys, t);
  }

  /** A run that ends with others at work while the context is at `pc`. */
  ghost predicate Paused(s: State, turns: Turns, t: State, i: nat, pc: Pc) {
    exists m :: Ran(s, turns, m) && OthersRan(m, t, i, pc)
  }

  lemma JoinPaused(s: State, xs: Turns, m: State, ys: Turns, t: State, i: nat, pc: Pc)
    requires Ran(s, xs, m) && Paused(m, ys, t, i, pc)
    ensures Paused(s, xs + ys, t, i, pc)
  {
    var n :| Ran(m, ys, n) && OthersRan(n, t, i, pc);
    Join(s, xs, m, ys, n);
  }

  /** Along a run no count goes down. */
  lemma RanGrows(initial: int, s: State, turns: Turns, t: State)
    requires Reachable(initial, s) && Ran(s, turns, t)
    ensures Leads(Sys(), s, t) && t.notifies >= s.notifies && t.waits >= s.waits
  {
    PathLeads(Sys(), Stands, s, turns, t);
    ReachableInv(initial, s);
    InvAlongRun(s, t);
  }

  lemma OthersGrow(initial: int, s: State, t: State, i: nat, pc: Pc)
    requires Reachable(initial, s) && OthersRan(s, t, i, pc)
    ensures t.notifies >= s.notifies && t.waits >= s.waits
  {
    var acts :| Passes(Sys(), Stands, s, acts, t, Slot(i, pc));
    LeadsNowhere(Sys(), s);
    PassesLeads(Sys(), Stands, s, s, acts, t, Slot(i, pc));
    ReachableInv(initial, s);
    InvAlongRun(s, t);
  }

  // ---- the steps of the operations -------------------------------------------------------

  /** `dco_notify`: pop and resume (1), or an empty queue (-1). */
  ghost predicate NotifyTurns(i: nat, after: After, res: int, turns: Turns) {
    if res == 1 then
      exists c :: turns == [Turn(Slot(i, PopQ(after)), Action.Pop(i, c)), StepAt(i, ResumeIt(after, c))]
    else
      res == -1 && turns == [Turn(Slot(i, PopQ(after)), PopNothing(i))]
  }

  /** Between the first test and the switch in `dco_wait`, by what the two tests found. */
  ghost predicate CallbackTurns(i: nat, first: bool, second: bool, turns: Turns) {
    if first then turns == [StepAt(i, SelfResume)]
    else if second then
      exists res, notify :: NotifyTurns(i, ToSwitch, res, notify) &&
        turns == [StepAt(i, PushQ), StepAt(i, Recheck)] + notify
    else turns == [StepAt(i, PushQ), StepAt(i, Recheck)]
  }

  ghost predicate DcoWaitTurns(i: nat, first: bool, second: bool, turns: Turns) {
    exists callback :: CallbackTurns(i, first, second, callback) &&
      turns == [StepAt(i, Enter), StepAt(i, Check)] + callback + [StepAt(i, SwitchOut)]
  }

  /** One round of the loop in `wait`. */
  ghost predicate RoundTurns(i: nat, acquired: bool, turns: Turns) {
    if acquired then turns == [StepAt(i, TryDec)]
    else exists first, second, waiting :: DcoWaitTurns(i, first, second, waiting) && turns == [StepAt(i, TryDec)] + waiting
  }

  lemma WaitShape(i: nat, first: bool, second: bool, callback: Turns)
    requires CallbackTurns(i, first, second, callback)
    ensures DcoWaitTurns(i, first, second, [StepAt(i, Enter)] + ([StepAt(i, Check)] + callback) + [StepAt(i, SwitchOut)])
  {
    Regroup(StepAt(i, Enter), StepAt(i, Check), callback, StepAt(i, SwitchOut));
  }

  lemma RoundShape(i: nat, first: bool, second: bool, waiting: Turns)
    requires DcoWaitTurns(i, first, second, waiting)
    ensures RoundTurns(i, false, [StepAt(i, TryDec)] + waiting)
  {}

  lemma Regroup<T>(a: T, b: T, c: seq<T>, d: T)
    ensures [a] + ([b] + c) + [d] == [a, b] + c + [d]
  {}

  lemma Pair<T>(a: T, b: T, c: seq<T>)
    ensures [a] + [b] == [a, b] && [a] + [b] + c == [a, b] + c
  {}

  lemma Triple<T>(a: T, b: T, c: T)
    ensures [a] + ([b] + [c]) == [a, b, c]
  {}

  lemma CallbackShape(i: nat, res: int, notify: Turns)
    ensures CallbackTurns(i, false, false, [StepAt(i, PushQ)] + [StepAt(i, Recheck)])
    ensures NotifyTurns(i, ToSwitch, res, notify) ==>
              CallbackTurns(i, false, true, [StepAt(i, PushQ)] + [StepAt(i, Recheck)] + notify)
  {
    Pair(StepAt(i, PushQ), StepAt(i, Recheck), notify);
  }

  class CoSemaphore {
    var sem: int              // sem_
    var que: seq<nat>         // ctx_que_
    var status: seq<Status>   // the status of each context
    ghost const initial: int
    /** The state of the transition system: the fields, and where each context is. */
    ghost var model: State

    ghost predicate Valid()
      reads this
    {
      && Reachable(initial, model)
      && model.sem == sem && model.queue == multiset(que) && |model.actors| == |status|
      && forall i :: 0 <= i < |status| ==> model.actors[i].status == status[i]
    }

    ghost predicate IsAt(i: nat, pc: Pc)
      reads this
    {
      Stands(model, Slot(i, pc))
    }

    /** `n` contexts that are running. */
    constructor (initial: int, n: nat)
      ensures Valid() && this.initial == initial && |status| == n
      ensures Initial(model) && sem == initial && que == []
    {
      this.initial := initial;
      sem, que, status := initial, [], seq(n, i => Ready);
      model := State(seq(n, i => Actor(Idle, Ready, Nowhere)), multiset{}, initial, 0, 0);
      new;
      LeadsNowhere(Sys(), model);
    }

    /** Any steps of other contexts while context i stays where it is. */
    method Others(ghost i: nat)
      requires Valid() && i < |model.actors|
      modifies this
      ensures Valid() && OthersRan(old(model), model, i, old(model).actors[i].pc)
      ensures IsAt(i, old(model).actors[i].pc)
    {
      NothingHappens(Sys(), Stands, model, Slot(i, model.actors[i].pc));
    }

    /** The step `a` of context i, after others have led from `s` to the present state. */
    ghost method Take(s: State, i: nat, pc: Pc, a: Action)
      requires Reachable(initial, model) && OthersRan(s, model, i, pc) && Enabled(model, a)
      modifies this`model
      ensures Reachable(initial, model) && model == Apply(old(model), a)
      ensures Ran(s, [Turn(Slot(i, pc), a)], model)
    {
      ReachableStep(initial, model, a);
      OneTurn(Sys(), Stands, s, model, Turn(Slot(i, pc), a));
      model := Apply(model, a);
    }

    ghost method TakeOwn(s: State, i: nat, pc: Pc)
      requires Reachable(initial, model) && OthersRan(s, model, i, pc) && IsAt(i, pc)
      requires Enabled(model, Step(i)) && !pc.ResumeIt?
      modifies this`model
      ensures Reachable(initial, model) && OwnStep(old(model), i, model)
      ensures Ran(s, [StepAt(i, pc)], model)
    {
      OwnFields(model, i);
      Take(s, i, pc, Step(i));
    }

    ghost method TakePop(s: State, i: nat, after: After, a: Action)
      requires Reachable(initial, model) && OthersRan(s, model, i, PopQ(after)) && IsAt(i, PopQ(after)) && a.i == i
      requires Enabled(model, a) && (a.Pop? || a.PopNothing?)
      modifies this`model
      ensures Reachable(initial, model) && PopStep(old(model), after, a, model)
      ensures Ran(s, [Turn(Slot(i, PopQ(after)), a)], model)
    {
      PopFields(model, after, a);
      Take(s, i, PopQ(after), a);
    }

    /** `wait`, up to the point where it returns or the context is switched out.  The state `at`, in
        which it makes its attempt, decides: it takes a unit from there if there is one. */
    method Wait(i: nat) returns (acquired: bool, ghost turns: Turns, ghost at: State)
      requires Valid() && IsAt(i, Idle)
      modifies this
      ensures Valid() && IsAt(i, if acquired then Idle else Off)
      ensures Ran(old(model), turns, model)
      ensures exists round :: RoundTurns(i, acquired, round) && turns == [Turn(Slot(i, Idle), StartWait(i))] + round
      ensures acquired ==> model.waits > old(model.waits)
      ensures Paused(old(model), [Turn(Slot(i, Idle), StartWait(i))], at, i, TryDec) && (acquired <==> at.sem > 0)
      ensures acquired ==> model.sem == at.sem - 1 && model.waits == at.waits + 1
    {
      ghost var s := model;
      Begin(i, StartWait(i));
      ghost var m := model;
      ghost var round;
      acquired, round, at := Attempts(i);
      turns := [Turn(Slot(i, Idle), StartWait(i))] + round;
      Join(s, [Turn(Slot(i, Idle), StartWait(i))], m, round, model);
    }

    /** A context starts an operation. */
    ghost method Begin(i: nat, a: Action)
      requires Valid() && IsAt(i, Idle) && (a == StartWait(i) || a == StartNotify(i))
      modifies this`model
      ensures Valid() && IsAt(i, if a.StartWait? then TryDec else Inc)
      ensures Ran(old(model), [Turn(Slot(i, Idle), a)], model)
      ensures model.waits == old(model.waits) && model.notifies == old(model.notifies)
    {
      NothingHappens(Sys(), Stands, model, Slot(i, Idle));
      Take(model, i, Idle, a);
    }

    /** The next round of the loop in `wait`, when the context has been woken. */
    method WaitAgain(i: nat) returns (acquired: bool, ghost turns: Turns, ghost at: State)
      requires Valid() && IsAt(i, Off) && status[i].Ready?
      modifies this
      ensures Valid() && IsAt(i, if acquired then Idle else Off)
      ensures Ran(old(model), turns, model)
      ensures exists round :: RoundTurns(i, acquired, round) && turns == [StepAt(i, Off)] + round
      ensures acquired ==> model.waits > old(model.waits)
      ensures Paused(old(model), [StepAt(i, Off)], at, i, TryDec) && (acquired <==> at.sem > 0)
      ensures acquired ==> model.sem == at.sem - 1 && model.waits == at.waits + 1
    {
      ghost var s := model;
      Continue(i);
      ghost var m := model;
      ghost var round;
      acquired, round, at := Attempts(i);
      turns := [StepAt(i, Off)] + round;
      Join(s, [StepAt(i, Off)], m, round, model);
    }

    ghost method Continue(i: nat)
      requires Valid() && IsAt(i, Off) && status[i].Ready?
      modifies this`model
      ensures Valid() && IsAt(i, TryDec) && model.waits == old(model.waits)
      ensures Ran(old(model), [StepAt(i, Off)], model)
    {
      AwakeCanGoOn(model, i);
      NothingHappens(Sys(), Stands, model, Slot(i, Off));
      TakeOwn(model, i, Off);
    }

    method Attempts(i: nat) returns (acquired: bool, ghost turns: Turns, ghost at: State)
      requires Valid() && IsAt(i, TryDec)
      modifies this
      ensures Valid() && IsAt(i, if acquired then Idle else Off)
      ensures Ran(old(model), turns, model) && RoundTurns(i, acquired, turns)
      ensures acquired ==> model.waits > old(model.waits)
      ensures OthersRan(old(model), at, i, TryDec) && (acquired <==> at.sem > 0)
      ensures acquired ==> model.sem == at.sem - 1 && model.waits == at.waits + 1
    {
      ghost var s := model;
      acquired, at := TryDecrement(i);
      turns := [StepAt(i, TryDec)];
      if !acquired {
        ghost var m := model;
        ghost var waiting, first, second := DcoWait(i);
        Join(s, turns, m, waiting, model);
        RoundShape(i, first.sem > 0, second.sem > 0, waiting);
        turns := turns + waiting;
      }
    }

    /** `atomic_decrement_if_positive(sem_, 0, 1)`, decided in the state `at`. */
    method TryDecrement(i: nat) returns (ok: bool, ghost at: State)
      requires Valid() && IsAt(i, TryDec)
      modifies this
      ensures Valid() && IsAt(i, if ok then Idle else Enter)
      ensures Ran(old(model), [StepAt(i, TryDec)], model)
      ensures ok ==> model.waits > old(model.waits)
      ensures OthersRan(old(model), at, i, TryDec) && (ok <==> at.sem > 0)
      ensures if ok then model.sem == at.sem - 1 && model.waits == at.waits + 1 else model.sem == at.sem
    {
      ghost var s := model;
      Others(i);
      OthersGrow(initial, s, model, i, TryDec);
      at := model;
      ok := sem > 0;
      if ok {
        sem := sem - 1;
      }
      AttemptTakesUnit(model, i);
      TakeOwn(s, i, TryDec);
    }

    /** `dco_wait`: the context suspends itself; the branch that reports a failed suspension is dead.
        The tests are made in the states `first` and, if that finds no unit, `second`. */
    method DcoWait(i: nat) returns (ghost turns: Turns, ghost first: State, ghost second: State)
      requires Valid() && IsAt(i, Enter)
      modifies this
      ensures Valid() && IsAt(i, Off)
      ensures Ran(old(model), turns, model) && DcoWaitTurns(i, first.sem > 0, second.sem > 0, turns)
      ensures Paused(old(model), [StepAt(i, Enter)], first, i, Check)
      ensures first.sem <= 0 ==>
                Paused(old(model), [StepAt(i, Enter), StepAt(i, Check), StepAt(i, PushQ)], second, i, Recheck)
    {
      ghost var s := model;
      TryYield(i);
      ghost var m := model;
      ghost var callback;
      callback, first, second := Callback(i);
      Join(s, [StepAt(i, Enter)], m, [StepAt(i, Check)] + callback, model);
      if first.sem <= 0 {
        JoinPaused(s, [StepAt(i, Enter)], m, [StepAt(i, Check)] + [StepAt(i, PushQ)], second, i, Recheck);
        Triple(StepAt(i, Enter), StepAt(i, Check), StepAt(i, PushQ));
      }
      m := model;
      SwitchOff(i);
      Join(s, [StepAt(i, Enter)] + ([StepAt(i, Check)] + callback), m, [StepAt(i, SwitchOut)], model);
      turns := [StepAt(i, Enter)] + ([StepAt(i, Check)] + callback) + [StepAt(i, SwitchOut)];
      WaitShape(i, first.sem > 0, second.sem > 0, callback);
    }

    /** The function passed to `dco_yield`. */
    method Callback(i: nat) returns (ghost turns: Turns, ghost first: State, ghost second: State)
      requires Valid() && IsAt(i, Check)
      modifies this
      ensures Valid() && IsAt(i, SwitchOut)
      ensures Ran(old(model), [StepAt(i, Check)] + turns, model)
      ensures CallbackTurns(i, first.sem > 0, second.sem > 0, turns)
      ensures OthersRan(old(model), first, i, Check)
      ensures first.sem <= 0 ==> Paused(old(model), [StepAt(i, Check)] + [StepAt(i, PushQ)], second, i, Recheck)
    {
      ghost var s := model;
      var positive;
      positive, first := CheckFirst(i);
      second := first;
      ghost var m := model;
      if positive {
        ResumeSelf(i);
        turns := [StepAt(i, SelfResume)];
      } else {
        turns, second := PushAndCheck(i);
        JoinPaused(s, [StepAt(i, Check)], m, [StepAt(i, PushQ)], second, i, Recheck);
      }
      Join(s, [StepAt(i, Check)], m, turns, model);
    }

    method PushAndCheck(i: nat) returns (ghost turns: Turns, ghost second: State)
      requires Valid() && IsAt(i, PushQ)
      modifies this
      ensures Valid() && IsAt(i, SwitchOut)
      ensures Ran(old(model), turns, model) && CallbackTurns(i, false, second.sem > 0, turns)
      ensures Paused(old(model), [StepAt(i, PushQ)], second, i, Recheck)
    {
      ghost var s := model;
      Push(i);
      ghost var m := model;
      var again;
      again, second := CheckAgain(i);
      Join(s, [StepAt(i, PushQ)], m, [StepAt(i, Recheck)], model);
      turns := [StepAt(i, PushQ)] + [StepAt(i, Recheck)];
      ghost var res, notify := 0, [];
      if again {
        m := model;
        var r, extra, _ := DcoNotify(i, ToSwitch);
        res, notify := r, extra;
        Join(s, turns, m, notify, model);
        turns := turns + notify;
      }
      CallbackShape(i, res, notify);
    }

    method TryYield(i: nat)
      requires Valid() && IsAt(i, Enter)
      modifies this
      ensures Valid() && IsAt(i, Check)
      ensures Ran(old(model), [StepAt(i, Enter)], model)
    {
      ghost var s := model;
      Others(i);
      YieldNow(s, i);
    }

    method YieldNow(ghost s: State, i: nat)
      requires Valid() && IsAt(i, Enter) && OthersRan(s, model, i, Enter)
      modifies this`status, this`model
      ensures Valid() && IsAt(i, Check)
      ensures Ran(s, [StepAt(i, Enter)], model)
    {
      WakeupsSucceed(initial, model, i);
      status := status[i := StatusAfter(Attempt(Yield, status[i]), status[i])];
      TakeOwn(s, i, Enter);
    }

    /** The first test. */
    method CheckFirst(ghost i: nat) returns (positive: bool, ghost at: State)
      requires Valid() && IsAt(i, Check)
      modifies this
      ensures Valid() && IsAt(i, if positive then SelfResume else PushQ)
      ensures OthersRan(old(model), at, i, Check) && (positive <==> at.sem > 0)
      ensures Ran(old(model), [StepAt(i, Check)], model)
    {
      ghost var s := model;
      Others(i);
      at := model;
      positive := sem > 0;
      TakeOwn(s, i, Check);
    }

    /** The context resumes itself: it stays awake. */
    method ResumeSelf(i: nat)
      requires Valid() && IsAt(i, SelfResume)
      modifies this
      ensures Valid() && IsAt(i, SwitchOut)
      ensures Ran(old(model), [StepAt(i, SelfResume)], model)
    {
      ghost var s := model;
      Others(i);
      status := status[i := StatusAfter(Attempt(Resume, status[i]), status[i])];
      TakeOwn(s, i, SelfResume);
    }

    method Push(i: nat)
      requires Valid() && IsAt(i, PushQ)
      modifies this
      ensures Valid() && IsAt(i, Recheck)
      ensures Ran(old(model), [StepAt(i, PushQ)], model)
    {
      ghost var s := model;
      Others(i);
      que := que + [i];
      TakeOwn(s, i, PushQ);
    }

    method CheckAgain(ghost i: nat) returns (positive: bool, ghost at: State)
      requires Valid() && IsAt(i, Recheck)
      modifies this
      ensures Valid() && IsAt(i, if positive then PopQ(ToSwitch) else SwitchOut)
      ensures OthersRan(old(model), at, i, Recheck) && (positive <==> at.sem > 0)
      ensures Ran(old(model), [StepAt(i, Recheck)], model)
    {
      ghost var s := model;
      Others(i);
      at := model;
      positive := sem > 0;
      TakeOwn(s, i, Recheck);
    }

    method SwitchOff(i: nat)
      requires Valid() && IsAt(i, SwitchOut)
      modifies this
      ensures Valid() && IsAt(i, Off)
      ensures Ran(old(model), [StepAt(i, SwitchOut)], model)
    {
      ghost var s := model;
      Others(i);
      status := status[i := StatusAfter(Attempt(Sw, status[i]), status[i])];
      TakeOwn(s, i, SwitchOut);
    }

    /** `notify`: one unit more, and then a wake-up unless the queue, in the state `at`, is empty. */
    method Notify(i: nat) returns (ghost res: int, ghost turns: Turns, ghost at: State)
      requires Valid() && IsAt(i, Idle)
      modifies this
      ensures Valid() && IsAt(i, Idle)
      ensures Ran(old(model), turns, model) && model.notifies > old(model.notifies)
      ensures exists notify :: NotifyTurns(i, ToIdle, res, notify) &&
                turns == [Turn(Slot(i, Idle), StartNotify(i)), StepAt(i, Inc)] + notify
      ensures Paused(old(model), [Turn(Slot(i, Idle), StartNotify(i)), StepAt(i, Inc)], at, i, PopQ(ToIdle))
      ensures res == 1 <==> at.queue != multiset{}
    {
      ghost var s := model;
      Begin(i, StartNotify(i));
      ghost var m := model;
      Increment(i);
      ghost var first := [Turn(Slot(i, Idle), StartNotify(i))] + [StepAt(i, Inc)];
      Join(s, [Turn(Slot(i, Idle), StartNotify(i))], m, [StepAt(i, Inc)], model);
      m := model;
      var r, notify, popped := DcoNotify(i, ToIdle);
      res, turns, at := r, first + notify, popped;
      Join(s, first, m, notify, model);
      RanGrows(initial, m, notify, model);
      Pair(Turn(Slot(i, Idle), StartNotify(i)), StepAt(i, Inc), notify);
    }

    method Increment(ghost i: nat)
      requires Valid() && IsAt(i, Inc)
      modifies this
      ensures Valid() && IsAt(i, PopQ(ToIdle))
      ensures Ran(old(model), [StepAt(i, Inc)], model) && model.notifies > old(model.notifies)
    {
      ghost var s := model;
      Others(i);
      OthersGrow(initial, s, model, i, Inc);
      sem := sem + 1;
      TakeOwn(s, i, Inc);
    }

    /** `dco_notify`: 1 exactly when it popped a context, and that one is always woken; -1 exactly when
        the queue, in the state `at`, was empty. */
    method DcoNotify(ghost i: nat, ghost after: After) returns (res: int, ghost turns: Turns, ghost at: State)
      requires Valid() && IsAt(i, PopQ(after))
      modifies this
      ensures Valid() && IsAt(i, PcAfter(after))
      ensures Ran(old(model), turns, model) && NotifyTurns(i, after, res, turns)
      ensures OthersRan(old(model), at, i, PopQ(after))
      ensures (res == 1 <==> at.queue != multiset{}) && (res == -1 <==> at.queue == multiset{})
    {
      ghost var s := model;
      var found, c, pop, before := Pop(i, after);
      turns, at := [pop], before;
      if !found {
        return -1, turns, at;
      }
      ghost var m := model;
      res := ResumePopped(i, after, c);
      Join(s, turns, m, [StepAt(i, ResumeIt(after, c))], model);
      turns := turns + [StepAt(i, ResumeIt(after, c))];
      Pair(pop, StepAt(i, ResumeIt(after, c)), []);
      res := if res >= 0 then 1 else -1;
    }

    method Pop(ghost i: nat, ghost after: After) returns (found: bool, c: nat, ghost turn: Turn<Slot, Action>, ghost at: State)
      requires Valid() && IsAt(i, PopQ(after))
      modifies this
      ensures OthersRan(old(model), at, i, PopQ(after)) && (found <==> at.queue != multiset{})
      ensures Valid() && IsAt(i, if found then ResumeIt(after, c) else PcAfter(after))
      ensures Ran(old(model), [turn], model)
      ensures turn == Turn(Slot(i, PopQ(after)), if found then Action.Pop(i, c) else PopNothing(i))
    {
      ghost var s := model;
      Others(i);
      at := model;
      c, found := 0, que != [];
      if found {
        c := TakeFront(s, i, after);
        turn := Turn(Slot(i, PopQ(after)), Action.Pop(i, c));
      } else {
        turn := Turn(Slot(i, PopQ(after)), PopNothing(i));
        TakePop(s, i, after, PopNothing(i));
      }
    }

    method TakeFront(ghost s: State, ghost i: nat, ghost after: After) returns (c: nat)
      requires Valid() && IsAt(i, PopQ(after)) && que != [] && OthersRan(s, model, i, PopQ(after))
      modifies this
      ensures Valid() && IsAt(i, ResumeIt(after, c))
      ensures Ran(s, [Turn(Slot(i, PopQ(after)), Action.Pop(i, c))], model)
    {
      c := que[0];
      Counting.PopFront(que);
      QueuedExists(initial, model, c);
      que := que[1..];
      TakePop(s, i, after, Action.Pop(i, c));
    }

    method ResumePopped(ghost i: nat, ghost after: After, c: nat) returns (res: int)
      requires Valid() && IsAt(i, ResumeIt(after, c))
      modifies this
      ensures Valid() && IsAt(i, PcAfter(after)) && res >= 0
      ensures Ran(old(model), [StepAt(i, ResumeIt(after, c))], model)
    {
      ghost var s := model;
      Others(i);
      PoppedWakes(initial, model, i, c);
      ResumeFields(model, i, after, c);
      res := ResultOf(Attempt(Resume, status[c]));
      status := status[c := StatusAfter(Attempt(Resume, status[c]), status[c])];
      Take(s, i, ResumeIt(after, c), Step(i));
    }
  }

  lemma PoppedWakes(initial: int, m: State, i: nat, c: nat)
    requires Reachable(initial, m) && i < |m.actors| && m.actors[i].pc.ResumeIt? && m.actors[i].pc.c == c
    ensures c < |m.actors| && Attempt(Resume, m.actors[c].status).Move?
  {
    WakeupsSucceed(initial, m, i);
  }

  /** What a step of context i leaves that concerns nobody else. */
  ghost predicate OwnStep(m: State, i: nat, t: State)
    requires i < |m.actors|
  {
    var x := m.actors[i];
    && |t.actors| == |m.actors|
    && (forall k :: 0 <= k < |m.actors| && k != i ==> t.actors[k].status == m.actors[k].status)
    && t.sem == (if x.pc.Inc? then m.sem + 1 else if x.pc.TryDec? && m.sem > 0 then m.sem - 1 else m.sem)
    && t.notifies == (if x.pc.Inc? then m.notifies + 1 else m.notifies)
    && t.waits == (if x.pc.TryDec? && m.sem > 0 then m.waits + 1 else m.waits)
    && t.queue == (if x.pc.PushQ? then m.queue + multiset{i} else m.queue)
    && t.actors[i].pc == OwnPc(m, x)
    && t.actors[i].status == OwnStatus(x)
  }

  function OwnPc(m: State, x: Actor): Pc {
    match x.pc
    case TryDec => if m.sem > 0 then Idle else Enter
    case Enter => if Attempt(Yield, x.status).Move? then Check else TryDec
    case Check => if m.sem > 0 then SelfResume else PushQ
    case SelfResume => SwitchOut
    case PushQ => Recheck
    case Recheck => if m.sem > 0 then PopQ(ToSwitch) else SwitchOut
    case SwitchOut => Off
    case Off => TryDec
    case Inc => PopQ(ToIdle)
    case _ => x.pc
  }

  function OwnStatus(x: Actor): Status {
    match x.pc
    case Enter => StatusAfter(Attempt(Yield, x.status), x.status)
    case SelfResume => StatusAfter(Attempt(Resume, x.status), x.status)
    case SwitchOut => StatusAfter(Attempt(Sw, x.status), x.status)
    case _ => x.status
  }

  lemma OwnFields(m: State, i: nat)
    requires Enabled(m, Step(i)) && !m.actors[i].pc.ResumeIt?
    ensures OwnStep(m, i, Apply(m, Step(i)))
  {}

  /** What the resume of a popped context leaves. */
  lemma ResumeFields(m: State, i: nat, after: After, c: nat)
    requires i < |m.actors| && m.actors[i].pc == ResumeIt(after, c) && c < |m.actors|
    ensures Enabled(m, Step(i))
    ensures var t := Apply(m, Step(i));
            && t.sem == m.sem && t.queue == m.queue && |t.actors| == |m.actors|
            && t.actors[i].pc == PcAfter(after)
            && t.actors[c].status == StatusAfter(Attempt(Resume, m.actors[c].status), m.actors[c].status)
            && forall k :: 0 <= k < |m.actors| && k != c ==> t.actors[k].status == m.actors[k].status
  {}

  /** What a pop leaves. */
  ghost predicate PopStep(m: State, after: After, a: Action, t: State) {
    && t.sem == m.sem && a.i < |t.actors| == |m.actors|
    && t.queue == (if a.Pop? then m.queue - multiset{a.c} else m.queue)
    && t.actors[a.i].pc == (if a.Pop? then ResumeIt(after, a.c) else PcAfter(after))
    && forall k :: 0 <= k < |m.actors| ==> t.actors[k].status == m.actors[k].status
  }

  lemma PopFields(m: State, after: After, a: Action)
    requires Enabled(m, a) && (a.Pop? || a.PopNothing?) && m.actors[a.i].pc == PopQ(after)
    ensures PopStep(m, after, a, Apply(m, a))
  {}

  lemma AwakeCanGoOn(m: State, i: nat)
    requires i < |m.actors| && m.actors[i].pc.Off? && m.actors[i].status.Ready?
    ensures Enabled(m, Step(i)) && OwnPc(m, m.actors[i]) == TryDec
  {}

  lemma QueuedExists(initial: int, m: State, c: nat)
    requires Reachable(initial, m) && c in m.queue
    ensures c < |m.actors|
  {
    ReachableInv(initial, m);
  }
}
