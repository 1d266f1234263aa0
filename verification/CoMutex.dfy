/**
 `comutex` as code: `lock` up to its first wait and `unlock`.  Between any two atomic operations of a
 method other contexts may take any steps (`Others`).  Every method states the run it is part of:
 from the old state to the new one in which its context takes exactly the named steps (`Ran`).
 */
module CoMutex {
  import opened CoStatus
  import opened Runs
  import Counting
  import Sem = Semaphore
  import opened Mutex

  /** Context i is at `pc`. */
  datatype Slot = Slot(i: nat, pc: Pc)

  type Turns = seq<Turn<Slot, Action>>

  ghost predicate Stands(s: State, slot: Slot) {
    slot.i < |s.actors| && s.actors[slot.i].pc == slot.pc
  }

  /** Other contexts lead from `s` to `t` while context i stays at `pc`. */
  ghost predicate OthersRan(s: State, t: State, i: nat, pc: Pc) {
    Meanwhile(Sys(), Stands, s, t, Slot(i, pc))
  }

  /** A run from `s` to `t` in which the context takes exactly the steps `turns`. */
  ghost predicate Ran(s: State, turns: Turns, t: State) {
    Path(Sys(), Stands, s, turns, t)
  }

  /** One step of context i that is at `pc`. */
  function StepAt(i: nat, pc: Pc): Turn<Slot, Action> { Turn(Slot(i, pc), Step(i)) }

  lemma Join(s: State, xs: Turns, m: State, ys: Turns, t: State)
    requires Ran(s, xs, m) && Ran(m, ys, t)
    ensures Ran(s, xs + ys, t)
  {
    Chain(Sys(), Stands, s, xs, m, ys, t);
  }

  /** A run that ends with others at work while the context is at `pc`. */
  ghost predicate Paused(s: State, turns: Turns, t: State, i: nat, pc: Pc) {
    exists m :: Ran(s, turns, m) && OthersRan(m, t, i, pc)
  }

  /** `lock` up to its end or its first wait. */
  ghost predicate LockTurns(i: nat, acquired: bool, turns: Turns) {
    turns == [Turn(Slot(i, Outside), Action.Lock(i)), StepAt(i, Futex(Sem.TryDec))]
             + if acquired then [StepAt(i, Record)] else []
  }

  const POP: Pc := Futex(Sem.PopQ(Sem.ToIdle))

  /** `dco_notify` in `unlock`: pop and resume, or an empty queue. */
  ghost predicate NotifyTurns(i: nat, woken: bool, turns: Turns) {
    if !woken then turns == [Turn(Slot(i, POP), PopNothing(i))]
    else exists c :: turns == [Turn(Slot(i, POP), Action.Pop(i, c)), StepAt(i, Futex(Sem.ResumeIt(Sem.ToIdle, c)))]
  }

  /** `unlock`: the test of the holder, the release of the flag, the wake-up. */
  ghost predicate UnlockTurns(i: nat, woken: bool, turns: Turns) {
    exists notify :: NotifyTurns(i, woken, notify) && turns == [StepAt(i, Held), StepAt(i, Release)] + notify
  }

  // ---- single steps ----------------------------------------------------------------------

  /** The steps of `lock` and `unlock` that only concern the flag and the holder. */
  predicate OwnPlace(pc: Pc) {
    pc == Futex(Sem.TryDec) || pc.Record? || pc.Held? || pc.Release?
  }

  ghost predicate OwnStep(m: State, i: nat, t: State)
    requires i < |m.actors|
  {
    var pc := m.actors[i].pc;
    && |t.actors| == |m.actors| && t.queue == m.queue
    && (forall k :: 0 <= k < |m.actors| ==> t.actors[k].status == m.actors[k].status)
    && t.flag == (pc.Futex? || (m.flag && !pc.Release?))
    && t.current == (if pc.Record? then Ctx(i) else m.current)
    && (pc.Futex? ==> t.actors[i].pc == if m.flag then Futex(Sem.Enter) else Record)
    && (pc.Record? ==> t.actors[i].pc == Held)
    && (pc.Held? ==> t.actors[i].pc == if m.current == Ctx(i) then Release else Held)
    && (pc.Release? ==> t.actors[i].pc == if m.flag then POP else Outside)
  }

  lemma OwnFields(m: State, i: nat)
    requires i < |m.actors| && OwnPlace(m.actors[i].pc)
    ensures Enabled(m, Step(i)) && OwnStep(m, i, Apply(m, Step(i)))
  {}

  /** What the resume of a popped context leaves. */
  lemma ResumeFields(m: State, i: nat, c: nat)
    requires i < |m.actors| && m.actors[i].pc == Futex(Sem.ResumeIt(Sem.ToIdle, c)) && c < |m.actors|
    ensures Enabled(m, Step(i))
    ensures var t := Apply(m, Step(i));
            && t.flag == m.flag && t.current == m.current && t.queue == m.queue && |t.actors| == |m.actors|
            && t.actors[i].pc == Outside
            && t.actors[c].status == StatusAfter(Attempt(Resume, m.actors[c].status), m.actors[c].status)
            && forall k :: 0 <= k < |m.actors| && k != c ==> t.actors[k].status == m.actors[k].status
  {}

  /** What a pop leaves. */
  ghost predicate PopStep(m: State, a: Action, t: State) {
    && t.flag == m.flag && t.current == m.current && a.i < |t.actors| == |m.actors|
    && t.queue == (if a.Pop? then m.queue - multiset{a.c} else m.queue)
    && t.actors[a.i].pc == (if a.Pop? then Futex(Sem.ResumeIt(Sem.ToIdle, a.c)) else Outside)
    && forall k :: 0 <= k < |m.actors| ==> t.actors[k].status == m.actors[k].status
  }

  lemma PopFields(m: State, a: Action)
    requires Enabled(m, a) && (a.Pop? || a.PopNothing?) && m.actors[a.i].pc == POP
    ensures PopStep(m, a, Apply(m, a))
  {}

  class CoMutex {
    var flag: bool            // flag_
    var current: Current      // ctx_curr_
    var que: seq<nat>         // ctx_que_
    var status: seq<Status>   // the status of each context
    /** The state of the transition system: the fields, and where each context is. */
    ghost var model: State

    ghost predicate Valid()
      reads this
    {
      && Reachable(model)
      && model.flag == flag && model.current == current && model.queue == multiset(que)
      && |model.actors| == |status|
      && forall i :: 0 <= i < |status| ==> model.actors[i].status == status[i]
    }

    ghost predicate IsAt(i: nat, pc: Pc)
      reads this
    {
      Stands(model, Slot(i, pc))
    }

    constructor (n: nat)
      ensures Valid() && |status| == n && Initial(model)
      ensures forall i :: 0 <= i < n ==> IsAt(i, Outside)
    {
      flag, current, que, status := false, Null, [], seq(n, i => Ready);
      model := State(seq(n, i => Actor(Outside, Ready, Sem.Nowhere)), multiset{}, false, Null);
      new;
      LeadsNowhere(Sys(), model);
    }

    /** Any steps of other contexts while context i stays where it is. */
    method Others(ghost i: nat)
      requires Valid() && i < |model.actors|
      modifies this
      ensures Valid() && OthersRan(old(model), model, i, old(model).actors[i].pc)
      ensures IsAt(i, old(model).actors[i].pc)
    {
      NothingHappens(Sys(), Stands, model, Slot(i, model.actors[i].pc));
    }

    /** The step `a` of context i, after others have led from `s` to the present state. */
    ghost method Take(s: State, i: nat, pc: Pc, a: Action)
      requires Reachable(model) && OthersRan(s, model, i, pc) && Enabled(model, a)
      modifies this`model
      ensures Reachable(model) && model == Apply(old(model), a)
      ensures Ran(s, [Turn(Slot(i, pc), a)], model)
    {
      ReachableStep(model, a);
      OneTurn(Sys(), Stands, s, model, Turn(Slot(i, pc), a));
      model := Apply(model, a);
    }

    ghost method TakeOwn(s: State, i: nat, pc: Pc)
      requires Reachable(model) && OthersRan(s, model, i, pc) && IsAt(i, pc) && OwnPlace(pc)
      modifies this`model
      ensures Reachable(model) && OwnStep(old(model), i, model)
      ensures Ran(s, [StepAt(i, pc)], model)
    {
      OwnFields(model, i);
      Take(s, i, pc, Step(i));
    }

    ghost method TakePop(s: State, i: nat, a: Action)
      requires Reachable(model) && OthersRan(s, model, i, POP) && IsAt(i, POP) && a.i == i
      requires Enabled(model, a) && (a.Pop? || a.PopNothing?)
      modifies this`model
      ensures Reachable(model) && PopStep(old(model), a, model)
      ensures Ran(s, [Turn(Slot(i, POP), a)], model)
    {
      PopFields(model, a);
      Take(s, i, POP, a);
    }

    /** `lock`: either the context holds the mutex alone, or it goes on to wait for it, as the flag says
        in the state `at`, where it is exchanged. */
    method Lock(i: nat) returns (acquired: bool, ghost turns: Turns, ghost at: State)
      requires Valid() && IsAt(i, Outside)
      modifies this
      ensures Valid() && IsAt(i, if acquired then Held else Futex(Sem.Enter))
      ensures Ran(old(model), turns, model) && LockTurns(i, acquired, turns)
      ensures Paused(old(model), [Turn(Slot(i, Outside), Action.Lock(i))], at, i, Futex(Sem.TryDec))
      ensures acquired <==> !at.flag
      ensures acquired ==>
                flag && current == Ctx(i) && forall j :: 0 <= j < |status| && j != i ==> !Inside(model.actors[j])
    {
      ghost var s := model;
      acquired, turns, at := TryLock(i);
      if acquired {
        ghost var m := model;
        RecordHolder(i);
        Join(s, turns, m, [StepAt(i, Record)], model);
        turns := turns + [StepAt(i, Record)];
        Alone(i);
      } else {
        assert turns + [] == turns;
      }
    }

    lemma Alone(i: nat)
      requires Valid() && IsAt(i, Held)
      ensures flag && current == Ctx(i) && forall j :: 0 <= j < |status| && j != i ==> !Inside(model.actors[j])
    {
      forall j | 0 <= j < |status| && Inside(model.actors[j])
        ensures j == i
      {
        MutualExclusion(model, i, j);
      }
      MutualExclusion(model, i, i);
    }

    method TryLock(i: nat) returns (acquired: bool, ghost turns: Turns, ghost at: State)
      requires Valid() && IsAt(i, Outside)
      modifies this
      ensures Valid() && IsAt(i, if acquired then Record else Futex(Sem.Enter))
      ensures Ran(old(model), turns, model)
      ensures turns == [Turn(Slot(i, Outside), Action.Lock(i)), StepAt(i, Futex(Sem.TryDec))]
      ensures Paused(old(model), [Turn(Slot(i, Outside), Action.Lock(i))], at, i, Futex(Sem.TryDec))
      ensures acquired <==> !at.flag
    {
      ghost var s := model;
      Begin(i);
      ghost var m := model;
      acquired, at := ExchangeFlag(i);
      Join(s, [Turn(Slot(i, Outside), Action.Lock(i))], m, [StepAt(i, Futex(Sem.TryDec))], model);
      turns := [Turn(Slot(i, Outside), Action.Lock(i))] + [StepAt(i, Futex(Sem.TryDec))];
    }

    ghost method Begin(i: nat)
      requires Valid() && IsAt(i, Outside)
      modifies this`model
      ensures Valid() && IsAt(i, Futex(Sem.TryDec))
      ensures Ran(old(model), [Turn(Slot(i, Outside), Action.Lock(i))], model)
    {
      NothingHappens(Sys(), Stands, model, Slot(i, Outside));
      Take(model, i, Outside, Action.Lock(i));
    }

    /** `flag_.exchange(true)` */
    method ExchangeFlag(ghost i: nat) returns (acquired: bool, ghost at: State)
      requires Valid() && IsAt(i, Futex(Sem.TryDec))
      modifies this
      ensures OthersRan(old(model), at, i, Futex(Sem.TryDec)) && (acquired <==> !at.flag)
      ensures Valid() && IsAt(i, if acquired then Record else Futex(Sem.Enter))
      ensures Ran(old(model), [StepAt(i, Futex(Sem.TryDec))], model)
    {
      ghost var s := model;
      Others(i);
      at := model;
      acquired := ExchangeNow(s, i);
    }

    method ExchangeNow(ghost s: State, ghost i: nat) returns (acquired: bool)
      requires Valid() && IsAt(i, Futex(Sem.TryDec)) && OthersRan(s, model, i, Futex(Sem.TryDec))
      modifies this`flag, this`model
      ensures Valid() && IsAt(i, if acquired then Record else Futex(Sem.Enter))
      ensures acquired <==> !old(model).flag
      ensures Ran(s, [StepAt(i, Futex(Sem.TryDec))], model)
    {
      acquired := !flag;
      flag := true;
      TakeOwn(s, i, Futex(Sem.TryDec));
    }

    method RecordHolder(i: nat)
      requires Valid() && IsAt(i, Record)
      modifies this
      ensures Valid() && IsAt(i, Held)
      ensures Ran(old(model), [StepAt(i, Record)], model)
    {
      ghost var s := model;
      Others(i);
      current := Ctx(i);
      TakeOwn(s, i, Record);
    }

    /** `unlock` by the holder: the two tests that could refuse it never do, the flag is released and
        a waiter woken if the queue, in the state `at`, has one. */
    method Unlock(i: nat) returns (ok: bool, ghost turns: Turns, ghost at: State)
      requires Valid() && IsAt(i, Held)
      modifies this
      ensures Valid() && ok && IsAt(i, Outside)
      ensures Ran(old(model), turns, model) && UnlockTurns(i, at.queue != multiset{}, turns)
      ensures Paused(old(model), [StepAt(i, Held), StepAt(i, Release)], at, i, POP)
    {
      ghost var s := model;
      ok := TestHolder(i);
      ghost var m := model;
      var was := ClearFlag(i);
      ok := ok && was;
      Join(s, [StepAt(i, Held)], m, [StepAt(i, Release)], model);
      m := model;
      ghost var notify;
      notify, at := DcoNotify(i);
      Join(s, [StepAt(i, Held)] + [StepAt(i, Release)], m, notify, model);
      turns := [StepAt(i, Held)] + [StepAt(i, Release)] + notify;
      assert [StepAt(i, Held)] + [StepAt(i, Release)] == [StepAt(i, Held), StepAt(i, Release)];
    }

    method TestHolder(i: nat) returns (ok: bool)
      requires Valid() && IsAt(i, Held)
      modifies this
      ensures Valid() && ok && IsAt(i, Release)
      ensures Ran(old(model), [StepAt(i, Held)], model)
    {
      ghost var s := model;
      Others(i);
      Alone(i);
      ok := current == Ctx(i);
      TakeOwn(s, i, Held);
    }

    /** `flag_.exchange(false)` */
    method ClearFlag(ghost i: nat) returns (was: bool)
      requires Valid() && IsAt(i, Release)
      modifies this
      ensures Valid() && was && !flag && IsAt(i, POP)
      ensures Ran(old(model), [StepAt(i, Release)], model)
    {
      ghost var s := model;
      Others(i);
      MutualExclusion(model, i, i);
      was := flag;
      flag := false;
      TakeOwn(s, i, Release);
    }

    method DcoNotify(ghost i: nat) returns (ghost turns: Turns, ghost at: State)
      requires Valid() && IsAt(i, POP)
      modifies this
      ensures Valid() && IsAt(i, Outside)
      ensures Ran(old(model), turns, model) && NotifyTurns(i, at.queue != multiset{}, turns)
      ensures OthersRan(old(model), at, i, POP)
    {
      ghost var s := model;
      var found, c, pop, before := Pop(i);
      turns, at := [pop], before;
      if found {
        ghost var m, resume := model, StepAt(i, Futex(Sem.ResumeIt(Sem.ToIdle, c)));
        ResumePopped(i, c);
        Join(s, turns, m, [resume], model);
        turns := turns + [resume];
        assert turns == [pop, resume];
      }
    }

    method Pop(ghost i: nat) returns (found: bool, c: nat, ghost turn: Turn<Slot, Action>, ghost at: State)
      requires Valid() && IsAt(i, POP)
      modifies this
      ensures OthersRan(old(model), at, i, POP) && (found <==> at.queue != multiset{})
      ensures Valid() && IsAt(i, if found then Futex(Sem.ResumeIt(Sem.ToIdle, c)) else Outside)
      ensures Ran(old(model), [turn], model)
      ensures turn == Turn(Slot(i, POP), if found then Action.Pop(i, c) else PopNothing(i))
    {
      ghost var s := model;
      Others(i);
      at := model;
      c, found := 0, que != [];
      if found {
        c := TakeFront(s, i);
        turn := Turn(Slot(i, POP), Action.Pop(i, c));
      } else {
        turn := Turn(Slot(i, POP), PopNothing(i));
        TakePop(s, i, PopNothing(i));
      }
    }

    method TakeFront(ghost s: State, ghost i: nat) returns (c: nat)
      requires Valid() && IsAt(i, POP) && que != [] && OthersRan(s, model, i, POP)
      modifies this
      ensures Valid() && IsAt(i, Futex(Sem.ResumeIt(Sem.ToIdle, c)))
      ensures Ran(s, [Turn(Slot(i, POP), Action.Pop(i, c))], model)
    {
      c := que[0];
      Counting.PopFront(que);
      QueuedExists(model, c);
      que := que[1..];
      TakePop(s, i, Action.Pop(i, c));
    }

    method ResumePopped(ghost i: nat, c: nat)
      requires Valid() && IsAt(i, Futex(Sem.ResumeIt(Sem.ToIdle, c)))
      modifies this
      ensures Valid() && IsAt(i, Outside)
      ensures Ran(old(model), [StepAt(i, Futex(Sem.ResumeIt(Sem.ToIdle, c)))], model)
    {
      ghost var s := model;
      Others(i);
      ClaimedExists(model, i, c);
      ResumeFields(model, i, c);
      status := status[c := StatusAfter(Attempt(Resume, status[c]), status[c])];
      Take(s, i, Futex(Sem.ResumeIt(Sem.ToIdle, c)), Step(i));
    }
  }

  lemma QueuedExists(m: State, c: nat)
    requires Reachable(m) && c in m.queue
    ensures c < |m.actors|
  {
    var l, u := MutexIsSemaphore(m);
    Sem.ReachableInv(1, Abs(m, l, u));
  }

  lemma ClaimedExists(m: State, i: nat, c: nat)
    requires Reachable(m) && i < |m.actors| && m.actors[i].pc == Futex(Sem.ResumeIt(Sem.ToIdle, c))
    ensures c < |m.actors|
  {
    var l, u := MutexIsSemaphore(m);
    Sem.WakeupsSucceed(1, Abs(m, l, u), i);
  }
}
