/**
 `comutexshared` as code: the four operations as methods on the real counters.  Between any two
 atomic operations of a method other threads may take any steps (`Others`).  Every method states the
 run it is part of: from the old state to the new one in which its thread takes exactly the named
 steps (`Ran`).
 */
module SharedLock {
  import opened Runs
  import opened Counting
  import opened SharedMutex

  /** Thread i is at `pc`. */
  datatype Slot = Slot(i: nat, pc: Pc)

  type Turns = seq<Turn<Slot, Action>>

  ghost predicate Stands(s: State, slot: Slot) {
    slot.i < |s.threads| && s.threads[slot.i] == slot.pc
  }

  /** Other threads lead from `s` to `t` while thread i stays at `pc`. */
  ghost predicate OthersRan(s: State, t: State, i: nat, pc: Pc) {
    Meanwhile(Sys(), Stands, s, t, Slot(i, pc))
  }

  /** A run from `s` to `t` in which the thread takes exactly the steps `turns`. */
  ghost predicate Ran(s: State, turns: Turns, t: State) {
    Path(Sys(), Stands, s, turns, t)
  }

  /** One step of thread i that is at `pc`. */
  function StepAt(i: nat, pc: Pc): Turn<Slot, Action> { Turn(Slot(i, pc), Step(i)) }

  lemma Join(s: State, xs: Turns, m: State, ys: Turns, t: State)
    requires Ran(s, xs, m) && Ran(m, ys, t)
    ensures Ran(s, xs + ys, t)
  {
    Chain(Sys(), Stands, s, xs, m, ys, t);
  }

  lemma RanNothing(s: State)
    ensures Ran(s, [], s)
  {}

  /** A run that ends with others at work while the thread waits at `pc`. */
  ghost predicate Paused(s: State, turns: Turns, t: State, i: nat, pc: Pc) {
    exists m :: Ran(s, turns, m) && OthersRan(m, t, i, pc)
  }

  lemma JoinPaused(s: State, xs: Turns, m: State, ys: Turns, t: State, i: nat, pc: Pc)
    requires Ran(s, xs, m) && Paused(m, ys, t, i, pc)
    ensures Paused(s, xs + ys, t, i, pc)
  {
    var n :| Ran(m, ys, n) && OthersRan(n, t, i, pc);
    Join(s, xs, m, ys, n);
  }

  /** What a step of thread i leaves. */
  ghost predicate OwnStep(m: State, i: nat, t: State)
    requires i < |m.threads|
  {
    var pc := m.threads[i];
    && t.threads == m.threads[i := OwnPc(m, pc)]
    && t.count == (if pc.Reading? then m.count - 1 else if pc.WSub? then m.count - RW_MAX
                   else if pc.Writing? then m.count + RW_MAX else m.count)
    && t.wait == (if pc.RDec? then m.wait - 1 else if pc.WAdd? then m.wait + pc.r else m.wait)
    && t.rsem == (if pc.RWait? then m.rsem - 1 else if pc.WRelease? && pc.r != 0 then m.rsem + 1 else m.rsem)
    && t.wsem == (if pc.WWait? then m.wsem - 1 else if pc.RNotify? then m.wsem + 1 else m.wsem)
    && t.wmtx == (pc.WLock? || (m.wmtx && !pc.WUnlock?))
  }

  function OwnPc(m: State, pc: Pc): Pc {
    match pc
    case Idle => Idle
    case RWait => Reading
    case Reading => if m.count - 1 >= 0 then Idle else RDec
    case RDec => if m.wait - 1 == 0 then RNotify else Idle
    case RNotify => Idle
    case WLock => WSub
    case WSub => WAdd(m.count)
    case WAdd(r) => if r == 0 || m.wait + r == 0 then Writing else WWait
    case WWait => Writing
    case Writing => WRelease(m.count + RW_MAX)
    case WRelease(r) => if r == 0 then WUnlock else WRelease(r - 1)
    case WUnlock => Idle
  }

  lemma OwnFields(m: State, i: nat)
    requires Enabled(m, Step(i))
    ensures OwnStep(m, i, Next(m, Step(i)))
  {}

  lemma ArriveFields(m: State, a: Action)
    requires Enabled(m, a) && !a.Step?
    ensures var t := Next(m, a);
            && t.threads == m.threads[a.i := if a.Lock? then WLock else if m.count + 1 < 0 then RWait else Reading]
            && t.count == (if a.Lock? then m.count else m.count + 1)
            && t.wait == m.wait && t.rsem == m.rsem && t.wsem == m.wsem && t.wmtx == m.wmtx
  {}

  // ---- the steps of the operations -------------------------------------------------------

  /** `lock_shared` up to its end or its wait: whether it waits is decided by `count_`. */
  ghost predicate LockSharedTurns(i: nat, waited: bool, entered: bool, turns: Turns) {
    turns == [Turn(Slot(i, Idle), Action.LockShared(i))] + if waited && entered then [StepAt(i, RWait)] else []
  }

  /** `unlock_shared`: leave; if a writer is there, say so; if it was the last reader, notify. */
  ghost predicate UnlockSharedTurns(i: nat, writer: bool, last: bool, turns: Turns) {
    turns == [StepAt(i, Reading)] + (if writer then [StepAt(i, RDec)] else [])
                                  + (if writer && last then [StepAt(i, RNotify)] else [])
  }

  /** How far `lock` comes before it returns or waits; r readers were inside when it marked itself. */
  datatype Progress = NoMutex | Waiting(r: int) | Inside(r: int, notified: bool)

  /** `lock`: the mutex, the mark, the count of readers to wait for, their notify. */
  ghost predicate LockTurns(i: nat, progress: Progress, turns: Turns) {
    turns == [Turn(Slot(i, Idle), Action.Lock(i))]
             + match progress
               case NoMutex => []
               case Waiting(r) => [StepAt(i, WLock), StepAt(i, WSub), StepAt(i, WAdd(r))]
               case Inside(r, notified) =>
                 [StepAt(i, WLock), StepAt(i, WSub), StepAt(i, WAdd(r))] + if notified then [StepAt(i, WWait)] else []
  }

  /** The loop of `unlock`: one notify for each of r readers, then the end of the loop. */
  function ReleaseTurns(i: nat, r: nat): Turns {
    if r == 0 then [StepAt(i, WRelease(0))] else [StepAt(i, WRelease(r))] + ReleaseTurns(i, r - 1)
  }

  /** `unlock`: unmark, release r readers, give the mutex back. */
  ghost predicate UnlockTurns(i: nat, r: nat, turns: Turns) {
    turns == [StepAt(i, Writing)] + ReleaseTurns(i, r) + [StepAt(i, WUnlock)]
  }

  class CoMutexShared {
    var count: int   // count_
    var wait: int    // wait_
    var rsem: int    // the value of rsem_
    var wsem: int    // the value of wsem_
    var wmtx: bool   // whether wmtx_ is taken
    /** The number of threads. */
    ghost const n: nat
    /** The state of the transition system: the fields, and where each thread is. */
    ghost var model: State

    ghost predicate Valid()
      reads this
    {
      && Reachable(n, model) && |model.threads| == n
      && model.count == count && model.wait == wait && model.rsem == rsem && model.wsem == wsem && model.wmtx == wmtx
    }

    ghost predicate IsAt(i: nat, pc: Pc)
      reads this
    {
      Stands(model, Slot(i, pc))
    }

    constructor (ghost n: nat)
      ensures Valid() && this.n == n && Initial(model)
    {
      this.n := n;
      count, wait, rsem, wsem, wmtx := 0, 0, 0, 0, false;
      model := State(seq(n, i => Idle), 0, 0, 0, 0, false, Idle, 0);
      new;
      LeadsNowhere(Sys(), model);
    }

    /** Any steps of other threads while thread i stays where it is. */
    method Others(ghost i: nat)
      requires Valid() && i < n
      modifies this
      ensures Valid() && OthersRan(old(model), model, i, old(model).threads[i])
      ensures IsAt(i, old(model).threads[i])
    {
      NothingHappens(Sys(), Stands, model, Slot(i, model.threads[i]));
    }

    /** The step `a` of thread i, after others have led from `s` to the present state. */
    ghost method Take(s: State, i: nat, pc: Pc, a: Action)
      requires Reachable(n, model) && |model.threads| == n && OthersRan(s, model, i, pc) && Enabled(model, a)
      modifies this`model
      ensures Reachable(n, model) && model == Next(old(model), a) && |model.threads| == n
      ensures Ran(s, [Turn(Slot(i, pc), a)], model)
    {
      ReachableStep(n, model, a);
      SameThreads(model, a);
      OneTurn(Sys(), Stands, s, model, Turn(Slot(i, pc), a));
      model := Next(model, a);
    }

    ghost method TakeOwn(s: State, i: nat, pc: Pc)
      requires Reachable(n, model) && |model.threads| == n && OthersRan(s, model, i, pc)
      requires IsAt(i, pc) && Enabled(model, Step(i))
      modifies this`model
      ensures Reachable(n, model) && |model.threads| == n && OwnStep(old(model), i, model)
      ensures model == Next(old(model), Step(i))
      ensures Ran(s, [StepAt(i, pc)], model)
    {
      OwnFields(model, i);
      Take(s, i, pc, Step(i));
    }

    /** `lock_shared`: whether it waits is decided in the state `at`, where it counts itself.  `entered`
        is false when the thread is left waiting in `rsem_.wait()`, which has no token for it. */
    method LockShared(ghost i: nat) returns (entered: bool, ghost waited: bool, ghost turns: Turns, ghost at: State)
      requires Valid() && IsAt(i, Idle)
      modifies this
      ensures Valid() && IsAt(i, if entered then Reading else RWait)
      ensures if entered then Ran(old(model), turns, model) else waited && Paused(old(model), turns, model, i, RWait)
      ensures LockSharedTurns(i, waited, entered, turns)
      ensures OthersRan(old(model), at, i, Idle) && (waited <==> at.count + 1 < 0)
      ensures !entered ==> rsem == 0 && !Enabled(model, Step(i))
      ensures entered && (model.peak < 0x4000_0000 || n <= 0x4000_0000) ==> forall j :: 0 <= j < n ==> !IsAt(j, Writing)
    {
      ghost var s := model;
      var negative;
      negative, at := Arrive(i);
      entered, waited, turns := true, negative, [Turn(Slot(i, Idle), Action.LockShared(i))];
      assert turns + [] == turns;
      if negative {
        ghost var m := model;
        entered := WaitForReaderToken(i);
        if entered {
          Join(s, turns, m, [StepAt(i, RWait)], model);
          turns := turns + [StepAt(i, RWait)];
        } else {
          assert OthersRan(m, model, i, RWait);
        }
      }
      if model.peak < 0x4000_0000 || n <= 0x4000_0000 { ExclusionHolds(n, model); }
    }

    method Arrive(ghost i: nat) returns (negative: bool, ghost at: State)
      requires Valid() && IsAt(i, Idle)
      modifies this
      ensures OthersRan(old(model), at, i, Idle) && (negative <==> at.count + 1 < 0)
      ensures Valid() && IsAt(i, if negative then RWait else Reading)
      ensures Ran(old(model), [Turn(Slot(i, Idle), Action.LockShared(i))], model)
    {
      ghost var s := model;
      Others(i);
      at := model;
      count := count + 1;
      negative := count < 0;
      ArriveFields(model, Action.LockShared(i));
      Take(s, i, Idle, Action.LockShared(i));
    }

    method WaitForReaderToken(ghost i: nat) returns (got: bool)
      requires Valid() && IsAt(i, RWait)
      modifies this
      ensures Valid() && IsAt(i, if got then Reading else RWait)
      ensures if got then Ran(old(model), [StepAt(i, RWait)], model) else OthersRan(old(model), model, i, RWait)
      ensures !got ==> rsem == 0
    {
      ghost var s := model;
      Others(i);
      ReachableInv(n, model);
      got := rsem > 0;
      if got {
        rsem := rsem - 1;
        TakeOwn(s, i, RWait);
      }
    }

    /** `unlock_shared`: in the state `at` it leaves and sees whether a writer is there; in the state
        `down` it counts itself off and sees whether it was the last. */
    method UnlockShared(ghost i: nat)
      returns (ghost writer: bool, ghost last: bool, ghost turns: Turns, ghost at: State, ghost down: State)
      requires Valid() && IsAt(i, Reading)
      modifies this
      ensures Valid() && IsAt(i, Idle)
      ensures Ran(old(model), turns, model) && UnlockSharedTurns(i, writer, last, turns)
      ensures OthersRan(old(model), at, i, Reading) && (writer <==> at.count - 1 < 0)
      ensures writer ==> Paused(old(model), [StepAt(i, Reading)], down, i, RDec) && (last <==> down.wait - 1 == 0)
    {
      ghost var s := model;
      var negative;
      negative, at := Leave(i);
      down := at;
      writer, last, turns := negative, false, [StepAt(i, Reading)];
      if negative {
        ghost var m := model;
        ghost var more;
        last, more, down := LeaveWaitingWriter(i);
        Join(s, turns, m, more, model);
        turns := turns + more;
        assert turns == [StepAt(i, Reading)] + [StepAt(i, RDec)] + (if last then [StepAt(i, RNotify)] else []);
      } else {
        assert turns == turns + [] + [];
      }
    }

    method Leave(ghost i: nat) returns (negative: bool, ghost at: State)
      requires Valid() && IsAt(i, Reading)
      modifies this
      ensures OthersRan(old(model), at, i, Reading) && (negative <==> at.count - 1 < 0)
      ensures Valid() && IsAt(i, if negative then RDec else Idle)
      ensures Ran(old(model), [StepAt(i, Reading)], model)
    {
      ghost var s := model;
      Others(i);
      at := model;
      count := count - 1;
      negative := count < 0;
      TakeOwn(s, i, Reading);
    }

    method LeaveWaitingWriter(ghost i: nat) returns (ghost last: bool, ghost turns: Turns, ghost down: State)
      requires Valid() && IsAt(i, RDec)
      modifies this
      ensures OthersRan(old(model), down, i, RDec) && (last <==> down.wait - 1 == 0)
      ensures Valid() && IsAt(i, Idle)
      ensures Ran(old(model), turns, model)
      ensures turns == [StepAt(i, RDec)] + if last then [StepAt(i, RNotify)] else []
    {
      ghost var s := model;
      var zero;
      zero, down := CountDown(i);
      last, turns := zero, [StepAt(i, RDec)];
      if zero {
        ghost var m := model;
        NotifyWriter(i);
        Join(s, turns, m, [StepAt(i, RNotify)], model);
        turns := turns + [StepAt(i, RNotify)];
      } else {
        assert turns == turns + [];
      }
    }

    method CountDown(ghost i: nat) returns (zero: bool, ghost down: State)
      requires Valid() && IsAt(i, RDec)
      modifies this
      ensures OthersRan(old(model), down, i, RDec) && (zero <==> down.wait - 1 == 0)
      ensures Valid() && IsAt(i, if zero then RNotify else Idle)
      ensures Ran(old(model), [StepAt(i, RDec)], model)
    {
      ghost var s := model;
      Others(i);
      down := model;
      wait := wait - 1;
      zero := wait == 0;
      TakeOwn(s, i, RDec);
    }

    method NotifyWriter(ghost i: nat)
      requires Valid() && IsAt(i, RNotify)
      modifies this
      ensures Valid() && IsAt(i, Idle)
      ensures Ran(old(model), [StepAt(i, RNotify)], model)
    {
      ghost var s := model;
      Others(i);
      wsem := wsem + 1;
      TakeOwn(s, i, RNotify);
    }

    /** `lock`; `entered` is false when the thread is left waiting for `wmtx_`, which is taken, or in
        `wsem_.wait()`, which has no token for it. */
    method Lock(ghost i: nat) returns (entered: bool, ghost progress: Progress, ghost turns: Turns)
      requires Valid() && IsAt(i, Idle)
      modifies this
      ensures Valid() && entered == progress.Inside? && LockTurns(i, progress, turns)
      ensures match progress
              case NoMutex => IsAt(i, WLock) && Paused(old(model), turns, model, i, WLock) && wmtx
              case Waiting(_) => IsAt(i, WWait) && Paused(old(model), turns, model, i, WWait) && wsem == 0
              case Inside(_, _) => IsAt(i, Writing) && Ran(old(model), turns, model)
      ensures !entered ==> !Enabled(model, Step(i))
      ensures entered && (model.peak < 0x4000_0000 || n <= 0x4000_0000) ==>
                rsem == 0 && forall j :: 0 <= j < n && j != i ==> !IsAt(j, Writing) && !IsAt(j, Reading)
    {
      ghost var s, request := model, [Turn(Slot(i, Idle), Action.Lock(i))];
      entered, progress, turns := false, NoMutex, request;
      Request(i);
      ghost var m := model;
      var got := TakeWriterMutex(i);
      assert request + [] == request;
      if got {
        Join(s, request, m, [StepAt(i, WLock)], model);
        m := model;
        ghost var rest;
        entered, progress, rest := EnterAsWriter(i);
        if entered {
          Join(s, request + [StepAt(i, WLock)], m, rest, model);
        } else {
          JoinPaused(s, request + [StepAt(i, WLock)], m, rest, model, i, WWait);
        }
        WriterShape(i, progress, rest);
        turns := request + [StepAt(i, WLock)] + rest;
      } else {
        assert OthersRan(m, model, i, WLock);
      }
      if entered && (model.peak < 0x4000_0000 || n <= 0x4000_0000) { Alone(i); }
    }

    lemma Alone(i: nat)
      requires Valid() && IsAt(i, Writing) && (model.peak < 0x4000_0000 || n <= 0x4000_0000)
      ensures rsem == 0 && forall j :: 0 <= j < n && j != i ==> !IsAt(j, Writing) && !IsAt(j, Reading)
    {
      ExclusionHolds(n, model);
    }

    lemma WriterShape(i: nat, progress: Progress, rest: Turns)
      requires !progress.NoMutex?
      requires rest == [StepAt(i, WSub), StepAt(i, WAdd(progress.r))]
                       + if progress.Inside? && progress.notified then [StepAt(i, WWait)] else []
      ensures LockTurns(i, progress, [Turn(Slot(i, Idle), Action.Lock(i))] + [StepAt(i, WLock)] + rest)
    {}

    ghost method Request(i: nat)
      requires Valid() && IsAt(i, Idle)
      modifies this`model
      ensures Valid() && IsAt(i, WLock)
      ensures Ran(old(model), [Turn(Slot(i, Idle), Action.Lock(i))], model)
    {
      NothingHappens(Sys(), Stands, model, Slot(i, Idle));
      ArriveFields(model, Action.Lock(i));
      Take(model, i, Idle, Action.Lock(i));
    }

    method TakeWriterMutex(ghost i: nat) returns (got: bool)
      requires Valid() && IsAt(i, WLock)
      modifies this
      ensures Valid() && IsAt(i, if got then WSub else WLock)
      ensures if got then Ran(old(model), [StepAt(i, WLock)], model) else OthersRan(old(model), model, i, WLock)
      ensures !got ==> wmtx
    {
      ghost var s := model;
      Others(i);
      got := !wmtx;
      if got {
        wmtx := true;
        TakeOwn(s, i, WLock);
      }
    }

    method EnterAsWriter(ghost i: nat) returns (entered: bool, ghost progress: Progress, ghost turns: Turns)
      requires Valid() && IsAt(i, WSub)
      modifies this
      ensures Valid() && IsAt(i, if entered then Writing else WWait)
      ensures !progress.NoMutex? && entered == progress.Inside?
      ensures turns == [StepAt(i, WSub), StepAt(i, WAdd(progress.r))]
                       + if progress.Inside? && progress.notified then [StepAt(i, WWait)] else []
      ensures if entered then Ran(old(model), turns, model) else Paused(old(model), turns, model, i, WWait)
      ensures !entered ==> wsem == 0
    {
      ghost var s := model;
      var r := MarkWriter(i);
      ghost var m := model;
      entered := AddReaders(i, r);
      progress := if entered then Inside(r, false) else Waiting(r);
      Join(s, [StepAt(i, WSub)], m, [StepAt(i, WAdd(r))], model);
      turns := [StepAt(i, WSub), StepAt(i, WAdd(r))];
      assert turns == [StepAt(i, WSub)] + [StepAt(i, WAdd(r))] && turns + [] == turns;
      if !entered {
        m := model;
        entered := WaitForReaders(i);
        if entered {
          progress := Inside(r, true);
          Join(s, turns, m, [StepAt(i, WWait)], model);
          turns := turns + [StepAt(i, WWait)];
        } else {
          assert OthersRan(m, model, i, WWait);
        }
      }
    }

    method MarkWriter(ghost i: nat) returns (r: int)
      requires Valid() && IsAt(i, WSub)
      modifies this
      ensures Valid() && IsAt(i, WAdd(r))
      ensures Ran(old(model), [StepAt(i, WSub)], model)
    {
      ghost var s := model;
      Others(i);
      count := count - RW_MAX;
      r := count + RW_MAX;
      TakeOwn(s, i, WSub);
    }

    method AddReaders(ghost i: nat, r: int) returns (entered: bool)
      requires Valid() && IsAt(i, WAdd(r))
      modifies this
      ensures Valid() && IsAt(i, if entered then Writing else WWait)
      ensures Ran(old(model), [StepAt(i, WAdd(r))], model)
    {
      ghost var s := model;
      Others(i);
      entered := true;
      if r != 0 {
        wait := wait + r;
        entered := wait == 0;
      }
      TakeOwn(s, i, WAdd(r));
    }

    method WaitForReaders(ghost i: nat) returns (got: bool)
      requires Valid() && IsAt(i, WWait)
      modifies this
      ensures Valid() && IsAt(i, if got then Writing else WWait)
      ensures if got then Ran(old(model), [StepAt(i, WWait)], model) else OthersRan(old(model), model, i, WWait)
      ensures !got ==> wsem == 0
    {
      ghost var s := model;
      Others(i);
      ReachableInv(n, model);
      got := wsem > 0;
      if got {
        wsem := wsem - 1;
        TakeOwn(s, i, WWait);
      }
    }

    /** `unlock`.  That the loop ends is a property of the lock: the number r of its rounds is never
        negative, for it is the number of readers at the time the writer unmarks itself, in the state
        `at`.  While exclusion holds all of these wait. */
    method Unlock(ghost i: nat) returns (ghost at: State, ghost r: nat, ghost turns: Turns)
      requires Valid() && IsAt(i, Writing)
      modifies this
      ensures Valid() && IsAt(i, Idle)
      ensures Ran(old(model), turns, model) && UnlockTurns(i, r, turns)
      ensures Ran(old(model), [StepAt(i, Writing)], at) && r == Readers(at)
      ensures at.peak < 0x4000_0000 || n <= 0x4000_0000 ==> r == Count(at.threads, IsRWait)
    {
      ghost var s := model;
      var rounds := UnmarkWriter(i);
      at, r := model, rounds;
      ghost var release := ReleaseReaders(i, rounds);
      Join(s, [StepAt(i, Writing)], at, release, model);
      ghost var m := model;
      FreeWriterMutex(i);
      Join(s, [StepAt(i, Writing)] + release, m, [StepAt(i, WUnlock)], model);
      turns := [StepAt(i, Writing)] + release + [StepAt(i, WUnlock)];
    }

    method UnmarkWriter(ghost i: nat) returns (r: int)
      requires Valid() && IsAt(i, Writing)
      modifies this
      ensures Valid() && IsAt(i, WRelease(r)) && r == Readers(model)
      ensures model.peak < 0x4000_0000 || n <= 0x4000_0000 ==> r == Count(model.threads, IsRWait)
      ensures Ran(old(model), [StepAt(i, Writing)], model)
    {
      ghost var s := model;
      Others(i);
      RoundsAreReaders(n, model, i);
      count := count + RW_MAX;
      r := count;
      TakeOwn(s, i, Writing);
    }

    method ReleaseReaders(ghost i: nat, rounds: nat) returns (ghost turns: Turns)
      requires Valid() && IsAt(i, WRelease(rounds))
      modifies this
      ensures Valid() && IsAt(i, WUnlock)
      ensures Ran(old(model), turns, model) && turns == ReleaseTurns(i, rounds)
    {
      ghost var s := model;
      var r := rounds;
      turns := [];
      RanNothing(s);
      assert [] + ReleaseTurns(i, rounds) == ReleaseTurns(i, rounds);
      while r != 0
        invariant Valid() && r >= 0 && IsAt(i, WRelease(r))
        invariant Ran(s, turns, model) && turns + ReleaseTurns(i, r) == ReleaseTurns(i, rounds)
        decreases r
      {
        ghost var m := model;
        r := r - 1;
        ReleaseReader(i, r);
        Join(s, turns, m, [StepAt(i, WRelease(r + 1))], model);
        ReleaseShape(turns, i, r);
        turns := turns + [StepAt(i, WRelease(r + 1))];
      }
      ghost var m := model;
      EndRelease(i);
      Join(s, turns, m, [StepAt(i, WRelease(0))], model);
      turns := turns + [StepAt(i, WRelease(0))];
    }

    lemma ReleaseShape(turns: Turns, i: nat, r: nat)
      ensures turns + ReleaseTurns(i, r + 1) == turns + [StepAt(i, WRelease(r + 1))] + ReleaseTurns(i, r)
    {}

    method ReleaseReader(ghost i: nat, ghost r: nat)
      requires Valid() && IsAt(i, WRelease(r + 1))
      modifies this
      ensures Valid() && IsAt(i, WRelease(r))
      ensures Ran(old(model), [StepAt(i, WRelease(r + 1))], model)
    {
      ghost var s := model;
      Others(i);
      rsem := rsem + 1;
      TakeOwn(s, i, WRelease(r + 1));
    }

    ghost method EndRelease(i: nat)
      requires Valid() && IsAt(i, WRelease(0))
      modifies this`model
      ensures Valid() && IsAt(i, WUnlock)
      ensures Ran(old(model), [StepAt(i, WRelease(0))], model)
    {
      NothingHappens(Sys(), Stands, model, Slot(i, WRelease(0)));
      TakeOwn(model, i, WRelease(0));
    }

    method FreeWriterMutex(ghost i: nat)
      requires Valid() && IsAt(i, WUnlock)
      modifies this
      ensures Valid() && IsAt(i, Idle)
      ensures Ran(old(model), [StepAt(i, WUnlock)], model)
    {
      ghost var s := model;
      Others(i);
      wmtx := false;
      TakeOwn(s, i, WUnlock);
    }
  }
}
