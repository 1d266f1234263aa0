/**
 The reader/writer lock of src/comutexshared.cpp for any number of threads.  `rsem_` and `wsem_`
 are counters (see Semaphore), `wmtx_` is a lock (see Mutex); every change of `count_` and `wait_`
 and every notify is a step.
 */
module SharedMutex {
  import opened Counting
  import opened Runs

  const RW_MAX: int := 0x4000_0000   // _rw_max_count; what follows from it is stated with the number

  datatype Pc =
    | Idle
    // readers
    | RWait              // in rsem_.wait()
    | Reading            // holds the lock shared
    | RDec               // --count_ was negative, before --wait_
    | RNotify            // --wait_ was 0, before wsem_.notify()
    // writers
    | WLock              // before wmtx_.lock() succeeds
    | WSub               // before count_ -= _rw_max_count
    | WAdd(r: int)       // before the test of r and wait_ += r
    | WWait              // in wsem_.wait()
    | Writing            // holds the lock
    | WRelease(r: int)   // in the loop `while (r--) rsem_.notify()`
    | WUnlock            // before wmtx_.unlock()

  datatype State = State(
    threads: seq<Pc>,
    count: int,
    wait: int,
    rsem: int,
    wsem: int,
    wmtx: bool,
    owner: Pc,           // history: where the holder of wmtx_ is, Idle if there is none
    peak: nat)           // history: the most readers there have been at once (see Readers)

  datatype Action = LockShared(i: nat) | Lock(i: nat) | Step(i: nat)

  predicate Enabled(s: State, a: Action) {
    && a.i < |s.threads|
    && var pc := s.threads[a.i];
       match a
       case LockShared(_) => pc.Idle?
       case Lock(_) => pc.Idle?
       case Step(_) =>
         && !pc.Idle?
         && (pc.RWait? ==> s.rsem > 0)
         && (pc.WWait? ==> s.wsem > 0)
         && (pc.WLock? ==> !s.wmtx)
  }

  function Goto(s: State, i: nat, pc: Pc): State
    requires i < |s.threads|
  {
    s.(threads := s.threads[i := pc])
  }

  /** A step of the holder of `wmtx_`. */
  function GotoW(s: State, i: nat, pc: Pc): State
    requires i < |s.threads|
  {
    Goto(s, i, pc).(owner := pc)
  }

  function Apply(s: State, a: Action): State
    requires Enabled(s, a)
  {
    match a
    case LockShared(i) => Goto(s, i, if s.count + 1 < 0 then RWait else Reading).(count := s.count + 1)
    case Lock(i) => Goto(s, i, WLock)
    case Step(i) =>
      match s.threads[i]
      case Idle => s
      case RWait => Goto(s, i, Reading).(rsem := s.rsem - 1)
      case Reading => Goto(s, i, if s.count - 1 >= 0 then Idle else RDec).(count := s.count - 1)
      case RDec => Goto(s, i, if s.wait - 1 == 0 then RNotify else Idle).(wait := s.wait - 1)
      case RNotify => Goto(s, i, Idle).(wsem := s.wsem + 1)
      case WLock => GotoW(s, i, WSub).(wmtx := true)
      case WSub => GotoW(s, i, WAdd(s.count - RW_MAX + RW_MAX)).(count := s.count - RW_MAX)
      case WAdd(r) =>
        if r == 0 then GotoW(s, i, Writing)
        else GotoW(s, i, if s.wait + r != 0 then WWait else Writing).(wait := s.wait + r)
      case WWait => GotoW(s, i, Writing).(wsem := s.wsem - 1)
      case Writing => GotoW(s, i, WRelease(s.count + RW_MAX)).(count := s.count + RW_MAX)
      case WRelease(r) => if r == 0 then GotoW(s, i, WUnlock) else GotoW(s, i, WRelease(r - 1)).(rsem := s.rsem + 1)
      case WUnlock => Goto(s, i, Idle).(wmtx := false, owner := Idle)
  }

  // ---- invariant -------------------------------------------------------------------------

  predicate IsReading(pc: Pc) { pc.Reading? }
  predicate IsRWait(pc: Pc) { pc.RWait? }
  predicate IsRDec(pc: Pc) { pc.RDec? }
  predicate IsRNotify(pc: Pc) { pc.RNotify? }
  predicate Owns(pc: Pc) {
    pc.WSub? || pc.WAdd? || pc.WWait? || pc.Writing? || pc.WRelease? || pc.WUnlock?
  }

  /** The counters, for `a` active readers, `b` waiting readers, `d` readers between their two
      decrements and `n` readers about to notify the writer.  Active readers and unconsumed tokens
      are counted together: a late reader may take a token released for an earlier one. */
  predicate Balanced(s: State, a: nat, b: nat, d: nat, n: nat) {
    && s.rsem >= 0
    && match s.owner
       case WAdd(r) =>
         && s.count == a + b - 0x4000_0000 && b >= s.rsem
         && 0 <= r <= 0x4000_0000 && s.wait <= 0 && r + s.wait == a + s.rsem + d
         && n == 0 && s.wsem == 0
       case WWait =>
         && s.count == a + b - 0x4000_0000 && b >= s.rsem
         && s.wait == a + s.rsem + d && s.wait <= 0x4000_0000
         && s.wsem >= 0 && n + s.wsem == One(s.wait == 0)
       case Writing =>
         && s.count == a + b - 0x4000_0000
         && a == 0 && s.rsem == 0 && d == 0 && n == 0 && s.wait == 0 && s.wsem == 0
       case WRelease(r) =>
         && s.count == a + b && r >= 0 && b == s.rsem + r
         && d == 0 && n == 0 && s.wait == 0 && s.wsem == 0
       case _ =>
         && s.count == a + b && b == s.rsem
         && d == 0 && n == 0 && s.wait == 0 && s.wsem == 0
  }

  ghost predicate OwnerOk(s: State) {
    && Owns(s.owner) == s.wmtx && (!s.wmtx ==> s.owner.Idle?)
    && Count(s.threads, Owns) == One(s.wmtx)
    && forall i :: 0 <= i < |s.threads| && Owns(s.threads[i]) ==> s.threads[i] == s.owner
  }

  ghost predicate BalancedNow(s: State) {
    Balanced(s, Count(s.threads, IsReading), Count(s.threads, IsRWait),
             Count(s.threads, IsRDec), Count(s.threads, IsRNotify))
  }

  predicate WriterPresent(s: State) {
    s.owner.WAdd? || s.owner.WWait? || s.owner.Writing?
  }

  /** The readers that hold the lock or await it. */
  function Readers(s: State): nat { Count(s.threads, IsReading) + Count(s.threads, IsRWait) }

  /** `count_` is the number of readers, less 2^30 while a writer is marked; tokens are not negative. */
  predicate Tallied(s: State) {
    && s.rsem >= 0 && s.wsem >= 0
    && s.count == Readers(s) - if WriterPresent(s) then 0x4000_0000 else 0
  }

  /** What `count_` has room for: fewer than 2^30 readers at any time, or so few threads that there
      are never as many beside a writer. */
  predicate Few(s: State) { s.peak < 0x4000_0000 || |s.threads| <= 0x4000_0000 }

  /** The first two hold for any number of readers. */
  ghost predicate Inv(s: State) {
    && OwnerOk(s)
    && Tallied(s)
    && Readers(s) <= s.peak
    && (Few(s) ==> BalancedNow(s))
  }

  function Noted(s: State): State {
    s.(peak := if Readers(s) > s.peak then Readers(s) else s.peak)
  }

  function Next(s: State, a: Action): State { if Enabled(s, a) then Noted(Apply(s, a)) else s }

  lemma GotoCounts(t: seq<Pc>, i: nat, pc: Pc)
    requires i < |t|
    ensures Count(t[i := pc], IsReading) == Count(t, IsReading) - One(IsReading(t[i])) + One(IsReading(pc))
    ensures Count(t[i := pc], IsRWait) == Count(t, IsRWait) - One(IsRWait(t[i])) + One(IsRWait(pc))
    ensures Count(t[i := pc], IsRDec) == Count(t, IsRDec) - One(IsRDec(t[i])) + One(IsRDec(pc))
    ensures Count(t[i := pc], IsRNotify) == Count(t, IsRNotify) - One(IsRNotify(t[i])) + One(IsRNotify(pc))
    ensures Count(t[i := pc], Owns) == Count(t, Owns) - One(Owns(t[i])) + One(Owns(pc))
  {
    CountUpdate(t, i, pc, IsReading);
    CountUpdate(t, i, pc, IsRWait);
    CountUpdate(t, i, pc, IsRDec);
    CountUpdate(t, i, pc, IsRNotify);
    CountUpdate(t, i, pc, Owns);
  }

  lemma OneOwner(s: State, i: nat)
    requires OwnerOk(s) && i < |s.threads| && Owns(s.threads[i])
    ensures s.wmtx && forall j :: 0 <= j < |s.threads| && Owns(s.threads[j]) ==> j == i
  {
    CountPositive(s.threads, i, Owns);
    forall j | 0 <= j < |s.threads| && Owns(s.threads[j])
      ensures j == i
    {
      if j < i { CountTwo(s.threads, j, i, Owns); }
      if i < j { CountTwo(s.threads, i, j, Owns); }
    }
  }

  lemma OwnerMoves(s: State, i: nat)
    requires OwnerOk(s) && Enabled(s, Step(i)) && Owns(s.threads[i])
    ensures OwnerOk(Apply(s, Step(i)))
  {
    GotoCounts(s.threads, i, Apply(s, Step(i)).threads[i]);
    OneOwner(s, i);
  }

  lemma OwnerEnters(s: State, i: nat)
    requires OwnerOk(s) && Enabled(s, Step(i)) && s.threads[i].WLock?
    ensures OwnerOk(Apply(s, Step(i)))
  {
    GotoCounts(s.threads, i, WSub);
    forall j | 0 <= j < |s.threads|
      ensures !Owns(s.threads[j])
    {
      CountPositive(s.threads, j, Owns);
    }
  }

  lemma OwnerPreserved(s: State, a: Action)
    requires OwnerOk(s) && Enabled(s, a)
    ensures OwnerOk(Apply(s, a))
  {
    if Owns(s.threads[a.i]) {
      OwnerMoves(s, a.i);
    } else if s.threads[a.i].WLock? {
      OwnerEnters(s, a.i);
    } else {
      GotoCounts(s.threads, a.i, Apply(s, a).threads[a.i]);
    }
  }

  lemma TalliedByReader(s: State, a: Action)
    requires OwnerOk(s) && Tallied(s) && Enabled(s, a) && !Owns(s.threads[a.i]) && !s.threads[a.i].WLock?
    ensures Tallied(Apply(s, a))
  {
    GotoCounts(s.threads, a.i, Apply(s, a).threads[a.i]);
  }

  lemma TalliedByWriter(s: State, i: nat)
    requires OwnerOk(s) && Tallied(s) && Enabled(s, Step(i)) && (Owns(s.threads[i]) || s.threads[i].WLock?)
    ensures Tallied(Apply(s, Step(i)))
  {
    GotoCounts(s.threads, i, Apply(s, Step(i)).threads[i]);
    if Owns(s.threads[i]) { OneOwner(s, i); }
  }

  /** `count_` stays the exact number of readers, whatever their number. */
  lemma TalliedPreserved(s: State, a: Action)
    requires OwnerOk(s) && Tallied(s) && Enabled(s, a)
    ensures Tallied(Apply(s, a))
  {
    if Owns(s.threads[a.i]) || s.threads[a.i].WLock? { TalliedByWriter(s, a.i); } else { TalliedByReader(s, a); }
  }

  predicate Room(s: State) { WriterPresent(s) ==> Readers(s) < 0x4000_0000 }

  /** Beside a writer there are fewer readers than threads. */
  lemma FewLeavesRoom(s: State)
    requires OwnerOk(s) && Few(s) && Readers(s) <= s.peak
    ensures Room(s)
  {
    CountDisjoint(s.threads, IsReading, IsRWait, Owns);
  }

  lemma ReaderBalanced(s: State, a: Action)
    requires OwnerOk(s) && BalancedNow(s) && Enabled(s, a) && Room(Apply(s, a))
    requires a.LockShared? || (a.Step? && (s.threads[a.i].RWait? || s.threads[a.i].Reading?))
    ensures BalancedNow(Apply(s, a))
  {
    var i, s' := a.i, Apply(s, a);
    GotoCounts(s.threads, i, s'.threads[i]);
    CountPositive(s.threads, i, IsReading);
  }

  lemma DecrementBalanced(s: State, i: nat)
    requires BalancedNow(s) && Enabled(s, Step(i)) && (s.threads[i].RDec? || s.threads[i].RNotify?)
    ensures BalancedNow(Apply(s, Step(i)))
  {
    GotoCounts(s.threads, i, Apply(s, Step(i)).threads[i]);
    CountPositive(s.threads, i, IsRDec);
    CountPositive(s.threads, i, IsRNotify);
  }

  lemma EnterBalanced(s: State, a: Action)
    requires OwnerOk(s) && BalancedNow(s) && Enabled(s, a)
    requires a.Lock? || (a.Step? && s.threads[a.i].WLock?)
    ensures BalancedNow(Apply(s, a))
  {
    GotoCounts(s.threads, a.i, Apply(s, a).threads[a.i]);
  }

  lemma WriterBalanced(s: State, i: nat)
    requires OwnerOk(s) && BalancedNow(s) && Enabled(s, Step(i)) && Owns(s.threads[i])
    requires Room(Apply(s, Step(i)))
    ensures BalancedNow(Apply(s, Step(i)))
  {
    GotoCounts(s.threads, i, Apply(s, Step(i)).threads[i]);
    OneOwner(s, i);
  }

  /** A step keeps the counters balanced if it leaves room beside the writer. */
  lemma BalancePreserved(s: State, a: Action)
    requires OwnerOk(s) && BalancedNow(s) && Enabled(s, a) && Room(Apply(s, a))
    ensures BalancedNow(Apply(s, a))
  {
    if a.LockShared? || (a.Step? && (s.threads[a.i].RWait? || s.threads[a.i].Reading?)) {
      ReaderBalanced(s, a);
    } else if a.Step? && (s.threads[a.i].RDec? || s.threads[a.i].RNotify?) {
      DecrementBalanced(s, a.i);
    } else if a.Lock? || s.threads[a.i].WLock? {
      EnterBalanced(s, a);
    } else {
      WriterBalanced(s, a.i);
    }
  }

  lemma InvPreserved(s: State, a: Action)
    requires Inv(s) && Enabled(s, a)
    ensures Inv(Next(s, a))
  {
    OwnerPreserved(s, a);
    TalliedPreserved(s, a);
    var t := Next(s, a);
    if Few(t) {
      SameThreads(s, a);
      FewLeavesRoom(t);
      BalancePreserved(s, a);
    }
  }

  // ---- every reachable state -------------------------------------------------------------

  ghost predicate Initial(s: State) {
    && (forall i :: 0 <= i < |s.threads| ==> s.threads[i].Idle?)
    && s.count == 0 && s.wait == 0 && s.rsem == 0 && s.wsem == 0 && !s.wmtx && s.owner.Idle? && s.peak == 0
  }

  ghost function Sys(): System<State, Action> { System(Enabled, Next) }

  /** `t` is reachable with `n` threads. */
  ghost predicate Reachable(n: nat, t: State) {
    exists s, acts :: Initial(s) && |s.threads| == n && Reaches(Sys(), s, acts, t)
  }

  lemma ReachableStep(n: nat, m: State, a: Action)
    requires Reachable(n, m) && Enabled(m, a)
    ensures Reachable(n, Next(m, a))
  {
    var s, acts :| Initial(s) && |s.threads| == n && Reaches(Sys(), s, acts, m);
    ReachesStep(Sys(), s, acts, m, a);
  }

  lemma SameThreads(s: State, a: Action)
    requires Enabled(s, a)
    ensures |Next(s, a).threads| == |s.threads| && s.peak <= Next(s, a).peak
  {}

  lemma InvAlongRun(n: nat, s: State, t: State)
    requires Inv(s) && |s.threads| == n && Leads(Sys(), s, t)
    ensures Inv(t) && |t.threads| == n
  {
    var inv := m => Inv(m) && |m.threads| == n;
    forall m, a | inv(m) && Sys().enabled(m, a)
      ensures inv(Sys().next(m, a))
    {
      InvPreserved(m, a);
      SameThreads(m, a);
    }
    LeadsInvariant(Sys(), inv, s, t);
  }

  lemma InitialInv(s: State)
    requires Initial(s)
    ensures Inv(s)
  {
    CountNone(s.threads, IsReading);
    CountNone(s.threads, IsRWait);
    CountNone(s.threads, IsRDec);
    CountNone(s.threads, IsRNotify);
    CountNone(s.threads, Owns);
  }

  lemma ReachableInv(n: nat, t: State)
    requires Reachable(n, t)
    ensures Inv(t) && |t.threads| == n
  {
    var s, acts :| Initial(s) && |s.threads| == n && Reaches(Sys(), s, acts, t);
    InitialInv(s);
    InvAlongRun(n, s, t);
  }

  // ---- the number of readers -------------------------------------------------------------

  /** Runs in which never more than `most` readers hold or await the lock. */
  ghost function SysWithin(most: nat): System<State, Action> {
    System((s: State, a: Action) => Enabled(s, a) && Readers(Next(s, a)) <= most, Next)
  }

  ghost predicate ReachableWithin(n: nat, most: nat, t: State) {
    exists s, acts :: Initial(s) && |s.threads| == n && Reaches(SysWithin(most), s, acts, t)
  }

  lemma PeakGrows(s: State, acts: seq<Action>, t: State)
    requires Reaches(Sys(), s, acts, t)
    ensures s.peak <= t.peak
  {
    var inv := (m: State) => s.peak <= m.peak;
    forall m, a | inv(m) && Sys().enabled(m, a)
      ensures inv(Sys().next(m, a))
    {
      SameThreads(m, a);
    }
    InvariantHolds(Sys(), inv, s, acts, t);
  }

  /** `peak` is what its name says: the runs with at most `most` readers at any time are those that
      end with it at most `most`. */
  lemma {:induction false} PeakIsMost(most: nat, s: State, acts: seq<Action>, t: State)
    requires s.peak <= most
    ensures Reaches(SysWithin(most), s, acts, t) <==> Reaches(Sys(), s, acts, t) && t.peak <= most
    decreases |acts|
  {
    if acts != [] && Enabled(s, acts[0]) {
      var m := Next(s, acts[0]);
      if m.peak <= most {
        PeakIsMost(most, m, acts[1..], t);
      } else if Reaches(Sys(), m, acts[1..], t) {
        PeakGrows(m, acts[1..], t);
      }
    }
  }

  lemma WithinIsPeak(n: nat, most: nat, t: State)
    ensures ReachableWithin(n, most, t) <==> Reachable(n, t) && t.peak <= most
  {
    forall s, acts | Initial(s)
      ensures Reaches(SysWithin(most), s, acts, t) <==> Reaches(Sys(), s, acts, t) && t.peak <= most
    {
      PeakIsMost(most, s, acts, t);
    }
  }

  // ---- exclusion -------------------------------------------------------------------------

  /** While a thread holds the lock for writing there is no other writer, no reader that holds the
      lock, and no token that would let a waiting reader in. */
  ghost predicate Exclusive(s: State) {
    forall i :: 0 <= i < |s.threads| && s.threads[i].Writing? ==>
      && s.rsem == 0
      && forall j :: 0 <= j < |s.threads| && j != i ==> !s.threads[j].Writing? && !s.threads[j].Reading?
  }

  lemma ExclusionHolds(n: nat, s: State)
    requires Reachable(n, s) && (s.peak < 0x4000_0000 || n <= 0x4000_0000)
    ensures Exclusive(s)
  {
    ReachableInv(n, s);
    forall i | 0 <= i < |s.threads| && s.threads[i].Writing?
      ensures s.rsem == 0 && forall j :: 0 <= j < |s.threads| && j != i ==> !s.threads[j].Writing? && !s.threads[j].Reading?
    {
      OneOwner(s, i);
      forall j | 0 <= j < |s.threads|
        ensures !s.threads[j].Reading?
      {
        CountPositive(s.threads, j, IsReading);
      }
    }
  }

  /** The step that breaks it: a reader that arrives beside thread w inside keeps exclusion exactly
      when it finds `count_` below -1, which is as long as it is not the 2^30-th reader. */
  lemma ArrivalExcludes(s: State, w: nat, i: nat)
    requires Exclusive(s) && Enabled(s, LockShared(i)) && w < |s.threads| && s.threads[w].Writing?
    ensures Exclusive(Next(s, LockShared(i))) <==> s.count + 1 < 0
    ensures OwnerOk(s) && Tallied(s) ==> (s.count + 1 < 0 <==> Readers(s) + 1 < 0x4000_0000)
  {
    var t := Next(s, LockShared(i));
    assert t.threads[w].Writing? && t.rsem == s.rsem;
    if s.count + 1 >= 0 { assert t.threads[i].Reading? && i != w; }
    if OwnerOk(s) { OneOwner(s, w); }
  }

  /** One writer inside, `k` readers behind it. */
  ghost function Crowd(n: nat, k: nat): State
    requires k < n
  {
    State(seq(n, i => if i == 0 then Writing else if 1 <= i <= k then RWait else Idle),
          k - 0x4000_0000, 0, 0, 0, true, Writing, k)
  }

  /** Thread 0 is at `pc` of `lock` and all others are idle. */
  ghost function Single(n: nat, pc: Pc, count: int, wmtx: bool): State
    requires n > 0
  {
    State(seq(n, i => if i == 0 then pc else Idle), count, 0, 0, 0, wmtx, if wmtx then pc else Idle, 0)
  }

  /** The step leads to `t`, which has no more readers than there were before at some time. */
  lemma Go(n: nat, s: State, a: Action, t: State)
    requires Reachable(n, s) && Enabled(s, a) && Apply(s, a) == t && Readers(t) <= s.peak
    ensures Reachable(n, t)
  {
    ReachableStep(n, s, a);
  }

  lemma NoReaders(n: nat, pc: Pc, count: int, wmtx: bool)
    requires n > 0 && !pc.Reading? && !pc.RWait?
    ensures Readers(Single(n, pc, count, wmtx)) == 0
  {
    CountNone(Single(n, pc, count, wmtx).threads, IsReading);
    CountNone(Single(n, pc, count, wmtx).threads, IsRWait);
  }

  lemma WriterLocks(n: nat)
    requires n > 0
    ensures Reachable(n, Single(n, WSub, 0, true))
  {
    var s := Single(n, Idle, 0, false);
    assert Initial(s);
    LeadsNowhere(Sys(), s);
    NoReaders(n, WLock, 0, false);
    Go(n, s, Lock(0), Single(n, WLock, 0, false));
    NoReaders(n, WSub, 0, true);
    Go(n, Single(n, WLock, 0, false), Step(0), Single(n, WSub, 0, true));
  }

  lemma WriterEnters(n: nat)
    requires n > 0
    ensures Reachable(n, Crowd(n, 0)) && Readers(Crowd(n, 0)) == 0
  {
    WriterLocks(n);
    NoReaders(n, WAdd(0), -0x4000_0000, true);
    Go(n, Single(n, WSub, 0, true), Step(0), Single(n, WAdd(0), -0x4000_0000, true));
    assert Single(n, Writing, -0x4000_0000, true) == Crowd(n, 0);
    NoReaders(n, Writing, -0x4000_0000, true);
    Go(n, Single(n, WAdd(0), -0x4000_0000, true), Step(0), Crowd(n, 0));
  }

  lemma {:induction false} ReadersQueueUp(n: nat, k: nat)
    requires k < n && k < 0x4000_0000
    ensures Reachable(n, Crowd(n, k)) && Readers(Crowd(n, k)) == k
  {
    if k == 0 {
      WriterEnters(n);
    } else {
      var p := k - 1;
      ReadersQueueUp(n, p);
      GotoCounts(Crowd(n, p).threads, k, RWait);
      assert Crowd(n, p).threads[k := RWait] == Crowd(n, k).threads;
      ReachableStep(n, Crowd(n, p), LockShared(k));
      assert Next(Crowd(n, p), LockShared(k)) == Crowd(n, k);
    }
  }

  /** The 2^30-th reader behind a writer brings `count_` back to 0 and walks in. */
  lemma ExclusionFails(n: nat) returns (s: State)
    requires n > 0x4000_0000
    ensures Reachable(n, s) && s.peak == 0x4000_0000 && |s.threads| == n && !Exclusive(s)
    ensures s.threads[0].Writing? && s.threads[0x4000_0000].Reading?
  {
    ReadersQueueUp(n, 0x4000_0000 - 1);
    var m := Crowd(n, 0x4000_0000 - 1);
    GotoCounts(m.threads, 0x4000_0000, Reading);
    ReachableStep(n, m, LockShared(0x4000_0000));
    s := Next(m, LockShared(0x4000_0000));
    assert s.threads[0].Writing? && s.threads[0x4000_0000].Reading?;
  }

  /** With n threads, of which at most `most` hold or await the lock as readers at any time, readers
      and writers exclude each other in every run exactly when fewer than 2^30 may, or there are
      too few threads for as many beside a writer. */
  lemma ExclusionExactly(n: nat, most: nat)
    ensures (forall s :: ReachableWithin(n, most, s) ==> Exclusive(s)) <==> most < 0x4000_0000 || n <= 0x4000_0000
  {
    if most < 0x4000_0000 || n <= 0x4000_0000 {
      forall s | ReachableWithin(n, most, s)
        ensures Exclusive(s)
      {
        WithinIsPeak(n, most, s);
        ReachableInv(n, s);
        ExclusionHolds(n, s);
      }
    } else {
      var s := ExclusionFails(n);
      WithinIsPeak(n, most, s);
    }
  }

  /** Any number of writers: only the readers count. */
  lemma ReadersDecide(n: nat, most: nat)
    requires n > most
    ensures (forall s :: ReachableWithin(n, most, s) ==> Exclusive(s)) <==> most < 0x4000_0000
  {
    ExclusionExactly(n, most);
  }

  /** Without a promise about readers, the number of threads decides. */
  lemma ThreadsDecide(n: nat)
    ensures (forall s :: Reachable(n, s) ==> Exclusive(s)) <==> n <= 0x4000_0000
  {
    if n <= 0x4000_0000 {
      forall s | Reachable(n, s)
        ensures Exclusive(s)
      {
        ReachableInv(n, s);
        ExclusionHolds(n, s);
      }
    } else {
      var s := ExclusionFails(n);
    }
  }

  // ---- tokens ----------------------------------------------------------------------------

  /** `unlock` releases exactly as many tokens as there are waiting readers: the loop counter is
      never negative, and tokens plus releases still to come match the waiting readers. */
  lemma ReleaseIsExact(n: nat, s: State, i: nat)
    requires Reachable(n, s) && (s.peak < 0x4000_0000 || n <= 0x4000_0000) && i < |s.threads|
    ensures s.threads[i].Writing? ==> s.count + 0x4000_0000 == Count(s.threads, IsRWait)
    ensures s.threads[i].WRelease? ==>
              s.threads[i].r >= 0 && s.rsem + s.threads[i].r == Count(s.threads, IsRWait)
    ensures !s.wmtx ==> s.rsem == Count(s.threads, IsRWait) && s.wait == 0 && s.wsem == 0
  {
    ReachableInv(n, s);
    if Owns(s.threads[i]) { OneOwner(s, i); }
  }

  /** That a writer leaves one round for each waiting reader holds in every run under the same
      condition as exclusion. */
  lemma ReleaseExactly(n: nat, most: nat)
    ensures (forall s, i: nat :: ReachableWithin(n, most, s) && i < |s.threads| && s.threads[i].Writing? ==>
               s.count + 0x4000_0000 == Count(s.threads, IsRWait))
            <==> most < 0x4000_0000 || n <= 0x4000_0000
  {
    if most < 0x4000_0000 || n <= 0x4000_0000 {
      forall s, i: nat | ReachableWithin(n, most, s) && i < |s.threads| && s.threads[i].Writing?
        ensures s.count + 0x4000_0000 == Count(s.threads, IsRWait)
      {
        WithinIsPeak(n, most, s);
        ReachableInv(n, s);
        ReleaseIsExact(n, s, i);
      }
    } else {
      var s := ExclusionFails(n);
      WithinIsPeak(n, most, s);
      ReachableInv(n, s);
      OneOwner(s, 0);
      CountPositive(s.threads, 0x4000_0000, IsReading);
    }
  }

  /** The rounds of the loop in `unlock` are as many as there are readers, whatever their number; so
      long as the lock excludes, all of these wait. */
  lemma RoundsAreReaders(n: nat, s: State, i: nat)
    requires Reachable(n, s) && i < |s.threads| && s.threads[i].Writing?
    ensures var t := Next(s, Step(i));
            && t.threads[i] == WRelease(s.count + 0x4000_0000) && s.count + 0x4000_0000 == Readers(t)
            && (t.peak < 0x4000_0000 || n <= 0x4000_0000 ==> s.count + 0x4000_0000 == Count(t.threads, IsRWait))
  {
    ReachableInv(n, s);
    OneOwner(s, i);
    GotoCounts(s.threads, i, WRelease(s.count + 0x4000_0000));
    if s.peak < 0x4000_0000 || n <= 0x4000_0000 { ReleaseIsExact(n, s, i); }
  }

  /** A writer that waits gets exactly one notify, from the last reader it counted: it is notified
      or about to be exactly when no active reader, no token and no reader between its two
      decrements is left. */
  lemma WriterIsNotifiedOnce(n: nat, s: State, i: nat)
    requires Reachable(n, s) && (s.peak < 0x4000_0000 || n <= 0x4000_0000) && i < |s.threads| && s.threads[i].WWait?
    ensures s.wsem + Count(s.threads, IsRNotify) <= 1
    ensures s.wsem + Count(s.threads, IsRNotify) == 1 <==>
              Count(s.threads, IsReading) + s.rsem + Count(s.threads, IsRDec) == 0
  {
    ReachableInv(n, s);
    OneOwner(s, i);
  }

  /** No thread is left behind: when nothing can move and all locks that were taken have been given
      back, every thread is idle. */
  lemma NobodyStuck(n: nat, s: State)
    requires Reachable(n, s) && (s.peak < 0x4000_0000 || n <= 0x4000_0000)
    requires forall i :: 0 <= i < |s.threads| ==>
               s.threads[i].Idle? || (!s.threads[i].Reading? && !s.threads[i].Writing? && !Enabled(s, Step(i)))
    ensures forall i :: 0 <= i < |s.threads| ==> s.threads[i].Idle?
  {
    ReachableInv(n, s);
    NoTokenLeft(s);
    forall i | 0 <= i < |s.threads|
      ensures s.threads[i].Idle?
    {
      CountPositive(s.threads, i, IsRWait);
      CountPositive(s.threads, i, Owns);
    }
  }

  lemma NoTokenLeft(s: State)
    requires OwnerOk(s) && BalancedNow(s)
    requires forall i :: 0 <= i < |s.threads| ==>
               s.threads[i].Idle? || (!s.threads[i].Reading? && !s.threads[i].Writing? && !Enabled(s, Step(i)))
    ensures !s.wmtx && Count(s.threads, IsRWait) == 0
  {
    CountNone(s.threads, IsReading);
    CountNone(s.threads, IsRDec);
    CountNone(s.threads, IsRNotify);
    if s.rsem > 0 {
      var k := SomeWaiter(s);
      assert Enabled(s, Step(k));
    }
    if s.wmtx {
      var j := SomeOwner(s);
    }
  }

  lemma SomeWaiter(s: State) returns (i: nat)
    requires Count(s.threads, IsRWait) > 0
    ensures i < |s.threads| && s.threads[i].RWait?
  {
    if forall k :: 0 <= k < |s.threads| ==> !IsRWait(s.threads[k]) {
      CountNone(s.threads, IsRWait);
    }
    i :| 0 <= i < |s.threads| && IsRWait(s.threads[i]);
  }

  lemma SomeOwner(s: State) returns (i: nat)
    requires OwnerOk(s) && s.wmtx
    ensures i < |s.threads| && Owns(s.threads[i]) && s.threads[i] == s.owner
  {
    if forall k :: 0 <= k < |s.threads| ==> !Owns(s.threads[k]) {
      CountNone(s.threads, Owns);
    }
    i :| 0 <= i < |s.threads| && Owns(s.threads[i]);
  }

  /** `count_` and `wait_` stay within a 32-bit int. */
  lemma CountersFit(n: nat, s: State)
    requires Reachable(n, s) && (s.peak < 0x4000_0000 || n <= 0x4000_0000)
    ensures -0x8000_0000 <= s.count <= 0x7fff_ffff && -0x8000_0000 <= s.wait <= 0x7fff_ffff
    ensures 0 <= s.rsem <= 0x7fff_ffff && 0 <= s.wsem <= 1
  {
    ReachableInv(n, s);
    CountFour(s.threads);
  }

  lemma {:induction false} CountFour(t: seq<Pc>)
    ensures Count(t, IsReading) + Count(t, IsRWait) + Count(t, IsRDec) + Count(t, IsRNotify) <= |t|
  {
    if t != [] { CountFour(t[..|t| - 1]); }
  }
}
