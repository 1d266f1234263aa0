/**
 The sleep machinery of a worker (src/coworker.cpp), run by the thread that owns the worker while
 nobody else interferes.  What other threads can do in between is the subject of `Scheduler`.
 */
module TimerWorker {
  import opened CoStatus
  import opened CoCtx
  import opened TimerHeap

  /** The scheduler's run queue; which worker is called for it is the subject of `Parking`. */
  class RunQueue {
    var ctxQue: seq<Context>

    method AddQue(ctx: Context)
      modifies this
      ensures ctxQue == old(ctxQue) + [ctx]
    {
      ctxQue := ctxQue + [ctx];
    }
  }

  /** Those contexts of `r` that a resume has marked for removal, in order. */
  ghost function Marked(r: seq<Context>): seq<Context>
    reads r`status
  {
    if r == [] then []
    else
      var c := r[|r| - 1];
      Marked(r[..|r| - 1]) + if c.status.SleepSetRemove? then [c] else []
  }

  twostate predicate Kept(c: Context)
    reads c
  {
    c.word == old(c.word) && c.status == old(c.status) && c.interrupted == old(c.interrupted)
  }

  /** What a coroutine and its resumers can see of a context. */
  datatype View = View(word: Word, status: Status, interrupted: bool)

  ghost function ViewOf(c: Context): View
    reads c
  {
    View(c.word, c.status, c.interrupted)
  }

  /** A context that was in the heap and looked like `was`, when `pending` is left in the heap and
      `fired` has been queued. */
  ghost predicate Settled(c: Context, was: View, pending: set<Context>, fired: seq<Context>, now: int)
    reads c
  {
    if c in pending then ViewOf(c) == was && c !in fired
    else
      && c.Valid() && c.index == NO_INDEX && c.timeout <= now
      && if was.status.SleepSetSet? then c in fired && c.status == Ready && !c.interrupted
         else c !in fired && ViewOf(c) == was
  }

  /** `t` is the earliest deadline among `pending`. */
  ghost predicate EarliestIn(t: int, pending: set<Context>)
    reads pending`timeout
  {
    && (forall c :: c in pending ==> t <= c.timeout)
    && exists c :: c in pending && c.timeout == t
  }

  ghost predicate ByDeadline(s: seq<Context>)
    reads s`timeout
  {
    forall i, j :: 0 <= i < j < |s| ==> s[i] != s[j] && s[i].timeout <= s[j].timeout
  }

  /** `fired` has left the heap in order, and nothing that is still pending was due before it. */
  ghost predicate FiredBefore(fired: seq<Context>, pending: set<Context>)
    reads fired`timeout, pending`timeout
  {
    && ByDeadline(fired)
    && forall i, c :: 0 <= i < |fired| && c in pending ==> fired[i] != c && fired[i].timeout <= c.timeout
  }

  lemma FireNext(fired: seq<Context>, pending: set<Context>, ctx: Context, woken: seq<Context>)
    requires FiredBefore(fired, pending) && ctx in pending && (woken == [] || woken == [ctx])
    requires forall c :: c in pending ==> ctx.timeout <= c.timeout
    ensures FiredBefore(fired + woken, pending - {ctx})
    ensures forall c :: c in fired + woken <==> c in fired || (c == ctx && woken == [ctx])
  {}

  lemma AppendNothing(a: seq<Context>)
    ensures a + [] == a
  {}

  lemma Associate(a: seq<Context>, b: seq<Context>, c: seq<Context>)
    ensures a + b + c == a + (b + c)
  {}

  class Worker {
    const sche: RunQueue
    const timeWait: Heap
    var timeRemove: seq<Context>

    ghost predicate Valid()
      reads this, timeWait, timeWait.nodes, timeRemove
    {
      && timeWait.Valid()
      && (forall c :: c in timeWait.nodes ==> c.Valid())
      && (forall i, j :: 0 <= i < j < |timeRemove| ==> timeRemove[i] != timeRemove[j])
      && (forall i :: 0 <= i < |timeRemove| ==>
            && timeRemove[i].Valid()
            && (timeRemove[i] in timeWait.nodes || timeRemove[i].index == NO_INDEX))
    }

    constructor (sche: RunQueue)
      ensures Valid() && this.sche == sche && fresh(timeWait) && timeWait.nodes == {} && timeRemove == []
    {
      this.sche := sche;
      timeWait := new Heap();
      timeRemove := [];
    }

    method SleepRemove(ctx: Context)
      requires ctx.Valid()
      modifies ctx`word, ctx`status, ctx`interrupted, sche
      ensures ctx.Valid()
      ensures if old(ctx.status).SleepSetRemove?
              then ctx.status == Ready && ctx.interrupted && sche.ctxQue == old(sche.ctxQue) + [ctx]
              else Kept(ctx) && sche.ctxQue == old(sche.ctxQue)
    {
      var res, _, _ := ctx.TryFull(Op.SleepRemove, []);
      if res != 0 {
        return;
      }
      ctx.interrupted := true;
      sche.AddQue(ctx);
    }

    method SleepTimeout(ctx: Context)
      requires ctx.Valid()
      modifies ctx`word, ctx`status, ctx`interrupted, sche
      ensures ctx.Valid()
      ensures if old(ctx.status).SleepSetSet?
              then ctx.status == Ready && !ctx.interrupted && sche.ctxQue == old(sche.ctxQue) + [ctx]
              else Kept(ctx) && sche.ctxQue == old(sche.ctxQue)
    {
      var res, _, _ := ctx.TryFull(Op.SleepTimeout, []);
      if res != 0 {
        return;
      }
      ctx.interrupted := false;
      sche.AddQue(ctx);
    }

    /** A context that has left its stack to sleep: queued at once when it was resumed meanwhile or
        its deadline has passed, otherwise put into the heap. */
    method SleepAdd(ctx: Context, now: int)
      requires Valid() && ctx.Valid() && (ctx.status.SleepSet? || ctx.status.SleepSetBreak?)
      requires ctx !in timeWait.nodes && ctx !in timeRemove && ctx.index == NO_INDEX
      modifies sche, timeWait, timeWait.nodes`index, ctx`index, ctx`word, ctx`status, ctx`interrupted
      ensures Valid() && ctx.Valid()
      ensures old(ctx.status).SleepSetBreak? ==>
                ctx.status == Ready && ctx.interrupted == old(ctx.interrupted)
      ensures old(ctx.status).SleepSet? && ctx.timeout <= now ==> ctx.status == Ready && !ctx.interrupted
      ensures if old(ctx.status).SleepSet? && ctx.timeout > now
              then && ctx.status == SleepSetSet && ctx.interrupted == old(ctx.interrupted)
                   && timeWait.nodes == old(timeWait.nodes) + {ctx} && sche.ctxQue == old(sche.ctxQue)
              else && timeWait.nodes == old(timeWait.nodes) && ctx.index == NO_INDEX
                   && sche.ctxQue == old(sche.ctxQue) + [ctx]
    {
      var res, _, _ := ctx.TryFull(Op.SleepAdd, []);
      if res < 0 {
        return;
      }
      if res == 0 {
        sche.AddQue(ctx);
        return;
      }
      if ctx.timeout <= now {
        SleepTimeout(ctx);
      } else {
        timeWait.Push(ctx);
      }
    }

    /** Body of the first loop of `dco_time_proc`. */
    method TakeRemoval(ctx: Context)
      requires Valid() && timeRemove != [] && timeRemove[0] == ctx
      modifies this`timeRemove, sche, timeWait, timeWait.nodes`index, ctx`index, ctx`word, ctx`status, ctx`interrupted
      ensures Valid() && timeRemove == old(timeRemove)[1..] && ctx.Valid() && ctx.index == NO_INDEX
      ensures timeWait.nodes == old(timeWait.nodes) - {ctx}
      ensures if old(ctx.status).SleepSetRemove?
              then ctx.status == Ready && ctx.interrupted && sche.ctxQue == old(sche.ctxQue) + [ctx]
              else Kept(ctx) && sche.ctxQue == old(sche.ctxQue)
    {
      timeRemove := timeRemove[1..];
      var _ := timeWait.Remove(ctx);
      SleepRemove(ctx);
    }

    /** Body of the second loop: the first context of the heap is due. */
    method TakeDue(ctx: Context) returns (ghost woken: seq<Context>)
      requires Valid() && timeRemove == [] && ctx in timeWait.nodes
      modifies sche, timeWait, timeWait.nodes`index, ctx`word, ctx`status, ctx`interrupted
      ensures Valid() && ctx.Valid() && ctx.index == NO_INDEX
      ensures timeWait.nodes == old(timeWait.nodes) - {ctx} && sche.ctxQue == old(sche.ctxQue) + woken
      ensures if old(ctx.status).SleepSetSet? then woken == [ctx] && ctx.status == Ready && !ctx.interrupted
              else woken == [] && Kept(ctx)
    {
      woken := if ctx.status.SleepSetSet? then [ctx] else [];
      var _ := timeWait.Remove(ctx);
      SleepTimeout(ctx);
    }

    /** First loop of `dco_time_proc`: everything handed over by resumes leaves the heap, and what is
        still marked for removal is queued as interrupted. */
    method DrainRemovals()
      requires Valid()
      modifies this`timeRemove, sche, timeWait
      modifies timeWait.nodes`index, timeWait.nodes`word, timeWait.nodes`status, timeWait.nodes`interrupted
      modifies timeRemove`index, timeRemove`word, timeRemove`status, timeRemove`interrupted
      ensures Valid() && timeRemove == []
      ensures forall c :: c in timeWait.nodes <==> c in old(timeWait.nodes) && c !in old(timeRemove)
      ensures sche.ctxQue == old(sche.ctxQue) + old(Marked(timeRemove))
      ensures forall c :: c in old(timeRemove) ==>
                && c.Valid() && c.index == NO_INDEX
                && if old(c.status).SleepSetRemove? then c.status == Ready && c.interrupted
                   else Kept(c)
      ensures forall c :: c in timeWait.nodes ==> Kept(c)
    {
      ghost var r, k := timeRemove, 0;
      assert r[..0] == [];
      while timeRemove != []
        invariant k <= |r| && timeRemove == r[k..] && Valid()
        invariant forall c :: c in timeWait.nodes <==> c in old(timeWait.nodes) && c !in r[..k]
        invariant sche.ctxQue == old(sche.ctxQue) + old(Marked(r[..k]))
        invariant forall i :: 0 <= i < k ==>
                    && r[i].Valid() && r[i].index == NO_INDEX
                    && if old(r[i].status).SleepSetRemove? then r[i].status == Ready && r[i].interrupted
                       else Kept(r[i])
        invariant forall i :: k <= i < |r| ==> Kept(r[i])
        invariant forall c :: c in timeWait.nodes ==> Kept(c)
        decreases |r| - k
      {
        assert timeRemove[0] == r[k] && r[..k + 1][..k] == r[..k];
        TakeRemoval(timeRemove[0]);
        k := k + 1;
      }
      assert r[..k] == r;
    }

    /** The invariant of the second loop; `was` is the heap's contents when it began. */
    ghost predicate Expiring(was: map<Context, View>, fired: seq<Context>, now: int)
      reads this, timeWait, timeWait.nodes, timeRemove, was.Keys, fired
    {
      && Valid() && timeRemove == [] && timeWait.nodes <= was.Keys
      && FiredBefore(fired, timeWait.nodes)
      && (forall i :: 0 <= i < |fired| ==> fired[i] in was)
      && (forall c {:trigger was[c]} :: c in was ==> Settled(c, was[c], timeWait.nodes, fired, now))
    }

    /** `wait` is what the worker may sleep: up to the earliest deadline, or for good. */
    ghost predicate WaitFor(wait: int, now: int)
      reads this, timeWait, timeWait.nodes
    {
      if timeWait.nodes == {} then wait == -1 else wait > 0 && EarliestIn(now + wait, timeWait.nodes)
    }

    method ExpireFirst(ctx: Context, now: int, ghost was: map<Context, View>, ghost fired: seq<Context>)
      returns (ghost woken: seq<Context>)
      requires Expiring(was, fired, now) && ctx in timeWait.nodes && ctx.timeout <= now
      requires forall c :: c in timeWait.nodes ==> ctx.timeout <= c.timeout
      modifies sche, timeWait, timeWait.nodes`index, ctx`word, ctx`status, ctx`interrupted
      ensures timeWait.nodes == old(timeWait.nodes) - {ctx}
      ensures Expiring(was, fired + woken, now) && sche.ctxQue == old(sche.ctxQue) + woken
    {
      ghost var pending := timeWait.nodes;
      woken := TakeDue(ctx);
      FireNext(fired, pending, ctx, woken);
      forall c | c in was
        ensures Settled(c, was[c], timeWait.nodes, fired + woken, now)
      {
        if c != ctx { assert c in timeWait.nodes <==> c in pending; }
      }
    }

    /** Body of the second loop; `more` when it took a context that was due. */
    method ExpireNext(now: int, ghost was: map<Context, View>, ghost fired: seq<Context>)
      returns (more: bool, wait: int, ghost woken: seq<Context>)
      requires Expiring(was, fired, now)
      modifies sche, timeWait, timeWait.nodes`index, timeWait.nodes`word, timeWait.nodes`status, timeWait.nodes`interrupted
      ensures timeWait.nodes <= old(timeWait.nodes) && (more ==> |timeWait.nodes| < |old(timeWait.nodes)|)
      ensures Expiring(was, fired + woken, now) && sche.ctxQue == old(sche.ctxQue) + woken
      ensures !more ==> woken == [] && WaitFor(wait, now)
    {
      var ctx := timeWait.Top();
      if ctx == null {
        AppendNothing(fired);
        AppendNothing(sche.ctxQue);
        return false, -1, [];
      }
      if ctx.timeout > now {
        AppendNothing(fired);
        AppendNothing(sche.ctxQue);
        return false, ctx.timeout - now, [];
      }
      woken := ExpireFirst(ctx, now, was, fired);
      more, wait := true, 0;
    }

    /** Second loop: everything due leaves the heap, in the order of the deadlines. */
    method ExpireDue(now: int, ghost was: map<Context, View>) returns (wait: int, ghost fired: seq<Context>)
      requires Expiring(was, [], now)
      modifies sche, timeWait, timeWait.nodes`index, timeWait.nodes`word, timeWait.nodes`status, timeWait.nodes`interrupted
      ensures Expiring(was, fired, now) && sche.ctxQue == old(sche.ctxQue) + fired
      ensures WaitFor(wait, now)
    {
      fired, wait := [], -1;
      var more := true;
      ghost var start := sche.ctxQue;
      while more
        invariant timeWait.nodes <= old(timeWait.nodes) && start == old(sche.ctxQue)
        invariant Expiring(was, fired, now) && sche.ctxQue == start + fired
        invariant !more ==> WaitFor(wait, now)
        decreases more, |timeWait.nodes|
      {
        ghost var woken;
        more, wait, woken := ExpireNext(now, was, fired);
        Associate(start, fired, woken);
        fired := fired + woken;
      }
    }

    /** `dco_time_proc`. */
    method TimeProc(now: int) returns (wait: int, ghost fired: seq<Context>)
      requires Valid()
      modifies this`timeRemove, sche, timeWait
      modifies timeWait.nodes`index, timeWait.nodes`word, timeWait.nodes`status, timeWait.nodes`interrupted
      modifies timeRemove`index, timeRemove`word, timeRemove`status, timeRemove`interrupted
      ensures Valid() && timeRemove == []
      // what stays in the heap
      ensures forall c :: c in timeWait.nodes <==>
                c in old(timeWait.nodes) && c !in old(timeRemove) && c.timeout > now
      // the result
      ensures WaitFor(wait, now)
      // what is queued: first the interrupted sleepers, then the due ones by deadline
      ensures sche.ctxQue == old(sche.ctxQue) + old(Marked(timeRemove)) + fired
      ensures forall c :: c in fired <==>
                && c in old(timeWait.nodes) && c !in old(timeRemove)
                && c.timeout <= now && old(c.status).SleepSetSet?
      ensures ByDeadline(fired)
      // what each context sees when it runs again
      ensures forall c :: c in old(timeRemove) ==> c.index == NO_INDEX
      ensures forall c :: c in old(timeRemove) ==>
                if old(c.status).SleepSetRemove? then c.Valid() && c.status == Ready && c.interrupted else Kept(c)
      ensures forall c :: c in fired ==> c.Valid() && c.status == Ready && !c.interrupted
      ensures forall c :: c in old(timeWait.nodes) && c !in old(timeRemove) && c !in fired ==> Kept(c)
    {
      DrainRemovals();
      ghost var was := map c | c in timeWait.nodes :: ViewOf(c);
      wait, fired := ExpireDue(now, was);
    }
  }
}
