/**
 The retry loops as they interleave: every load and every compare-exchange of every thread, and the
 plain store of `reset`, is a step of its own on one shared status word.  The refinement theorem says
 that all the threads together behave as if each call were one atomic transition of the table.
 */
module CasRefinement {
  import opened CoStatus

  datatype Thread =
    | Idle
    | Called(op: Op)                  // before `status_.load()`
    | Loaded(op: Op, current: Word)   // holds a value, before the compare-exchange or the break
    | Returned(op: Op, res: int)

  datatype State = State(word: Word, threads: seq<Thread>)

  datatype Action =
    | Call(t: nat, op: Op)
    | Load(t: nat)
    | Break(t: nat)
    | CompareExchange(t: nat)
    | Return(t: nat)
    | Store(t: nat)   // `reset`: a plain store, which also takes the version back to 0

  predicate Refuses(op: Op, w: Word)
    requires WellFormed(w)
  {
    Attempt(op, StatusOf(w)).Refuse?
  }

  ghost predicate Good(s: State) {
    && WellFormed(s.word)
    && forall t :: 0 <= t < |s.threads| && s.threads[t].Loaded? ==> WellFormed(s.threads[t].current)
  }

  ghost predicate Enabled(s: State, a: Action)
    requires Good(s)
  {
    && a.t < |s.threads|
    && match a
       case Call(t, _) => s.threads[t].Idle?
       case Load(t) => s.threads[t].Called?
       case Break(t) => s.threads[t].Loaded? && Refuses(s.threads[t].op, s.threads[t].current)
       case CompareExchange(t) => s.threads[t].Loaded? && !Refuses(s.threads[t].op, s.threads[t].current)
       case Return(t) => s.threads[t].Returned?
       case Store(t) => s.threads[t].Idle?
  }

  ghost function Next(s: State, a: Action): State
    requires Good(s) && Enabled(s, a)
  {
    var th := s.threads[a.t];
    match a
    case Call(t, op) => s.(threads := s.threads[t := Called(op)])
    case Load(t) => s.(threads := s.threads[t := Loaded(th.op, s.word)])
    case Break(t) => s.(threads := s.threads[t := Returned(th.op, -1)])
    case CompareExchange(t) =>
      if s.word == th.current then
        var o := Attempt(th.op, StatusOf(th.current));
        State(NewWord(th.current, o.next), s.threads[t := Returned(th.op, o.res)])
      else
        s.(threads := s.threads[t := Loaded(th.op, s.word)])
    case Return(t) => s.(threads := s.threads[t := Idle])
    case Store(_) => s.(word := RESET_WORD)
  }

  // ---- the atomic system -----------------------------------------------------------------

  datatype AThread = AIdle | APending(op: Op) | ADone(op: Op, res: int)

  datatype AState = AState(status: Status, threads: seq<AThread>)

  /** Thread `t` performs its whole operation in one indivisible step. */
  ghost predicate Atomic(a: AState, t: nat, a': AState) {
    && t < |a.threads| && a.threads[t].APending?
    && var op := a.threads[t].op;
       var o := Attempt(op, a.status);
       a' == AState(StatusAfter(o, a.status), a.threads[t := ADone(op, ResultOf(o))])
  }

  ghost predicate Begin(a: AState, t: nat, op: Op, a': AState) {
    t < |a.threads| && a.threads[t].AIdle? && a' == a.(threads := a.threads[t := APending(op)])
  }

  ghost predicate Finish(a: AState, t: nat, a': AState) {
    t < |a.threads| && a.threads[t].ADone? && a' == a.(threads := a.threads[t := AIdle])
  }

  ghost predicate Restart(a: AState, t: nat, a': AState) {
    t < |a.threads| && a.threads[t].AIdle? && a' == a.(status := YieldSet)
  }

  ghost predicate AStep(a: AState, t: nat, a': AState) {
    || a' == a
    || Atomic(a, t, a')
    || Finish(a, t, a')
    || Restart(a, t, a')
    || exists op :: Begin(a, t, op, a')
  }

  // ---- refinement ------------------------------------------------------------------------

  /** A thread that holds a value the table refuses is already bound to return -1: it counts as
      done from the moment it read that value. */
  ghost function AbsThread(th: Thread): AThread {
    match th
    case Idle => AIdle
    case Called(op) => APending(op)
    case Loaded(op, w) => if WellFormed(w) && Refuses(op, w) then ADone(op, -1) else APending(op)
    case Returned(op, res) => ADone(op, res)
  }

  ghost function Abs(s: State): (a: AState)
    requires Good(s)
  {
    AState(StatusOf(s.word), seq(|s.threads|, i requires 0 <= i < |s.threads| => AbsThread(s.threads[i])))
  }

  lemma StepRefines(s: State, a: Action)
    requires Good(s) && Enabled(s, a)
    ensures Good(Next(s, a))
    ensures AStep(Abs(s), a.t, Abs(Next(s, a)))
  {
    var s' := Next(s, a);
    assert Encodes(RESET_WORD, YieldSet);
    UniqueStatus(RESET_WORD, YieldSet);
    var b, b', t := Abs(s), Abs(s'), a.t;
    assert forall i :: 0 <= i < |s.threads| && i != t ==> b'.threads[i] == b.threads[i];
    match a
    case Call(_, op) => assert Begin(b, t, op, b');
    case Load(_) =>
      if Refuses(s.threads[t].op, s.word) {
        assert b'.threads == b.threads[t := ADone(s.threads[t].op, -1)];
        assert Atomic(b, t, b');
      } else {
        assert b'.threads == b.threads;
      }
    case Break(_) => assert b'.threads == b.threads;
    case CompareExchange(_) =>
      var op := s.threads[t].op;
      if s.word == s.threads[t].current {
        assert b'.threads == b.threads[t := ADone(op, Attempt(op, b.status).res)];
        assert Atomic(b, t, b');
      } else if Refuses(op, s.word) {
        assert b'.threads == b.threads[t := ADone(op, -1)];
        assert Atomic(b, t, b');
      } else {
        assert b'.threads == b.threads;
      }
    case Return(_) =>
      assert b'.threads == b.threads[t := AIdle];
      assert Finish(b, t, b');
    case Store(_) =>
      assert b'.threads == b.threads;
      assert Restart(b, t, b');
  }

  /** A run: any finite interleaving that starts from a well-formed word and fresh threads. */
  ghost predicate Run(states: seq<State>, actions: seq<Action>) {
    && |states| == |actions| + 1
    && WellFormed(states[0].word)
    && (forall t :: 0 <= t < |states[0].threads| ==> states[0].threads[t].Idle?)
    && forall i {:trigger actions[i]} :: 0 <= i < |actions| ==>
         Good(states[i]) ==> Enabled(states[i], actions[i]) && states[i + 1] == Next(states[i], actions[i])
  }

  lemma {:induction false} RunIsGood(states: seq<State>, actions: seq<Action>, n: nat)
    requires Run(states, actions) && n < |states|
    ensures Good(states[n])
  {
    if n > 0 {
      RunIsGood(states, actions, n - 1);
      assert Enabled(states[n - 1], actions[n - 1]);
      StepRefines(states[n - 1], actions[n - 1]);
    }
  }

  /** Every interleaving of loads, breaks and compare-exchanges is, state by state, a run of the
      atomic system in which each thread's operation takes effect in one step. */
  lemma InterleavingsAreAtomic(states: seq<State>, actions: seq<Action>)
    requires Run(states, actions)
    ensures forall i :: 0 <= i < |states| ==> Good(states[i])
    ensures forall i :: 0 <= i < |actions| ==> AStep(Abs(states[i]), actions[i].t, Abs(states[i + 1]))
  {
    forall i | 0 <= i < |states|
      ensures Good(states[i])
    {
      RunIsGood(states, actions, i);
    }
    forall i | 0 <= i < |actions|
      ensures AStep(Abs(states[i]), actions[i].t, Abs(states[i + 1]))
    {
      assert Enabled(states[i], actions[i]);
      StepRefines(states[i], actions[i]);
    }
  }
}
