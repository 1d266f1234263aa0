/** The coroutine context object of src/coctx.cpp, without its stacks. */
module CoCtx {
  import opened CoStatus

  /** `index_` of a context that is in no timer heap: (size_t)-1. */
  const NO_INDEX: int := -1

  class Context {
    var word: Word        // status_
    var timeout: int      // timeout_
    var interrupted: bool // break_: the last sleep was ended by a resume
    var index: int        // index_
    var end: bool         // end_
    const id: nat         // id_
    /** What the low byte of the word says. */
    ghost var status: Status

    ghost predicate Valid()
      reads this
    {
      Encodes(word, status)
    }

    constructor (id: nat)
      ensures Valid() && status == YieldSet && word == RESET_WORD == 0x14
      ensures timeout == 0 && !interrupted && !end && index == NO_INDEX && this.id == id
    {
      this.id := id;
      word := RESET_WORD;
      index := NO_INDEX;
      timeout := 0;
      interrupted := false;
      end := false;
      status := YieldSet;
    }

    /**
     The retry loop shared by the seven `try_*_full` functions.  `others` is what the rest of the
     program does to the word meanwhile: `others[k]` is the value it holds when the (k+1)-th
     compare-exchange of this call executes.

     The call decides on a single value `seen` that the word really held during the call:
     either it replaces exactly that value by its successor in the table, or the table refuses
     that value and the call writes nothing.
     */
    method TryFull(op: Op, others: seq<Word>) returns (res: int, ghost seen: Word, ghost used: nat)
      requires Valid() && forall w :: w in others ==> WellFormed(w)
      modifies this`word, this`status
      ensures Valid() && used <= |others|
      ensures WellFormed(seen) && seen == (if used == 0 then old(word) else others[used - 1])
      ensures res == ResultOf(Attempt(op, StatusOf(seen)))
      ensures status == StatusAfter(Attempt(op, StatusOf(seen)), StatusOf(seen))
      ensures word == if res == -1 then seen else NewWord(seen, status)
      // what each of the seven functions returns and installs
      ensures op == Op.Resume ==>
                match StatusOf(seen)
                case YieldSet => res == 0 && status == Ready
                case YieldReset => res == 1 && status == YieldBreak
                case SleepReset => res == 2 && status == SleepBreak
                case SleepSet => res == 3 && status == SleepSetBreak
                case SleepSetSet => res == 4 && status == SleepSetRemove
                case _ => res == -1 && status == StatusOf(seen)
      ensures op == Op.Yield ==>
                if StatusOf(seen) == Ready then res == 1 && status == YieldReset else res == -1 && status == StatusOf(seen)
      ensures op == Op.Sw ==>
                match StatusOf(seen)
                case YieldReset => res == 1 && status == YieldSet
                case SleepReset => res == 2 && status == SleepSet
                case YieldBreak => res == 0 && status == Ready
                case SleepBreak => res == 0 && status == Ready
                case _ => res == -1 && status == StatusOf(seen)
      ensures op == Op.Sleep ==>
                if StatusOf(seen) == Ready then res == 1 && status == SleepReset else res == -1 && status == StatusOf(seen)
      ensures op == Op.SleepAdd ==>
                match StatusOf(seen)
                case SleepSet => res == 1 && status == SleepSetSet
                case SleepSetBreak => res == 0 && status == Ready
                case _ => res == -1 && status == StatusOf(seen)
      ensures op == Op.SleepRemove ==>
                if StatusOf(seen) == SleepSetRemove then res == 0 && status == Ready else res == -1 && status == StatusOf(seen)
      ensures op == Op.SleepTimeout ==>
                if StatusOf(seen) == SleepSetSet then res == 0 && status == Ready else res == -1 && status == StatusOf(seen)
      // without interference the word the caller started with decides
      ensures others == [] ==> seen == old(word) && StatusOf(seen) == old(status)
    {
      var current := word;
      var k := 0;
      assert WellFormed(word);
      UniqueStatus(word, status);
      used := 0;
      seen := current;
      res := -1;
      while true
        invariant k <= |others| && used == k
        invariant WellFormed(current) && current == word == seen && status == StatusOf(current)
        invariant used == 0 ==> status == old(status)
        invariant seen == (if used == 0 then old(word) else others[used - 1])
        decreases |others| - k
      {
        res := -1;
        var o := Attempt(op, StatusOf(current));
        if o.Refuse? {
          break;
        }
        res := o.res;
        var newWord := NewWord(current, o.next);
        if k < |others| {
          word, status := others[k], StatusOf(others[k]);
          k := k + 1;
          used, seen := k, word;
        }
        if word == current {
          word, status := newWord, o.next;
          break;
        }
        current := word;
      }
    }

    method SetTimeout(until: int)
      requires index == NO_INDEX
      modifies this`timeout, this`interrupted, this`index
      ensures timeout == until && interrupted && index == NO_INDEX
    {
      timeout := until;
      interrupted := true;
      index := NO_INDEX;
    }

    method Reset()
      requires index == NO_INDEX
      modifies this
      ensures Valid() && status == YieldSet && word == RESET_WORD == 0x14
      ensures !end && timeout == 0 && interrupted && index == NO_INDEX
    {
      word, status := RESET_WORD, YieldSet;
      end := false;
      SetTimeout(0);
    }
  }
}
