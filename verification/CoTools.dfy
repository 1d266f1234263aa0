/**
 The two bounded counter operations of src/cotools.cpp, as compare-exchange loops on a counter that
 other threads change at the same time.
 */
module CoTools {

  /** What happens right before one compare-exchange: the rest of the program leaves `value` in the
      counter, and the weak compare-exchange may fail although the value matches. */
  datatype Meanwhile = Meanwhile(value: int, spurious: bool)

  class AtomicInt {
    var value: int

    constructor (value: int)
      ensures this.value == value
    {
      this.value := value;
    }

    /** `atomic_decrement_if_positive(sem, _, 1)`.  The call decides on one value `seen` that the
        counter really held: it takes one from exactly that value, or it was not positive and
        nothing is written. */
    method DecrementIfPositive(others: seq<Meanwhile>) returns (ok: bool, ghost seen: int, ghost used: nat)
      modifies this
      ensures used <= |others| && seen == (if used == 0 then old(value) else others[used - 1].value)
      ensures ok <==> seen > 0
      ensures value == if ok then seen - 1 else seen
      ensures others == [] ==> seen == old(value)
    {
      var current := value;
      var k := 0;
      used, seen := 0, current;
      while true
        invariant used == k <= |others| && current == value == seen
        invariant seen == (if k == 0 then old(value) else others[k - 1].value)
        decreases |others| - k
      {
        if current <= 0 {
          return false, seen, used;
        }
        var swapped: bool;
        swapped, k := CompareExchangeWeak(current, current - 1, others, k);
        used := k;
        if swapped {
          seen := current;
          return true, seen, used;
        }
        current := value;
        seen := current;
      }
    }

    /** `atomic_increase_if_positive(sem, max, 1)` */
    method IncreaseIfBelow(max: int, others: seq<Meanwhile>) returns (ok: bool, ghost seen: int, ghost used: nat)
      modifies this
      ensures used <= |others| && seen == (if used == 0 then old(value) else others[used - 1].value)
      ensures ok <==> seen < max
      ensures value == if ok then seen + 1 else seen
      ensures others == [] ==> seen == old(value)
    {
      var current := value;
      var k := 0;
      used, seen := 0, current;
      while true
        invariant used == k <= |others| && current == value == seen
        invariant seen == (if k == 0 then old(value) else others[k - 1].value)
        decreases |others| - k
      {
        if current >= max {
          return false, seen, used;
        }
        var swapped: bool;
        swapped, k := CompareExchangeWeak(current, current + 1, others, k);
        used := k;
        if swapped {
          seen := current;
          return true, seen, used;
        }
        current := value;
        seen := current;
      }
    }

    /** One weak compare-exchange, after the k-th intervention if there is one. */
    method CompareExchangeWeak(expected: int, desired: int, others: seq<Meanwhile>, k: nat)
      returns (swapped: bool, next: nat)
      requires k <= |others|
      modifies this
      ensures next == if k < |others| then k + 1 else k
      ensures var found := if k < |others| then others[k].value else old(value);
              && swapped == (found == expected && !(k < |others| && others[k].spurious))
              && value == if swapped then desired else found
    {
      next := k;
      var spurious := false;
      if k < |others| {
        value, spurious, next := others[k].value, others[k].spurious, k + 1;
      }
      swapped := value == expected && !spurious;
      if swapped {
        value := desired;
      }
    }
  }
}
