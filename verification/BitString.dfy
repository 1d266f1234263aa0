/**
 Fixed-width unsigned words as sequences of bits, most significant bit first, so that a word reads
 as it is written: `w[1..] + [false]` is a left shift by one.
 */
module BitString {

  type Bits = seq<bool>

  function Zeros(n: nat): (z: Bits)
    ensures |z| == n && forall i :: 0 <= i < n ==> !z[i]
  {
    seq(n, i => false)
  }

  function Xor(a: Bits, b: Bits): (r: Bits)
    requires |a| == |b|
    ensures |r| == |a| && forall i :: 0 <= i < |a| ==> r[i] == (a[i] != b[i])
  {
    seq(|a|, i requires 0 <= i < |a| => a[i] != b[i])
  }

  /** The low `n` bits. */
  function Low(w: Bits, n: nat): Bits
    requires n <= |w|
  {
    w[|w| - n..]
  }

  function High(w: Bits, n: nat): Bits
    requires n <= |w|
  {
    w[..|w| - n]
  }

  function ShiftLeft(w: Bits, k: nat): (r: Bits)
    requires k <= |w|
    ensures |r| == |w| && forall i :: 0 <= i < |w| ==> r[i] == (i + k < |w| && w[i + k])
  {
    w[k..] + Zeros(k)
  }

  function ShiftRight(w: Bits, k: nat): (r: Bits)
    requires k <= |w|
    ensures |r| == |w| && forall i :: 0 <= i < |w| ==> r[i] == (i >= k && w[i - k])
  {
    Zeros(k) + w[..|w| - k]
  }

  function Reverse(w: Bits): (r: Bits)
    ensures |r| == |w| && forall i :: 0 <= i < |w| ==> r[i] == w[|w| - 1 - i]
  {
    seq(|w|, i requires 0 <= i < |w| => w[|w| - 1 - i])
  }

  lemma ReverseTwice(w: Bits)
    ensures Reverse(Reverse(w)) == w
  {}

  lemma ReverseXor(a: Bits, b: Bits)
    requires |a| == |b|
    ensures Reverse(Xor(a, b)) == Xor(Reverse(a), Reverse(b))
  {}

  lemma XorConcat(a: Bits, b: Bits, c: Bits, d: Bits)
    requires |a| == |c| && |b| == |d|
    ensures Xor(a + b, c + d) == Xor(a, c) + Xor(b, d)
  {}

  lemma XorZeros(a: Bits)
    ensures Xor(a, Zeros(|a|)) == a && Xor(Zeros(|a|), a) == a
  {}

  lemma XorCommutes(a: Bits, b: Bits)
    requires |a| == |b|
    ensures Xor(a, b) == Xor(b, a)
  {}

  lemma ReverseShift(m: Bits, k: nat)
    requires k <= |m|
    ensures Reverse(ShiftLeft(Reverse(m), k)) == ShiftRight(m, k)
  {}

  lemma HeadOfReverse(m: Bits, k: nat)
    requires k <= |m|
    ensures Reverse(m)[..k] == Reverse(Low(m, k))
  {}

  // ---- numbers ---------------------------------------------------------------------------

  function Value(w: Bits): nat {
    if w == [] then 0 else 2 * Value(w[..|w| - 1]) + (if w[|w| - 1] then 1 else 0)
  }

  function Pow2(n: nat): nat { if n == 0 then 1 else 2 * Pow2(n - 1) }

  function BitsOf(v: nat, n: nat): (w: Bits)
    ensures |w| == n
  {
    if n == 0 then [] else BitsOf(v / 2, n - 1) + [v % 2 == 1]
  }

  lemma {:induction false} ValueBound(w: Bits)
    ensures Value(w) < Pow2(|w|)
  {
    if w != [] { ValueBound(w[..|w| - 1]); }
  }

  lemma {:induction false} BitsOfValue(w: Bits)
    ensures BitsOf(Value(w), |w|) == w
  {
    if w != [] {
      var u := w[..|w| - 1];
      BitsOfValue(u);
      assert Value(w) / 2 == Value(u);
      assert w == u + [w[|w| - 1]];
    }
  }

  lemma {:induction false} ValueOfBits(v: nat, n: nat)
    requires v < Pow2(n)
    ensures Value(BitsOf(v, n)) == v
  {
    if n > 0 {
      ValueOfBits(v / 2, n - 1);
      assert BitsOf(v, n)[..n - 1] == BitsOf(v / 2, n - 1);
    }
  }
}
