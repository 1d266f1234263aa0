/**
 What a cyclic redundancy check is: modulo-2 long division, the bit-at-a-time register that the
 library runs instead, the proof that they agree, and the consequences the table-driven forms
 rest on.  A divisor x^n + p(x) is given by its n low coefficients `p`.
 */
module CrcSpec {
  import opened BitString

  // ---- reference: schoolbook division ----------------------------------------------------

  /** XORs `r` into the first |r| bits of `d`. */
  function XorHead(d: Bits, r: Bits): (e: Bits)
    requires |r| <= |d|
    ensures |e| == |d|
    ensures forall i :: 0 <= i < |d| ==> e[i] == (if i < |r| then d[i] != r[i] else d[i])
  {
    Xor(d[..|r|], r) + d[|r|..]
  }

  /** One line of the long division: drop the leading coefficient, after subtracting the divisor if
      it was 1. */
  function DivisionStep(d: Bits, p: Bits): (e: Bits)
    requires |d| > |p|
    ensures |e| == |d| - 1
    ensures forall i :: 0 <= i < |e| ==> e[i] == (d[i + 1] != (i < |p| && d[0] && p[i]))
  {
    if d[0] then XorHead(d[1..], p) else d[1..]
  }

  /** Modulo-2 long division of the dividend `d` by x^n + p: subtract the divisor wherever the
      leading coefficient is 1; what is left at the end is the remainder. */
  function LongDivision(d: Bits, p: Bits): (r: Bits)
    requires |p| > 0 && |d| >= |p|
    ensures |r| == |p|
    decreases |d|
  {
    if |d| == |p| then d
    else LongDivision(DivisionStep(d, p), p)
  }

  // ---- the register ----------------------------------------------------------------------

  /** One step of the unaugmented register. */
  function Feed(r: Bits, bit: bool, p: Bits): (s: Bits)
    requires |r| == |p| > 0
    ensures |s| == |p|
    ensures forall i :: 0 <= i < |p| ==> s[i] == ((i + 1 < |p| && r[i + 1]) != (r[0] != bit && p[i]))
  {
    if r[0] != bit then Xor(ShiftLeft(r, 1), p) else ShiftLeft(r, 1)
  }

  function FeedAll(r: Bits, bits: Bits, p: Bits): (s: Bits)
    requires |r| == |p| > 0
    ensures |s| == |p|
    decreases |bits|
  {
    if bits == [] then r else FeedAll(Feed(r, bits[0], p), bits[1..], p)
  }

  /** The register holds the remainder of the message extended by n zero bits, with the initial
      register XORed into the front: the library's "virtually moved" augmentation. */
  lemma {:induction false} RegisterIsRemainder(r: Bits, bits: Bits, p: Bits)
    requires |r| == |p| > 0
    ensures FeedAll(r, bits, p) == LongDivision(XorHead(bits + Zeros(|p|), r), p)
    decreases |bits|
  {
    var n := |p|;
    var d := XorHead(bits + Zeros(n), r);
    if bits == [] {
      assert d == r;
    } else {
      var s := Feed(r, bits[0], p);
      RegisterIsRemainder(s, bits[1..], p);
      FeedIsDivisionStep(r, bits, p);
    }
  }

  lemma FeedIsDivisionStep(r: Bits, bits: Bits, p: Bits)
    requires |r| == |p| > 0 && bits != []
    ensures DivisionStep(XorHead(bits + Zeros(|p|), r), p)
         == XorHead(bits[1..] + Zeros(|p|), Feed(r, bits[0], p))
  {
    var x, y := bits + Zeros(|p|), bits[1..] + Zeros(|p|);
    assert forall i :: 0 <= i < |y| ==> y[i] == x[i + 1];
  }

  lemma {:induction false} FeedConcat(r: Bits, a: Bits, b: Bits, p: Bits)
    requires |r| == |p| > 0
    ensures FeedAll(r, a + b, p) == FeedAll(FeedAll(r, a, p), b, p)
    decreases |a|
  {
    if a == [] {
      assert a + b == b;
    } else {
      assert (a + b)[1..] == a[1..] + b;
      FeedConcat(Feed(r, a[0], p), a[1..], b, p);
    }
  }

  // ---- linearity -------------------------------------------------------------------------

  lemma {:induction false} DivisionIsLinear(d: Bits, e: Bits, p: Bits)
    requires |p| > 0 && |d| == |e| >= |p|
    ensures LongDivision(Xor(d, e), p) == Xor(LongDivision(d, p), LongDivision(e, p))
    decreases |d|
  {
    if |d| > |p| {
      DivisionIsLinear(DivisionStep(d, p), DivisionStep(e, p), p);
      assert DivisionStep(Xor(d, e), p) == Xor(DivisionStep(d, p), DivisionStep(e, p));
    }
  }

  /** Leading zero coefficients change nothing. */
  lemma {:induction false} LeadingZeros(k: nat, r: Bits, p: Bits)
    requires |r| == |p| > 0
    ensures LongDivision(Zeros(k) + r, p) == r
  {
    if k == 0 {
      assert Zeros(0) + r == r;
    } else {
      var d := Zeros(k) + r;
      assert DivisionStep(d, p) == Zeros(k - 1) + r;
      LeadingZeros(k - 1, r, p);
    }
  }

  /** Splitting off the last n coefficients: they only add to the remainder. */
  lemma SplitTail(head: Bits, tail: Bits, p: Bits)
    requires |tail| == |p| > 0
    ensures LongDivision(head + tail, p) == Xor(LongDivision(head + Zeros(|p|), p), tail)
  {
    var k, n := |head|, |p|;
    XorConcat(head, Zeros(n), Zeros(k), tail);
    XorZeros(head);
    XorZeros(tail);
    DivisionIsLinear(head + Zeros(n), Zeros(k) + tail, p);
    LeadingZeros(k, tail, p);
  }

  /** The remainder that the coefficients `x`, followed by n zeros, leave: the table entry of `x`. */
  function Product(x: Bits, p: Bits): Bits
    requires |p| > 0
  {
    FeedAll(Zeros(|p|), x, p)
  }

  lemma ProductIsRemainder(x: Bits, p: Bits)
    requires |p| > 0
    ensures Product(x, p) == LongDivision(x + Zeros(|p|), p)
  {
    RegisterIsRemainder(Zeros(|p|), x, p);
    assert XorHead(x + Zeros(|p|), Zeros(|p|)) == x + Zeros(|p|);
  }

  /** A whole block at once: shift the register by the block and add the table entry of the leading
      bits XOR the block.  This is the step of the direct table-driven update. */
  lemma BlockStep(r: Bits, block: Bits, p: Bits)
    requires |r| == |p| > 0 && |block| <= |p|
    ensures FeedAll(r, block, p)
         == Xor(ShiftLeft(r, |block|), Product(Xor(r[..|block|], block), p))
  {
    var k, n := |block|, |p|;
    var x := Xor(r[..k], block);
    RegisterIsRemainder(r, block, p);
    assert XorHead(block + Zeros(n), r) == x + ShiftLeft(r, k) by { HeadOfBlock(r, block); }
    SplitTail(x, ShiftLeft(r, k), p);
    ProductIsRemainder(x, p);
    XorCommutes(Product(x, p), ShiftLeft(r, k));
  }

  lemma HeadOfBlock(r: Bits, block: Bits)
    requires |block| <= |r|
    ensures XorHead(block + Zeros(|r|), r) == Xor(r[..|block|], block) + ShiftLeft(r, |block|)
  {}

  /** The same for a message that carries its own augmentation: the remainder of `r` followed by the
      block.  The table is the unaugmented one. */
  lemma AugmentedBlockStep(r: Bits, block: Bits, p: Bits)
    requires |r| == |p| > 0 && |block| <= |p|
    ensures LongDivision(r + block, p) == Xor(r[|block|..] + block, Product(r[..|block|], p))
  {
    var k, n := |block|, |p|;
    assert r + block == r[..k] + (r[k..] + block);
    SplitTail(r[..k], r[k..] + block, p);
    ProductIsRemainder(r[..k], p);
  }

  /** Dividing in pieces. */
  lemma {:induction false} DivideInPieces(d: Bits, tail: Bits, p: Bits)
    requires |p| > 0 && |d| >= |p|
    ensures LongDivision(d + tail, p) == LongDivision(LongDivision(d, p) + tail, p)
    decreases |d|
  {
    if |d| > |p| {
      assert DivisionStep(d + tail, p) == DivisionStep(d, p) + tail;
      DivideInPieces(DivisionStep(d, p), tail, p);
    }
  }

  /** The point of the code: a message followed by its checksum (initial register 0, no reflection,
      no final XOR) leaves no remainder. */
  lemma ChecksumDividesOut(message: Bits, p: Bits)
    requires |p| > 0
    ensures LongDivision(message + Product(message, p), p) == Zeros(|p|)
  {
    SplitTail(message, Product(message, p), p);
    ProductIsRemainder(message, p);
  }

  // ---- reflected register ----------------------------------------------------------------

  /** The reflected form of the block step: the register is kept reversed, shifts right, and uses
      the reversed table. */
  lemma ReflectedBlockStep(m: Bits, block: Bits, p: Bits)
    requires |m| == |p| > 0 && |block| <= |p|
    ensures Reverse(FeedAll(Reverse(m), Reverse(block), p))
         == Xor(ShiftRight(m, |block|), Reverse(Product(Reverse(Xor(Low(m, |block|), block)), p)))
  {
    var k := |block|;
    var r := Reverse(m);
    BlockStep(r, Reverse(block), p);
    HeadOfReverse(m, k);
    ReverseXor(Low(m, k), block);
    ReverseXor(ShiftLeft(r, k), Product(Reverse(Xor(Low(m, k), block)), p));
    ReverseShift(m, k);
  }

  // ---- messages of bytes -----------------------------------------------------------------

  type Byte = b: Bits | |b| == 8 witness Zeros(8)

  /** All bits of a message in the order in which they are fed. */
  function Flatten(bytes: seq<Byte>, reflect: bool): (bits: Bits)
  {
    if bytes == [] then [] else Flatten(bytes[..|bytes| - 1], reflect) + Oriented(bytes[|bytes| - 1], reflect)
  }

  function Oriented(w: Bits, reflect: bool): (r: Bits)
    ensures |r| == |w|
  {
    if reflect then Reverse(w) else w
  }

  /** The parameters of the Rocksoft model: Poly, Init, XorOut, RefIn, RefOut. */
  datatype Model = Model(poly: Bits, init: Bits, xorOut: Bits, refIn: bool, refOut: bool)

  predicate ModelOk(m: Model) {
    |m.poly| == |m.init| == |m.xorOut| > 0
  }

  function Interim(m: Model, message: seq<Byte>): (r: Bits)
    requires ModelOk(m)
    ensures |r| == |m.poly|
  {
    FeedAll(m.init, Flatten(message, m.refIn), m.poly)
  }

  function Checksum(m: Model, message: seq<Byte>): Bits
    requires ModelOk(m)
  {
    Xor(Oriented(Interim(m, message), m.refOut), m.xorOut)
  }
}
