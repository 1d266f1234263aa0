/**
 `crc_optimal`: which checksum the table-driven computer returns, for every order and register
 width, compared with the Rocksoft model (CrcSpec.Checksum).
 */
module CrcOptimal {
  import opened BitString
  import opened CrcSpec
  import opened CrcTables

  /** What `reflector<n>::reflect_q` leaves in a register of |x| bits.  Up to 8 bits the argument goes
      through an `unsigned char` and everything above the order is dropped; beyond 8 bits it is kept. */
  function ReflectQ(x: Bits, n: nat): (r: Bits)
    requires 0 < n <= |x|
    ensures |r| == |x| && Low(r, n) == Reverse(Low(x, n))
    ensures n <= 8 ==> r == Mirror(|x|, Low(x, n))
    ensures High(x, n) == Zeros(|x| - n) ==> r == Mirror(|x|, Low(x, n))
  {
    LowOfReflected(x, n);
    if n > 8 then Reflected(x, n) else Mirror(|x|, Low(x, n))
  }

  lemma LowOfReflected(x: Bits, n: nat)
    requires n <= |x|
    ensures Low(Reflected(x, n), n) == Reverse(Low(x, n))
    ensures Low(Mirror(|x|, Low(x, n)), n) == Reverse(Low(x, n))
  {}

  /** The bitwise loop over whole bytes: it clears the bits above the order with the first byte. */
  function Bytewise(w: Bits, bytes: seq<Byte>, p: Bits, reflect: bool): (r: Bits)
    requires 0 < |p| <= |w|
    ensures |r| == |w|
  {
    if bytes == [] then w else Zeros(|w| - |p|) + FeedAll(Low(w, |p|), Flatten(bytes, reflect), p)
  }

  lemma LowOfBytewise(w: Bits, bytes: seq<Byte>, p: Bits, reflect: bool)
    requires 0 < |p| <= |w|
    ensures Low(Bytewise(w, bytes, p, reflect), |p|) == FeedAll(Low(w, |p|), Flatten(bytes, reflect), p)
  {}

  /** The driver for orders below 8. */
  function SubByteUpdate(w: Bits, bytes: seq<Byte>, p: Bits, reflect: bool): (r: Bits)
    requires 0 < |p| <= |w|
    ensures |r| == |w|
  {
    if reflect then Mirror(|w|, Low(Bytewise(Mirror(|w|, Low(w, |p|)), bytes, p, true), |p|))
    else Bytewise(w, bytes, p, false)
  }

  function Drive(w: Bits, bytes: seq<Byte>, p: Bits, reflect: bool): (r: Bits)
    requires 0 < |p| <= |w|
    ensures |r| == |w|
  {
    if |p| < 8 then SubByteUpdate(w, bytes, p, reflect) else Update(w, bytes, p, reflect)
  }

  /** The template parameters, as words of the register's width. */
  datatype Params = Params(order: nat, poly: Bits, init: Bits, xorOut: Bits, refIn: bool, refOut: bool)
  {
    ghost predicate Ok() {
      0 < order <= |poly| == |init| == |xorOut| && 8 <= |poly|
    }
    ghost function P(): Bits requires Ok() { Low(poly, order) }
    /** The Rocksoft model the parameters stand for: only the low `order` bits are part of it. */
    ghost function Spec(): (m: Model)
      requires Ok()
      ensures ModelOk(m)
    {
      Model(Low(poly, order), Low(init, order), Low(xorOut, order), refIn, refOut)
    }
  }

  ghost function Start(m: Params, init: Bits): (w: Bits)
    requires m.Ok() && |init| == |m.poly|
    ensures |w| == |m.poly|
  {
    if m.refIn then ReflectQ(init, m.order) else init
  }

  /** `checksum()` on the register `rem`. */
  ghost function Output(m: Params, rem: Bits): (c: Bits)
    requires m.Ok() && |rem| == |m.poly|
    ensures |c| == m.order
  {
    Xor(Oriented(Low(rem, m.order), m.refOut != m.refIn), Low(m.xorOut, m.order))
  }

  ghost function TableChecksum(m: Params, message: seq<Byte>): (c: Bits)
    requires m.Ok()
    ensures |c| == m.order
  {
    Output(m, Drive(Start(m, m.init), message, m.P(), m.refIn))
  }

  /** No bit of the initial remainder at or above the order. */
  ghost predicate InitFits(m: Params)
    requires m.Ok()
  {
    High(m.init, m.order) == Zeros(|m.init| - m.order)
  }

  // ---- where the two agree ---------------------------------------------------------------

  /** Without reflection the register holds the remainder in its low bits, whatever is above them. */
  lemma DriveDirect(w: Bits, bytes: seq<Byte>, p: Bits)
    requires 0 < |p| <= |w|
    ensures Low(Drive(w, bytes, p, false), |p|) == FeedAll(Low(w, |p|), Flatten(bytes, false), p)
  {
    if |p| >= 8 { DirectIsDivision(w, bytes, p); } else { LowOfBytewise(w, bytes, p, false); }
  }

  /** With reflection it is the mirror image of the remainder. */
  lemma DriveReflected(width: nat, r: Bits, bytes: seq<Byte>, p: Bits)
    requires 0 < |p| == |r| <= width
    ensures Drive(Mirror(width, r), bytes, p, true) == Mirror(width, FeedAll(r, Flatten(bytes, true), p))
  {
    if |p| >= 8 {
      ReflectedIsMirror(width, r, bytes, p);
    } else {
      LowOfMirror(width, r);
      ReverseTwice(r);
      LowOfBytewise(Mirror(width, Low(Mirror(width, r), |p|)), bytes, p, true);
      LowOfMirror(width, Low(Mirror(width, r), |p|));
    }
  }

  lemma LowOfMirror(width: nat, r: Bits)
    requires |r| <= width
    ensures Low(Mirror(width, r), |r|) == Reverse(r)
  {}

  lemma OutputOfRemainder(m: Params, rem: Bits, r: Bits)
    requires m.Ok() && |rem| == |m.poly| && |r| == m.order && Low(rem, m.order) == Oriented(r, m.refIn)
    ensures Output(m, rem) == Xor(Oriented(r, m.refOut), Low(m.xorOut, m.order))
  {
    ReverseTwice(r);
  }

  lemma TableAgrees(m: Params, message: seq<Byte>)
    requires m.Ok() && (!m.refIn || m.order <= 8 || InitFits(m))
    ensures TableChecksum(m, message) == Checksum(m.Spec(), message)
  {
    var p, init, width := m.P(), Low(m.init, m.order), |m.poly|;
    var r := FeedAll(init, Flatten(message, m.refIn), p);
    if m.refIn {
      assert Start(m, m.init) == Mirror(width, init);
      DriveReflected(width, init, message, p);
      LowOfMirror(width, r);
    } else {
      DriveDirect(m.init, message, p);
    }
    OutputOfRemainder(m, Drive(Start(m, m.init), message, p, m.refIn), r);
  }

  // ---- where they do not -----------------------------------------------------------------

  function ZeroBytes(k: nat): seq<Byte> { seq(k, i => Zeros(8)) }

  lemma {:induction false} FeedZeros(k: nat, p: Bits)
    requires |p| > 0
    ensures Product(Zeros(k), p) == Zeros(|p|)
    decreases k
  {
    ProductIsRemainder(Zeros(k), p);
    LeadingZeros(k, Zeros(|p|), p);
  }

  /** Two registers fed with the same byte differ afterwards as their difference fed with zeros. */
  lemma StepIsLinear(v: Bits, w: Bits, byte: Byte, p: Bits)
    requires 8 <= |p| <= |v| == |w|
    ensures Xor(ReflectedStep(v, byte, p), ReflectedStep(w, byte, p)) == ReflectedStep(Xor(v, w), Zeros(8), p)
  {
    var x, y := Reverse(Xor(Low(v, 8), byte)), Reverse(Xor(Low(w, 8), byte));
    var z := Reverse(Xor(Low(Xor(v, w), 8), Zeros(8)));
    assert Xor(x, y) == z;
    ProductIsLinear(x, y, p);
    EntryIsLinear(|v|, x, y, p);
    ShiftIsLinear(v, w);
    Interchange(ShiftRight(v, 8), Entry(|v|, x, p, true), ShiftRight(w, 8), Entry(|v|, y, p, true));
  }

  lemma ProductIsLinear(x: Bits, y: Bits, p: Bits)
    requires |p| > 0 && |x| == |y|
    ensures Product(Xor(x, y), p) == Xor(Product(x, p), Product(y, p))
  {
    var z := Zeros(|p|);
    ProductIsRemainder(x, p);
    ProductIsRemainder(y, p);
    ProductIsRemainder(Xor(x, y), p);
    XorConcat(x, z, y, z);
    XorZeros(z);
    DivisionIsLinear(x + z, y + z, p);
  }

  lemma EntryIsLinear(width: nat, x: Byte, y: Byte, p: Bits)
    requires 0 < |p| <= width && Product(Xor(x, y), p) == Xor(Product(x, p), Product(y, p))
    ensures Entry(width, Xor(x, y), p, true) == Xor(Entry(width, x, p, true), Entry(width, y, p, true))
  {
    var z := Zeros(width - |p|);
    ReverseXor(Product(x, p), Product(y, p));
    XorConcat(z, Reverse(Product(x, p)), z, Reverse(Product(y, p)));
    XorZeros(z);
  }

  lemma ShiftIsLinear(v: Bits, w: Bits)
    requires |v| == |w| >= 8
    ensures ShiftRight(Xor(v, w), 8) == Xor(ShiftRight(v, 8), ShiftRight(w, 8))
  {}

  lemma Interchange(a: Bits, b: Bits, c: Bits, d: Bits)
    requires |a| == |b| == |c| == |d|
    ensures Xor(Xor(a, b), Xor(c, d)) == Xor(Xor(a, c), Xor(b, d))
  {}

  /** A register after k zero bytes. */
  ghost function Drift(e: Bits, k: nat, p: Bits): (r: Bits)
    requires 8 <= |p| <= |e|
    ensures |r| == |e|
    decreases k
  {
    if k == 0 then e else ReflectedStep(Drift(e, k - 1, p), Zeros(8), p)
  }

  /** `e` is the difference of the two registers after k zero bytes. */
  ghost predicate Differ(v: Bits, w: Bits, e: Bits, k: nat, p: Bits)
    requires 8 <= |p| <= |v| == |w| == |e|
  {
    Drift(e, k, p) == Xor(Drift(v, k, p), Drift(w, k, p))
  }

  /** The drift of a difference is the difference of the drifts. */
  lemma {:induction false} DriftIsLinear(v: Bits, w: Bits, e: Bits, k: nat, p: Bits)
    requires 8 <= |p| <= |v| == |w| == |e| && Differ(v, w, e, 0, p)
    ensures Differ(v, w, e, k, p)
    decreases k
  {
    if k > 0 {
      var l := k - 1;
      DriftIsLinear(v, w, e, l, p);
      DriftOnce(v, w, e, l, p);
      assert l + 1 == k;
    }
  }

  lemma DriftOnce(v: Bits, w: Bits, e: Bits, k: nat, p: Bits)
    requires 8 <= |p| <= |v| == |w| == |e| && Differ(v, w, e, k, p)
    ensures Differ(v, w, e, k + 1, p)
  {
    LinearStep(Drift(v, k, p), Drift(w, k, p), Drift(e, k, p), p);
  }

  lemma LinearStep(a: Bits, b: Bits, c: Bits, p: Bits)
    requires 8 <= |p| <= |a| == |b| && c == Xor(a, b)
    ensures ReflectedStep(c, Zeros(8), p) == Xor(ReflectedStep(a, Zeros(8), p), ReflectedStep(b, Zeros(8), p))
  {
    StepIsLinear(a, b, Zeros(8), p);
  }

  lemma LastZeroByte(k: nat)
    ensures ZeroBytes(k + 1) == ZeroBytes(k) + [Zeros(8)]
  {}

  lemma UpdateLast(w: Bits, front: seq<Byte>, byte: Byte, p: Bits)
    requires 8 <= |p| <= |w|
    ensures Update(w, front + [byte], p, true) == ReflectedStep(Update(w, front, p, true), byte, p)
  {
    assert (front + [byte])[..|front|] == front;
  }

  lemma {:induction false} DriftIsUpdate(e: Bits, k: nat, p: Bits)
    requires 8 <= |p| <= |e|
    ensures Drift(e, k, p) == Update(e, ZeroBytes(k), p, true)
    decreases k
  {
    if k > 0 {
      var l := k - 1;
      DriftIsUpdate(e, l, p);
      UpdateLast(e, ZeroBytes(l), Zeros(8), p);
      LastZeroByte(l);
      assert l + 1 == k;
    }
  }

  /** Bits above the order only move down until one of them reaches the remainder. */
  lemma LowByteZero(e: Bits, n: nat)
    requires 8 <= n <= |e| && Low(e, n) == Zeros(n)
    ensures Reverse(Xor(Low(e, 8), Zeros(8))) == Zeros(8)
  {
    assert forall i :: 0 <= i < 8 ==> Low(e, 8)[i] == Low(e, n)[n - 8 + i];
  }

  lemma EntryOfZero(width: nat, p: Bits)
    requires 0 < |p| <= width
    ensures Entry(width, Zeros(8), p, true) == Zeros(width)
  {
    FeedZeros(8, p);
  }

  lemma ZeroStepShifts(e: Bits, p: Bits)
    requires 8 <= |p| <= |e| && Low(e, |p|) == Zeros(|p|)
    ensures ReflectedStep(e, Zeros(8), p) == ShiftRight(e, 8)
  {
    LowByteZero(e, |p|);
    EntryOfZero(|e|, p);
    XorZeros(ShiftRight(e, 8));
  }

  ghost predicate Surfaces(e: Bits, k: nat, p: Bits)
    requires 8 <= |p| <= |e|
  {
    Low(Drift(e, k, p), |p|) != Zeros(|p|)
  }

  /** After k zero bytes the bit at `pos` is set. */
  ghost predicate SetAfter(e: Bits, k: nat, pos: nat, p: Bits)
    requires 8 <= |p| <= |e| && pos < |e|
  {
    Drift(e, k, p)[pos]
  }

  lemma ZeroByteMovesDown(e: Bits, k: nat, pos: nat, p: Bits)
    requires 8 <= |p| <= |e| && pos + 8 < |e| && SetAfter(e, k, pos, p) && !Surfaces(e, k, p)
    ensures SetAfter(e, k + 1, pos + 8, p)
  {
    ZeroStepShifts(Drift(e, k, p), p);
  }

  lemma SetAtStart(e: Bits, i: nat, p: Bits)
    requires 8 <= |p| <= |e| && i < |e| && e[i]
    ensures SetAfter(e, 0, i, p)
  {}

  lemma HiddenIsHigh(e: Bits, k: nat, pos: nat, p: Bits)
    requires 8 <= |p| <= |e| && pos < |e| && SetAfter(e, k, pos, p) && !Surfaces(e, k, p)
    ensures pos < |e| - |p|
  {
    LowBit(Drift(e, k, p), pos, |p|);
  }

  lemma LowBit(w: Bits, pos: nat, n: nat)
    requires n <= |w| && pos < |w| && w[pos]
    ensures Low(w, n) == Zeros(n) ==> pos < |w| - n
  {
    if pos >= |w| - n { assert Low(w, n)[pos - (|w| - n)]; }
  }

  lemma SetBitSurfaces(e: Bits, i: nat, p: Bits) returns (k: nat)
    requires 8 <= |p| <= |e| && i < |e| && e[i]
    ensures Surfaces(e, k, p)
  {
    k := 0;
    var pos := i;
    SetAtStart(e, i, p);
    while !Surfaces(e, k, p)
      invariant pos < |e| && SetAfter(e, k, pos, p)
      decreases |e| - pos
    {
      HiddenIsHigh(e, k, pos, p);
      ZeroByteMovesDown(e, k, pos, p);
      k, pos := k + 1, pos + 8;
    }
  }

  /** Different remainders give different checksums. */
  lemma OutputIsInjective(m: Params, v: Bits, w: Bits)
    requires m.Ok() && |v| == |w| == |m.poly| && Output(m, v) == Output(m, w)
    ensures Low(v, m.order) == Low(w, m.order)
  {
    var a, b := Oriented(Low(v, m.order), m.refOut != m.refIn), Oriented(Low(w, m.order), m.refOut != m.refIn);
    XorCancels(a, b, Low(m.xorOut, m.order));
    ReverseTwice(Low(v, m.order));
    ReverseTwice(Low(w, m.order));
  }

  lemma XorCancels(a: Bits, b: Bits, c: Bits)
    requires |a| == |b| == |c| && Xor(a, c) == Xor(b, c)
    ensures a == b
  {
    forall i | 0 <= i < |a| ensures a[i] == b[i] {
      assert Xor(a, c)[i] == Xor(b, c)[i];
    }
  }

  lemma EqualLowBits(v: Bits, w: Bits, n: nat)
    requires |v| == |w| >= n && Low(v, n) == Low(w, n)
    ensures Low(Xor(v, w), n) == Zeros(n)
  {
    LowXor(v, w, n);
  }

  /** A stray bit in the initial remainder of a reflected computer spoils the checksum of a long
      enough message of zero bytes. */
  lemma StrayBitsSpoil(m: Params) returns (message: seq<Byte>)
    requires m.Ok() && m.refIn && m.order > 8 && !InitFits(m)
    ensures TableChecksum(m, message) != Checksum(m.Spec(), message)
  {
    var n, p, init, width := m.order, m.P(), Low(m.init, m.order), |m.poly|;
    var stray := width - n;
    var i :| 0 <= i < stray && m.init[i];
    var dirty, clean := Start(m, m.init), Mirror(width, init);
    var e := Xor(dirty, clean);
    assert e[i];
    var k := SetBitSurfaces(e, i, p);
    message := ZeroBytes(k);
    var r := FeedAll(init, Flatten(message, true), p);
    DriveReflected(width, init, message, p);
    LowOfMirror(width, r);
    OutputOfRemainder(m, Mirror(width, r), r);
    DriftIsLinear(dirty, clean, e, k, p);
    DriftIsUpdate(dirty, k, p);
    DriftIsUpdate(clean, k, p);
    var u := Update(dirty, message, p, true);
    if Output(m, u) == Output(m, Mirror(width, r)) {
      OutputIsInjective(m, u, Mirror(width, r));
      EqualLowBits(u, Mirror(width, r), n);
      assert false;
    }
  }

  /** The table-driven checksum is the Rocksoft checksum for every message, exactly when the input is
      not reflected, the order is at most 8, or the initial remainder has no bit above the order. */
  lemma TableIsExact(m: Params)
    requires m.Ok()
    ensures (forall message: seq<Byte> :: TableChecksum(m, message) == Checksum(m.Spec(), message))
       <==> (!m.refIn || m.order <= 8 || InitFits(m))
  {
    if !m.refIn || m.order <= 8 || InitFits(m) {
      forall message: seq<Byte>
        ensures TableChecksum(m, message) == Checksum(m.Spec(), message)
      {
        TableAgrees(m, message);
      }
    } else {
      var message := StrayBitsSpoil(m);
    }
  }
}
