/**
 The two CRC computers of boost/crc.hpp as objects, and the augmented table update.
 `CrcBasic` divides one bit at a time, `TableCrc` (crc_optimal) a byte at a time.
 */
module CrcComputers {
  import opened BitString
  import opened CrcSpec
  import opened CrcTables
  import opened CrcOptimal

  /** `reflect_sub_byte` */
  method ReflectSubByte(x: Bits, len: nat) returns (r: Bits)
    requires 0 < len <= 8 <= |x|
    ensures r == Mirror(|x|, Low(x, len))
  {
    var byte := Low(x, 8);
    byte := ReflectUnsigned(byte, 8);
    byte := ShiftRight(byte, 8 - len);
    r := Zeros(|x| - 8) + byte;
    SubByteMirror(x, len);
  }

  lemma SubByteMirror(x: Bits, len: nat)
    requires 0 < len <= 8 <= |x|
    ensures Zeros(|x| - 8) + ShiftRight(Reflected(Low(x, 8), 8), 8 - len) == Mirror(|x|, Low(x, len))
  {
    var byte := Low(x, 8);
    ReflectedClean(0, byte);
    LastOfReverse(byte, len);
    LowOfLow(x, len);
    PutBelowZeros(|x| - 8, ShiftRight(Reverse(byte), 8 - len), 8 - len, Reverse(Low(x, len)));
  }

  lemma PutBelowZeros(a: nat, w: Bits, b: nat, x: Bits)
    requires w == Zeros(b) + x
    ensures Zeros(a) + w == Zeros(a + b) + x
  {
    MoreZeros(a, b, x);
  }

  lemma MoreZeros(a: nat, b: nat, x: Bits)
    ensures Zeros(a) + (Zeros(b) + x) == Zeros(a + b) + x
  {}

  lemma LowOfLow(x: Bits, len: nat)
    requires len <= 8 <= |x|
    ensures Low(Low(x, 8), len) == Low(x, len)
  {}

  lemma LastOfReverse(x: Bits, len: nat)
    requires len <= |x|
    ensures ShiftRight(Reverse(x), |x| - len) == Zeros(|x| - len) + Reverse(Low(x, len))
  {}

  /** The low n bits of a word, the others cleared: `& low_bits_mask_c<n>::value`. */
  function Masked(w: Bits, n: nat): (r: Bits)
    requires n <= |w|
    ensures |r| == |w| && Low(r, n) == Low(w, n)
  {
    Zeros(|w| - n) + Low(w, n)
  }

  lemma MaskedXor(v: Bits, w: Bits, n: nat)
    requires |v| == |w| >= n
    ensures Masked(Xor(v, w), n) == Zeros(|v| - n) + Xor(Low(v, n), Low(w, n))
  {
    LowXor(v, w, n);
  }

  /** The high bits of `rest` are those of `all` from the k-th on. */
  predicate Leading(rest: Bits, all: Bits, k: nat) {
    && k <= |all| <= |rest| + k
    && forall j :: k <= j < |all| ==> all[j] == rest[j - k]
  }

  lemma LeadingShift(rest: Bits, all: Bits, k: nat)
    requires k < |all| && Leading(rest, all, k)
    ensures rest[0] == all[k] && Leading(ShiftLeft(rest, 1), all, k + 1)
  {
    assert all[k] == rest[k - k];
  }

  lemma LeadingStart(bits: Byte, length: nat)
    requires length <= 8
    ensures Leading(ShiftLeft(bits, 8 - length), Low(bits, length), 0)
  {}

  class CrcBasic {
    const order: nat
    var rem: Bits
    var poly: Bits
    var init: Bits
    var final: Bits
    var rftIn: bool
    var rftOut: bool

    ghost predicate Valid() reads this {
      && |rem| == |poly|
      && Parameters().Ok()
    }

    ghost function Parameters(): Params reads this {
      Params(order, poly, init, final, rftIn, rftOut)
    }

    /** The remainder so far. */
    ghost function Remainder(): (r: Bits)
      requires Valid()
      reads this
      ensures |r| == order
    {
      Low(rem, order)
    }

    constructor (params: Params)
      requires params.Ok()
      ensures Valid() && Parameters() == params && Remainder() == Low(params.init, params.order)
    {
      order, rem, poly, init := params.order, params.init, params.poly, params.init;
      final, rftIn, rftOut := params.xorOut, params.refIn, params.refOut;
    }

    method Reset(newRem: Bits)
      requires Valid() && |newRem| == |poly|
      modifies this`rem
      ensures Valid() && Remainder() == Low(newRem, order)
    {
      rem := newRem;
    }

    method ResetToInitial()
      requires Valid()
      modifies this`rem
      ensures Valid() && Remainder() == Low(init, order)
    {
      Reset(init);
    }

    method ProcessBit(bit: bool)
      requires Valid()
      modifies this`rem
      ensures Valid()
      ensures Remainder() == Feed(old(Remainder()), bit, Low(poly, order))
    {
      var word := Zeros(31) + [bit];
      ghost var r := Remainder();
      rem := CrcModuloWordUpdate(order, rem, word, poly, 1, false);
      assert Oriented(Low(word, 1), false) == [bit];
      FeedOne(r, bit, Low(poly, order));
    }

    /** The `length` low bits of the byte, highest first. */
    method ProcessBits(bits: Byte, length: nat)
      requires Valid() && 0 < length <= 8
      modifies this`rem
      ensures Valid()
      ensures Remainder() == FeedAll(old(Remainder()), Low(bits, length), Low(poly, order))
    {
      var rest := ShiftLeft(bits, 8 - length);
      ghost var p, start, k := Low(poly, order), Remainder(), 0;
      ghost var all := Low(bits, length);
      ghost var result := FeedAll(start, all, p);
      AwaitsEnds(start, all, p, result);
      LeadingStart(bits, length);
      var i := length;
      while i > 0
        invariant 0 <= i <= length && k == length - i && Valid() && |rest| == 8 && p == Low(poly, order)
        invariant Leading(rest, all, k)
        invariant Awaits(Remainder(), all, k, p, result)
      {
        LeadingShift(rest, all, k);
        NextBit(Remainder(), all, k, p, result);
        ProcessBit(rest[0]);
        i, rest, k := i - 1, ShiftLeft(rest, 1), k + 1;
      }
      AwaitsEnds(Remainder(), all, p, result);
    }

    method ProcessByte(byte: Byte)
      requires Valid()
      modifies this`rem
      ensures Valid()
      ensures Remainder() == FeedAll(old(Remainder()), Oriented(byte, rftIn), Low(poly, order))
    {
      var b := byte;
      if rftIn {
        b := ReflectUnsigned(byte, 8);
        ReflectedClean(0, byte);
      }
      assert Low(b, 8) == b;
      ProcessBits(b, 8);
    }

    method ProcessBytes(bytes: seq<Byte>)
      requires Valid()
      modifies this`rem
      ensures Valid()
      ensures Remainder() == FeedAll(old(Remainder()), Flatten(bytes, rftIn), Low(poly, order))
    {
      ghost var p, start := Low(poly, order), Remainder();
      for k := 0 to |bytes|
        invariant Valid() && p == Low(poly, order)
        invariant Remainder() == FeedAll(start, Flatten(bytes[..k], rftIn), p)
      {
        assert bytes[..k + 1][..k] == bytes[..k];
        FeedConcat(start, Flatten(bytes[..k], rftIn), Oriented(bytes[k], rftIn), p);
        ProcessByte(bytes[k]);
      }
      assert bytes[..|bytes|] == bytes;
    }

    method InterimRemainder() returns (r: Bits)
      requires Valid()
      ensures r == Zeros(|poly| - order) + Remainder()
    {
      r := Masked(rem, order);
    }

    method Checksum() returns (c: Bits)
      requires Valid()
      ensures c == Zeros(|poly| - order) + Xor(Oriented(Remainder(), rftOut), Low(final, order))
    {
      var r := rem;
      if rftOut {
        r := ReflectUnsigned(rem, order);
      }
      c := Masked(Xor(r, final), order);
      ChecksumBits(rem, final, order, rftOut);
    }
  }

  lemma ChecksumBits(rem: Bits, final: Bits, order: nat, reflect: bool)
    requires |rem| == |final| && 0 < order <= |rem|
    ensures Masked(Xor(if reflect then Reflected(rem, order) else rem, final), order)
            == Zeros(|rem| - order) + Xor(Oriented(Low(rem, order), reflect), Low(final, order))
  {
    LowOfReflected(rem, order);
    MaskedXor(if reflect then Reflected(rem, order) else rem, final, order);
  }

  lemma FeedOne(r: Bits, bit: bool, p: Bits)
    requires |r| == |p| > 0
    ensures FeedAll(r, [bit], p) == Feed(r, bit, p)
  {
    assert [bit][1..] == [];
  }

  /** `reflector<n>::reflect_q` */
  method Reflect(x: Bits, n: nat) returns (r: Bits)
    requires 0 < n <= |x| && 8 <= |x|
    ensures r == ReflectQ(x, n)
  {
    if n > 8 {
      r := ReflectUnsigned(x, n);
    } else {
      r := ReflectSubByte(x, n);
    }
  }

  lemma MaskedOutput(m: Params, rem: Bits, r: Bits)
    requires m.Ok() && |rem| == |r| == |m.poly|
    requires Low(r, m.order) == Oriented(Low(rem, m.order), m.refOut != m.refIn)
    ensures Masked(Xor(r, m.xorOut), m.order) == Zeros(|m.poly| - m.order) + Output(m, rem)
  {
    MaskedXor(r, m.xorOut, m.order);
  }

  class TableCrc {
    const params: Params
    const table: seq<Bits>
    var rem: Bits

    ghost predicate Valid() reads this {
      && params.Ok() && |rem| == |params.poly|
      && (params.order >= 8 ==> TableFor(table, |params.poly|, params.P(), params.refIn))
    }

    constructor (p: Params, initRem: Bits)
      requires p.Ok() && |initRem| == |p.poly|
      ensures Valid() && params == p && rem == Start(p, initRem)
    {
      var start := initRem;
      if p.refIn {
        start := Reflect(initRem, p.order);
      }
      var t := [];
      if p.order >= 8 {
        t := MakeTable(p.order, p.poly, p.refIn);
      }
      params, table, rem := p, t, start;
    }

    method Reset(newRem: Bits)
      requires Valid() && |newRem| == |params.poly|
      modifies this
      ensures Valid() && rem == Start(params, newRem)
    {
      rem := newRem;
      if params.refIn {
        rem := Reflect(newRem, params.order);
      }
    }

    method ProcessBytes(bytes: seq<Byte>)
      requires Valid()
      modifies this
      ensures Valid() && rem == Drive(old(rem), bytes, params.P(), params.refIn)
    {
      if params.order < 8 {
        rem := CrcUpdateSubByte(params.order, rem, bytes, params.poly, params.refIn);
      } else if params.refIn {
        rem := CrcUpdateReflected(params.order, table, rem, bytes, params.P());
      } else {
        rem := CrcUpdateDirect(params.order, table, rem, bytes, params.P());
      }
    }

    /** The remainder in natural orientation. */
    method InterimRemainder() returns (r: Bits)
      requires Valid()
      ensures r == Zeros(|params.poly| - params.order) + Oriented(Low(rem, params.order), params.refIn)
    {
      r := rem;
      if params.refIn {
        r := Reflect(rem, params.order);
      }
      r := Masked(r, params.order);
    }

    method Checksum() returns (c: Bits)
      requires Valid()
      ensures c == Zeros(|params.poly| - params.order) + Output(params, rem)
    {
      c := FinishChecksum(params, rem);
    }
  }

  method FinishChecksum(m: Params, rem: Bits) returns (c: Bits)
    requires m.Ok() && |rem| == |m.poly|
    ensures c == Zeros(|m.poly| - m.order) + Output(m, rem)
  {
    var r := rem;
    if m.refOut != m.refIn {
      r := Reflect(rem, m.order);
    }
    c := Masked(Xor(r, m.xorOut), m.order);
    MaskedOutput(m, rem, r);
  }

  /** The register after the first k bytes. */
  ghost function After(w: Bits, bytes: seq<Byte>, k: nat, p: Bits, reflect: bool): (r: Bits)
    requires 0 < |p| <= |w| && k <= |bytes|
    ensures |r| == |w|
  {
    Bytewise(w, bytes[..k], p, reflect)
  }

  lemma AfterEnds(w: Bits, bytes: seq<Byte>, p: Bits, reflect: bool)
    requires 0 < |p| <= |w|
    ensures After(w, bytes, 0, p, reflect) == w
    ensures After(w, bytes, |bytes|, p, reflect) == Bytewise(w, bytes, p, reflect)
  {
    assert bytes[..|bytes|] == bytes;
  }

  lemma AfterNext(w: Bits, bytes: seq<Byte>, k: nat, n: nat, p: Bits, reflect: bool)
    requires 0 < n == |p| <= |w| && k < |bytes|
    ensures After(w, bytes, k + 1, p, reflect)
         == Zeros(|w| - n) + FeedAll(Low(After(w, bytes, k, p, reflect), n), Oriented(Low(bytes[k], 8), reflect), p)
  {
    FlattenMore(bytes, k, reflect);
    LowOfBytewise(w, bytes[..k], p, reflect);
    FeedConcat(Low(w, n), Flatten(bytes[..k], reflect), Oriented(bytes[k], reflect), p);
    BytewiseMore(w, bytes[..k + 1], p, reflect);
    WholeByte(bytes[k]);
  }

  lemma FlattenMore(bytes: seq<Byte>, k: nat, reflect: bool)
    requires k < |bytes|
    ensures Flatten(bytes[..k + 1], reflect) == Flatten(bytes[..k], reflect) + Oriented(bytes[k], reflect)
  {
    assert bytes[..k + 1][..k] == bytes[..k];
  }

  lemma BytewiseMore(w: Bits, bytes: seq<Byte>, p: Bits, reflect: bool)
    requires 0 < |p| <= |w| && bytes != []
    ensures Bytewise(w, bytes, p, reflect) == Zeros(|w| - |p|) + FeedAll(Low(w, |p|), Flatten(bytes, reflect), p)
  {}

  lemma WholeByte(byte: Byte)
    ensures Low(byte, 8) == byte
  {}

  /** No table: a byte at a time through the bitwise loop. */
  method UpdateBytewise(n: nat, remainder: Bits, bytes: seq<Byte>, poly: Bits, reflect: bool) returns (r: Bits)
    requires 0 < n <= |remainder| == |poly|
    ensures r == Bytewise(remainder, bytes, Low(poly, n), reflect)
  {
    r := remainder;
    ghost var p := Low(poly, n);
    AfterEnds(remainder, bytes, p, reflect);
    for k := 0 to |bytes|
      invariant |r| == |remainder| && r == After(remainder, bytes, k, p, reflect)
    {
      r := UpdateOneByte(n, remainder, r, bytes, k, poly, reflect);
    }
  }

  method UpdateOneByte(n: nat, ghost start: Bits, register: Bits, bytes: seq<Byte>, k: nat, poly: Bits, reflect: bool)
    returns (r: Bits)
    requires 0 < n <= |start| == |register| == |poly| && k < |bytes|
    requires register == After(start, bytes, k, Low(poly, n), reflect)
    ensures |r| == |start| && r == After(start, bytes, k + 1, Low(poly, n), reflect)
  {
    AfterNext(start, bytes, k, n, Low(poly, n), reflect);
    r := CrcModuloWordUpdate(n, register, bytes[k], poly, 8, reflect);
  }

  /** `crc_update` for orders below 8 */
  method CrcUpdateSubByte(n: nat, remainder: Bits, bytes: seq<Byte>, poly: Bits, reflect: bool) returns (r: Bits)
    requires 0 < n < 8 <= |remainder| == |poly|
    ensures r == SubByteUpdate(remainder, bytes, Low(poly, n), reflect)
  {
    r := remainder;
    if reflect {
      r := ReflectSubByte(r, n);
    }
    r := UpdateBytewise(n, r, bytes, poly, reflect);
    if reflect {
      r := ReflectSubByte(r, n);
    }
  }

  lemma MaybeAgrees(m: Params, message: seq<Byte>)
    requires m.Ok()
    ensures !m.refIn || m.order <= 8 || InitFits(m) ==> TableChecksum(m, message) == Checksum(m.Spec(), message)
  {
    if !m.refIn || m.order <= 8 || InitFits(m) { TableAgrees(m, message); }
  }

  /** The function template `crc<...>`: the Rocksoft checksum whenever the initial remainder fits. */
  method Crc(params: Params, bytes: seq<Byte>) returns (c: Bits)
    requires params.Ok()
    ensures c == Zeros(|params.poly| - params.order) + TableChecksum(params, bytes)
    ensures !params.refIn || params.order <= 8 || InitFits(params) ==>
              c == Zeros(|params.poly| - params.order) + CrcSpec.Checksum(params.Spec(), bytes)
  {
    c := RunTable(params, bytes);
    MaybeAgrees(params, bytes);
  }

  method RunTable(params: Params, bytes: seq<Byte>) returns (c: Bits)
    requires params.Ok()
    ensures c == Zeros(|params.poly| - params.order) + TableChecksum(params, bytes)
  {
    var computer := new TableCrc(params, params.init);
    computer.ProcessBytes(bytes);
    c := computer.Checksum();
  }

  /** A `crc_basic` from construction to checksum: the Rocksoft checksum always. */
  method BasicCrc(params: Params, bytes: seq<Byte>) returns (c: Bits)
    requires params.Ok()
    ensures c == Zeros(|params.poly| - params.order) + CrcSpec.Checksum(params.Spec(), bytes)
  {
    var computer := new CrcBasic(params);
    computer.ProcessBytes(bytes);
    ghost var fed := computer.Remainder();
    c := computer.Checksum();
    SpecChecksum(params, bytes, fed);
  }

  lemma SpecChecksum(params: Params, bytes: seq<Byte>, fed: Bits)
    requires params.Ok() && |fed| == params.order
    requires fed == FeedAll(Low(params.init, params.order), Flatten(bytes, params.refIn), Low(params.poly, params.order))
    ensures Xor(Oriented(fed, params.refOut), Low(params.xorOut, params.order)) == CrcSpec.Checksum(params.Spec(), bytes)
  {}

  // ---- augmented messages ----------------------------------------------------------------

  function AugmentedStep(w: Bits, byte: Byte, p: Bits): (r: Bits)
    requires 8 <= |p| <= |w|
    ensures |r| == |w|
  {
    Xor(w[8..] + byte, Entry(|w|, Low(w, |p|)[..8], p, false))
  }

  function AugmentedUpdate(w: Bits, bytes: seq<Byte>, p: Bits): (r: Bits)
    requires 8 <= |p| <= |w|
    ensures |r| == |w|
  {
    if bytes == [] then w
    else AugmentedStep(AugmentedUpdate(w, bytes[..|bytes| - 1], p), bytes[|bytes| - 1], p)
  }

  lemma AugmentedStepDivides(w: Bits, byte: Byte, p: Bits)
    requires 8 <= |p| <= |w|
    ensures Low(AugmentedStep(w, byte, p), |p|) == LongDivision(Low(w, |p|) + byte, p)
  {
    AugmentedBlockStep(Low(w, |p|), byte, p);
    LowXor(w[8..] + byte, Entry(|w|, Low(w, |p|)[..8], p, false), |p|);
    LowOfShifted(w, byte, |p|);
  }

  lemma LowOfShifted(w: Bits, byte: Byte, n: nat)
    requires 8 <= n <= |w|
    ensures Low(w[8..] + byte, n) == Low(w, n)[8..] + byte
  {}

  lemma Append(a: Bits, b: Bits, c: Bits)
    ensures a + b + c == a + (b + c)
  {}

  /** `augmented_crc` is plain long division of the start remainder followed by the message. */
  lemma {:induction false} AugmentedIsDivision(w: Bits, bytes: seq<Byte>, p: Bits)
    requires 8 <= |p| <= |w|
    ensures Low(AugmentedUpdate(w, bytes, p), |p|) == LongDivision(Low(w, |p|) + Flatten(bytes, false), p)
  {
    var r := Low(w, |p|);
    if bytes == [] {
      assert r + Flatten(bytes, false) == r;
    } else {
      var front, b := bytes[..|bytes| - 1], bytes[|bytes| - 1];
      AugmentedIsDivision(w, front, p);
      AugmentedStepDivides(AugmentedUpdate(w, front, p), b, p);
      DivideInPieces(r + Flatten(front, false), b, p);
      Append(r, Flatten(front, false), b);
    }
  }

  lemma {:induction false} FlattenConcat(a: seq<Byte>, b: seq<Byte>, reflect: bool)
    ensures Flatten(a + b, reflect) == Flatten(a, reflect) + Flatten(b, reflect)
    decreases |b|
  {
    if b == [] {
      assert a + b == a;
    } else {
      var front := b[..|b| - 1];
      assert (a + b)[..|a + b| - 1] == a + front;
      FlattenConcat(a, front, reflect);
    }
  }

  lemma {:induction false} LeadingZeroBits(k: nat, d: Bits, p: Bits)
    requires |p| > 0 && |d| >= |p|
    ensures LongDivision(Zeros(k) + d, p) == LongDivision(d, p)
  {
    if k == 0 {
      assert Zeros(0) + d == d;
    } else {
      assert DivisionStep(Zeros(k) + d, p) == Zeros(k - 1) + d;
      LeadingZeroBits(k - 1, d, p);
    }
  }

  /** Both uses of `augmented_crc` that its documentation describes.  A message followed by n zero
      bits gives the unaugmented checksum; followed by that checksum instead it gives zero. */
  lemma AugmentedUses(w: Bits, message: seq<Byte>, tail: seq<Byte>, p: Bits)
    requires 8 <= |p| <= |w| && Low(w, |p|) == Zeros(|p|)
    requires Flatten(tail, false) == Zeros(|p|) || Flatten(tail, false) == Product(Flatten(message, false), p)
    ensures var r := Low(AugmentedUpdate(w, message + tail, p), |p|);
            r == if Flatten(tail, false) == Zeros(|p|) then Product(Flatten(message, false), p) else Zeros(|p|)
  {
    var bits, end := Flatten(message, false), Flatten(tail, false);
    AugmentedIsDivision(w, message + tail, p);
    FlattenConcat(message, tail, false);
    LeadingZeroBits(|p|, bits + end, p);
    ProductIsRemainder(bits, p);
    if end != Zeros(|p|) { ChecksumDividesOut(bits, p); }
  }

  /** `augmented_crc` for orders of at least 8. */
  method AugmentedCrc(n: nat, poly: Bits, bytes: seq<Byte>, initial: Bits) returns (r: Bits)
    requires 8 <= n <= |poly| == |initial|
    ensures r == Zeros(|poly| - n) + LongDivision(Low(initial, n) + Flatten(bytes, false), Low(poly, n))
  {
    var table := MakeTable(n, poly, false);
    ghost var p := Low(poly, n);
    r := initial;
    for k := 0 to |bytes|
      invariant |r| == |initial| && r == AugmentedUpdate(initial, bytes[..k], p)
    {
      var index := Low(ShiftRight(r, n - 8), 8);
      assert index == Low(r, n)[..8];
      assert Oriented(index, false) == index;
      assert bytes[..k + 1][..k] == bytes[..k];
      var shifted := ShiftLeft(r, 8);
      shifted := shifted[..|r| - 8] + bytes[k];
      assert shifted == r[8..] + bytes[k];
      r := Xor(shifted, table[Value(index)]);
    }
    assert bytes[..|bytes|] == bytes;
    AugmentedIsDivision(initial, bytes, p);
    r := Masked(r, n);
  }
}
