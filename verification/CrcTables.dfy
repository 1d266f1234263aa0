/**
 The loops of boost/crc.hpp: bit reflection, the bitwise update, the table builder and the two
 table-driven updates, on registers that may be wider than the polynomial (`n` is the order, the
 register has |word| >= n bits).
 */
module CrcTables {
  import opened BitString
  import opened CrcSpec

  /** The low `len` bits reversed, the others kept. */
  function Reflected(x: Bits, len: nat): (r: Bits)
    requires len <= |x|
    ensures |r| == |x|
    ensures forall i :: 0 <= i < |x| ==> r[i] == (if i < |x| - len then x[i] else x[2 * |x| - len - 1 - i])
  {
    High(x, len) + Reverse(Low(x, len))
  }

  /** After k swaps: the k outermost pairs of the low `len` bits are exchanged. */
  function Swapped(x: Bits, len: nat, k: nat): (r: Bits)
    requires 2 * k <= len <= |x|
    ensures |r| == |x|
    ensures forall i :: 0 <= i < |x| ==>
              r[i] == (if |x| - len <= i < |x| - len + k || |x| - k <= i then x[2 * |x| - len - 1 - i] else x[i])
  {
    seq(|x|, i requires 0 <= i < |x| =>
      if |x| - len <= i < |x| - len + k || |x| - k <= i then x[2 * |x| - len - 1 - i] else x[i])
  }

  lemma SwapOuter(x: Bits, len: nat, k: nat)
    requires 2 * k + 2 <= len <= |x|
    ensures var r, i, j := Swapped(x, len, k), |x| - len + k, |x| - 1 - k;
            Swapped(x, len, k + 1) == r[i := r[j]][j := r[i]]
  {}

  lemma Toggle(r: Bits, i: nat, j: nat)
    requires i < j < |r|
    ensures r[i := r[j]][j := r[i]] == if r[i] != r[j] then r[i := !r[i]][j := !r[j]] else r
  {}

  lemma SwapNone(x: Bits, len: nat)
    requires len <= |x|
    ensures Swapped(x, len, 0) == x
  {}

  lemma SwapAll(x: Bits, len: nat, k: nat)
    requires len <= |x| && len - 1 <= 2 * k <= len
    ensures Swapped(x, len, k) == Reflected(x, len)
  {}

  /** `reflect_unsigned`: swaps the bits at positions h and l (counted from the low end) from the
      outside in. */
  method ReflectUnsigned(x: Bits, len: nat) returns (r: Bits)
    requires 0 < len <= |x|
    ensures r == Reflected(x, len)
  {
    r := x;
    var n := |x|;
    var l, h := 0, len - 1;
    SwapNone(x, len);
    while h > l
      invariant l + h == len - 1 && -1 <= h - l && |r| == n && r == Swapped(x, len, l)
    {
      var i, j := n - 1 - h, n - 1 - l;
      assert i == n - len + l;
      SwapOuter(x, len, l);
      Toggle(r, i, j);
      if r[i] != r[j] {
        r := r[i := !r[i]][j := !r[j]];
      }
      h, l := h - 1, l + 1;
    }
    SwapAll(x, len, l);
  }

  /** One pass of the loop of `crc_modulo_word_update`: a step of the division on the low n bits. */
  method DivideBit(n: nat, remainder: Bits, bit: bool, divisor: Bits) returns (r: Bits)
    requires 0 < n <= |remainder| == |divisor|
    ensures |r| == |remainder|
    ensures Low(r, n) == Feed(Low(remainder, n), bit, Low(divisor, n))
  {
    r := remainder;
    var top := |r| - n;
    if bit {
      r := r[top := !r[top]];
    }
    var quotient := r[top];
    r := ShiftLeft(r, 1);
    if quotient {
      r := Xor(r, divisor);
    }
  }

  lemma NextBit(r: Bits, bits: Bits, k: nat, p: Bits, result: Bits)
    requires |r| == |p| > 0 && k < |bits| && Awaits(r, bits, k, p, result)
    ensures Awaits(Feed(r, bits[k], p), bits, k + 1, p, result)
  {
    assert bits[k..][1..] == bits[k + 1..];
  }

  /** Feeding the bits from the k-th on would turn `r` into `result`. */
  ghost predicate Awaits(r: Bits, bits: Bits, k: nat, p: Bits, result: Bits)
    requires |r| == |p| > 0 && k <= |bits|
  {
    FeedAll(r, bits[k..], p) == result
  }

  lemma AwaitsEnds(r: Bits, bits: Bits, p: Bits, result: Bits)
    requires |r| == |p| > 0
    ensures Awaits(r, bits, 0, p, FeedAll(r, bits, p))
    ensures Awaits(r, bits, |bits|, p, result) ==> r == result
  {
    assert bits[0..] == bits;
  }

  /** The low bits of `d`, lowest first, are the bits from the k-th on. */
  predicate Pending(d: Bits, bits: Bits, k: nat) {
    && k <= |bits| <= |d| + k
    && forall j :: k <= j < |bits| ==> bits[j] == d[|d| - 1 - (j - k)]
  }

  lemma PendingShift(d: Bits, bits: Bits, k: nat)
    requires k < |bits| && Pending(d, bits, k)
    ensures d[|d| - 1] == bits[k] && Pending(ShiftRight(d, 1), bits, k + 1)
  {
    assert bits[k] == d[|d| - 1 - (k - k)];
  }

  /** Reading from the lowest bit, after the reflection that `!reflect` asks for, gives the bits in
      the intended order. */
  lemma InputOrder(dividend: Bits, len: nat, reflect: bool)
    requires len <= |dividend|
    ensures Pending(if reflect then dividend else Reflected(dividend, len), Oriented(Low(dividend, len), reflect), 0)
  {}

  /** `crc_modulo_word_update`: `wordLength` steps of modulo-2 division, one input bit at a time. */
  method CrcModuloWordUpdate(n: nat, remainder: Bits, dividend: Bits, divisor: Bits, wordLength: nat, reflect: bool)
    returns (r: Bits)
    requires 0 < n <= |remainder| == |divisor| && 0 < wordLength <= |dividend|
    ensures r == Zeros(|remainder| - n)
                 + FeedAll(Low(remainder, n), Oriented(Low(dividend, wordLength), reflect), Low(divisor, n))
  {
    var d := dividend;
    if !reflect {
      d := ReflectUnsigned(d, wordLength);
    }
    ghost var p, bits := Low(divisor, n), Oriented(Low(dividend, wordLength), reflect);
    ghost var result := FeedAll(Low(remainder, n), bits, p);
    InputOrder(dividend, wordLength, reflect);
    AwaitsEnds(Low(remainder, n), bits, p, result);
    r := remainder;
    var i := wordLength;
    ghost var k := 0;
    while i > 0
      invariant 0 <= i <= wordLength && k == wordLength - i && |r| == |remainder|
      invariant Pending(d, bits, k)
      invariant Awaits(Low(r, n), bits, k, p, result)
    {
      PendingShift(d, bits, k);
      NextBit(Low(r, n), bits, k, p, result);
      r := DivideBit(n, r, d[|d| - 1], divisor);
      i, d, k := i - 1, ShiftRight(d, 1), k + 1;
    }
    AwaitsEnds(Low(r, n), bits, p, result);
    r := Zeros(|r| - n) + Low(r, n);
  }

  // ---- the table -------------------------------------------------------------------------

  lemma ByteValue(x: Byte)
    ensures Value(x) < 256 && BitsOf(Value(x), 8) == x
  {
    ValueBound(x);
    BitsOfValue(x);
    assert Pow2(8) == 256 by { assert Pow2(4) == 16; }
  }

  lemma ByteOfValue(v: nat)
    requires v < 256
    ensures Value(BitsOf(v, 8)) == v
  {
    assert Pow2(8) == 256 by { assert Pow2(4) == 16; }
    ValueOfBits(v, 8);
  }

  /** Entry of the table for the (unreflected) index bits `x`, as a word of `width` bits. */
  function Entry(width: nat, x: Byte, p: Bits, reflect: bool): (e: Bits)
    requires 0 < |p| <= width
    ensures |e| == width
  {
    Zeros(width - |p|) + Oriented(Product(x, p), reflect)
  }

  ghost predicate TableFor(table: seq<Bits>, width: nat, p: Bits, reflect: bool) {
    && 0 < |p| <= width && |table| == 256
    && forall x: Byte :: Value(Oriented(x, reflect)) < 256 && table[Value(Oriented(x, reflect))] == Entry(width, x, p, reflect)
  }

  function Slot(dividend: nat, reflect: bool): nat {
    Value(Oriented(BitsOf(dividend, 8), reflect))
  }

  lemma SlotsAreDistinct(d: nat, e: nat, reflect: bool)
    requires d < 256 && e < 256 && Slot(d, reflect) == Slot(e, reflect)
    ensures d == e
  {
    var x, y := BitsOf(d, 8), BitsOf(e, 8);
    ByteValue(Oriented(x, reflect));
    ByteValue(Oriented(y, reflect));
    ReverseTwice(x);
    ReverseTwice(y);
    ByteOfValue(d);
    ByteOfValue(e);
  }

  lemma ReflectedClean(k: nat, x: Bits)
    ensures Reflected(Zeros(k) + x, |x|) == Zeros(k) + Reverse(x)
    ensures k == 0 ==> Reflected(x, |x|) == Reverse(x)
  {}

  /** The loop body of the table builder: the place and the value of the entry of `x`. */
  method MakeEntry(n: nat, x: Byte, divisor: Bits, reflect: bool) returns (index: Bits, entry: Bits)
    requires 8 <= n <= |divisor|
    ensures index == Oriented(x, reflect)
    ensures entry == Entry(|divisor|, x, Low(divisor, n), reflect)
  {
    var width := |divisor|;
    ghost var p := Low(divisor, n);
    index := x;
    entry := CrcModuloWordUpdate(n, Zeros(width), x, divisor, 8, false);
    assert Low(Zeros(width), n) == Zeros(n) && Low(x, 8) == x;
    assert entry == Zeros(width - n) + Product(x, p);
    if reflect {
      ReflectedClean(0, x);
      ReflectedClean(width - n, Product(x, p));
      index := ReflectUnsigned(x, 8);
      entry := ReflectUnsigned(entry, n);
    }
  }

  /** The entries of the dividends below `count` are in place. */
  ghost predicate Filled(table: seq<Bits>, count: nat, width: nat, p: Bits, reflect: bool) {
    && 0 < |p| <= width && |table| == 256
    && forall d :: 0 <= d < count ==>
         Slot(d, reflect) < 256 && table[Slot(d, reflect)] == Entry(width, BitsOf(d, 8), p, reflect)
  }

  lemma FillNext(table: seq<Bits>, d: nat, width: nat, p: Bits, reflect: bool)
    requires d < 256 && Filled(table, d, width, p, reflect)
    ensures Slot(d, reflect) < 256
    ensures Filled(table[Slot(d, reflect) := Entry(width, BitsOf(d, 8), p, reflect)], d + 1, width, p, reflect)
  {
    ByteValue(Oriented(BitsOf(d, 8), reflect));
    var at, entry := Slot(d, reflect), Entry(width, BitsOf(d, 8), p, reflect);
    var longer := table[at := entry];
    forall e | 0 <= e < d + 1
      ensures Slot(e, reflect) < 256 && longer[Slot(e, reflect)] == Entry(width, BitsOf(e, 8), p, reflect)
    {
      if e < d && Slot(e, reflect) == at { SlotsAreDistinct(e, d, reflect); }
    }
  }

  lemma AllSlotsFilled(table: seq<Bits>, width: nat, p: Bits, reflect: bool)
    requires Filled(table, 256, width, p, reflect)
    ensures TableFor(table, width, p, reflect)
  {
    forall x: Byte
      ensures Value(Oriented(x, reflect)) < 256 && table[Value(Oriented(x, reflect))] == Entry(width, x, p, reflect)
    {
      ByteValue(x);
      assert Slot(Value(x), reflect) == Value(Oriented(x, reflect));
    }
  }

  /** `make_partial_xor_products_table<8>`. */
  method MakeTable(n: nat, divisor: Bits, reflect: bool) returns (table: seq<Bits>)
    requires 8 <= n <= |divisor|
    ensures TableFor(table, |divisor|, Low(divisor, n), reflect)
  {
    var width := |divisor|;
    ghost var p := Low(divisor, n);
    table := seq(256, i => Zeros(width));
    var dividend := 0;
    while dividend < 256
      invariant 0 <= dividend <= 256 && Filled(table, dividend, width, p, reflect)
    {
      FillNext(table, dividend, width, p, reflect);
      var index, entry := MakeEntry(n, BitsOf(dividend, 8), divisor, reflect);
      table := table[Value(index) := entry];
      dividend := dividend + 1;
    }
    AllSlotsFilled(table, width, p, reflect);
  }

  // ---- the table-driven updates ----------------------------------------------------------

  function DirectStep(w: Bits, byte: Byte, p: Bits): (r: Bits)
    requires 8 <= |p| <= |w|
    ensures |r| == |w|
  {
    Xor(ShiftLeft(w, 8), Entry(|w|, Xor(Low(w, |p|)[..8], byte), p, false))
  }

  function ReflectedStep(w: Bits, byte: Byte, p: Bits): (r: Bits)
    requires 8 <= |p| <= |w|
    ensures |r| == |w|
  {
    Xor(ShiftRight(w, 8), Entry(|w|, Reverse(Xor(Low(w, 8), byte)), p, true))
  }

  function Update(w: Bits, bytes: seq<Byte>, p: Bits, reflect: bool): (r: Bits)
    requires 8 <= |p| <= |w|
    ensures |r| == |w|
  {
    if bytes == [] then w
    else
      var v := Update(w, bytes[..|bytes| - 1], p, reflect);
      var b := bytes[|bytes| - 1];
      if reflect then ReflectedStep(v, b, p) else DirectStep(v, b, p)
  }

  /** `direct_byte_table_driven_crcs::crc_update` */
  method CrcUpdateDirect(n: nat, table: seq<Bits>, remainder: Bits, bytes: seq<Byte>, ghost p: Bits) returns (r: Bits)
    requires 8 <= n == |p| <= |remainder| && TableFor(table, |remainder|, p, false)
    ensures r == Update(remainder, bytes, p, false)
  {
    r := remainder;
    assert bytes[..0] == [];
    for i := 0 to |bytes|
      invariant |r| == |remainder| && r == Update(remainder, bytes[..i], p, false)
    {
      var index := Xor(Low(ShiftRight(r, n - 8), 8), bytes[i]);
      assert index == Xor(Low(r, n)[..8], bytes[i]);
      assert Oriented(index, false) == index;
      assert bytes[..i + 1][..i] == bytes[..i];
      r := Xor(ShiftLeft(r, 8), table[Value(index)]);
    }
    assert bytes[..|bytes|] == bytes;
  }

  /** `reflected_byte_table_driven_crcs::crc_update` */
  method CrcUpdateReflected(n: nat, table: seq<Bits>, remainder: Bits, bytes: seq<Byte>, ghost p: Bits) returns (r: Bits)
    requires 8 <= n == |p| <= |remainder| && TableFor(table, |remainder|, p, true)
    ensures r == Update(remainder, bytes, p, true)
  {
    r := remainder;
    assert bytes[..0] == [];
    for i := 0 to |bytes|
      invariant |r| == |remainder| && r == Update(remainder, bytes[..i], p, true)
    {
      var index := Xor(Low(r, 8), bytes[i]);
      ReverseTwice(index);
      assert Oriented(Reverse(index), true) == index;
      assert bytes[..i + 1][..i] == bytes[..i];
      r := Xor(ShiftRight(r, 8), table[Value(index)]);
    }
    assert bytes[..|bytes|] == bytes;
  }

  // ---- table-driven equals bit by bit ----------------------------------------------------

  lemma DirectStepIsFeed(w: Bits, byte: Byte, p: Bits)
    requires 8 <= |p| <= |w|
    ensures Low(DirectStep(w, byte, p), |p|) == FeedAll(Low(w, |p|), byte, p)
  {
    BlockStep(Low(w, |p|), byte, p);
    LowXor(ShiftLeft(w, 8), Entry(|w|, Xor(Low(w, |p|)[..8], byte), p, false), |p|);
    LowShift(w, 8, |p|);
  }

  lemma LowXor(a: Bits, b: Bits, n: nat)
    requires |a| == |b| >= n
    ensures Low(Xor(a, b), n) == Xor(Low(a, n), Low(b, n))
  {}

  lemma LowShift(w: Bits, k: nat, n: nat)
    requires k <= n <= |w|
    ensures Low(ShiftLeft(w, k), n) == ShiftLeft(Low(w, n), k)
  {}

  /** The direct table-driven update is bit-by-bit division on the low n bits, for every message and
      every start register, whatever the register holds above those bits. */
  lemma {:induction false} DirectIsDivision(w: Bits, bytes: seq<Byte>, p: Bits)
    requires 8 <= |p| <= |w|
    ensures Low(Update(w, bytes, p, false), |p|) == FeedAll(Low(w, |p|), Flatten(bytes, false), p)
  {
    if bytes != [] {
      var front, b := bytes[..|bytes| - 1], bytes[|bytes| - 1];
      DirectIsDivision(w, front, p);
      DirectStepIsFeed(Update(w, front, p, false), b, p);
      FeedConcat(Low(w, |p|), Flatten(front, false), b, p);
    }
  }

  /** A register without bits above the order, in reversed form. */
  function Mirror(width: nat, r: Bits): (w: Bits)
    requires |r| <= width
    ensures |w| == width
  {
    Zeros(width - |r|) + Reverse(r)
  }

  /** The zeros above the order stay out of the way. */
  lemma StepBelowZeros(k: nat, m: Bits, e: Bits)
    requires |m| == |e| >= 8
    ensures Low(Zeros(k) + m, 8) == Low(m, 8)
    ensures Xor(ShiftRight(Zeros(k) + m, 8), Zeros(k) + e) == Zeros(k) + Xor(ShiftRight(m, 8), e)
  {}

  lemma ReflectedStepIsFeed(width: nat, r: Bits, byte: Byte, p: Bits)
    requires 8 <= |p| == |r| <= width
    ensures ReflectedStep(Mirror(width, r), byte, p) == Mirror(width, FeedAll(r, Reverse(byte), p))
  {
    var m := Reverse(r);
    ReverseTwice(r);
    ReflectedBlockStep(m, byte, p);
    StepBelowZeros(width - |p|, m, Reverse(Product(Reverse(Xor(Low(m, 8), byte)), p)));
  }

  /** The reflected register is always the bit reversal of the direct register fed with reversed
      bytes. */
  lemma {:induction false} ReflectedIsMirror(width: nat, r: Bits, bytes: seq<Byte>, p: Bits)
    requires 8 <= |p| == |r| <= width
    ensures Update(Mirror(width, r), bytes, p, true) == Mirror(width, FeedAll(r, Flatten(bytes, true), p))
  {
    if bytes != [] {
      var front, b := bytes[..|bytes| - 1], bytes[|bytes| - 1];
      ReflectedIsMirror(width, r, front, p);
      ReflectedStepIsFeed(width, FeedAll(r, Flatten(front, true), p), b, p);
      FeedConcat(r, Flatten(front, true), Reverse(b), p);
    }
  }
}
