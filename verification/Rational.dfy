/** boost::rational over unbounded integers: a fraction that is always kept in lowest terms. */
module Rational {
  import opened CommonFactor

  /** Both fractions denote the same number. */
  predicate SameRatio(n: int, d: int, m: int, e: int) { n * e == m * d }

  /** `test_invariant`: positive denominator and lowest terms. */
  predicate Normalized(n: int, d: int) { d > 0 && Coprime(n, d) }

  // ---- exact division --------------------------------------------------------------------

  lemma ExactQuotient(k: int, g: int)
    requires g > 0
    ensures (k * g) / g == k
  {
    assert k * g == g * k + 0;
    QuotientUnique(k * g, g, k, 0);
  }

  lemma QuotientUnique(n: int, g: int, k: int, r: int)
    requires g > 0 && n == g * k + r && 0 <= r < g
    ensures n / g == k
  {
    var q := n / g;
    assert n == g * q + n % g;
    assert g * (k - q) == n % g - r;
    ProductBounds(k - q, g);
    ProductBounds(q - k, g);
    assert (q - k) * g == -((k - q) * g);
  }

  /** The quotients by the gcd are exact. */
  lemma GcdQuotients(a: int, b: int) returns (j: int, k: int)
    requires a != 0 || b != 0
    ensures Gcd(a, b) > 0 && j == a / Gcd(a, b) && k == b / Gcd(a, b)
    ensures a == j * Gcd(a, b) && b == k * Gcd(a, b) && Coprime(j, k)
  {
    j, k := GcdDivides(a, b);
    ExactQuotient(j, Gcd(a, b));
    ExactQuotient(k, Gcd(a, b));
    CoprimeQuotients(a, b, j, k);
  }

  // ---- the sum ---------------------------------------------------------------------------

  /** The numerator of the sum over the common part is coprime to both private parts of the
      denominators: so only the common part can share a factor with it. */
  lemma SumCoprimeToPrivateParts(a: int, j: int, c: int, k: int, g: int)
    requires Coprime(a, j * g) && Coprime(c, k * g) && Coprime(j, k)
    ensures Coprime(a * k + c * j, j) && Coprime(a * k + c * j, k)
  {
    CoprimeFactor(a, j, g);
    CoprimeFactor(c, k, g);
    CoprimeSymmetric(a, j);
    CoprimeProduct(j, a, k);
    CoprimeSymmetric(j, a * k);
    CoprimeShift(a * k, j, c);
    CoprimeSymmetric(c, k);
    CoprimeSymmetric(j, k);
    CoprimeProduct(k, c, j);
    CoprimeSymmetric(k, c * j);
    CoprimeShift(c * j, k, a);
  }

  /** Dividing by the gcd of numerator and common part normalises the sum completely. */
  lemma SumLowestTerms(j: int, k: int, p: int, q: int, h: int)
    requires Coprime(p * h, j) && Coprime(p * h, k) && Coprime(p, q)
    ensures Coprime(p, j * (k * q))
  {
    CoprimeSymmetric(p * h, j);
    CoprimeFactor(j, p, h);
    CoprimeSymmetric(j, p);
    CoprimeSymmetric(p * h, k);
    CoprimeFactor(k, p, h);
    CoprimeSymmetric(k, p);
    CoprimeProduct(p, k, q);
    CoprimeProduct(p, j, k * q);
  }

  lemma SumExact(a: int, j: int, c: int, k: int, p: int, q: int, h: int, g: int)
    requires a * k + c * j == p * h && g == q * h
    ensures SameRatio(p, j * (k * q), a * (k * g) + c * (j * g), (j * g) * (k * g))
  {
    var n := a * k + c * j;
    calc {
      a * (k * g) + c * (j * g);
      { assert a * (k * g) == (a * k) * g && c * (j * g) == (c * j) * g; }
      (a * k) * g + (c * j) * g;
      n * g;
      (p * h) * g;
    }
    var jk := j * k;
    assert (j * g) * (k * g) == (jk * g) * g by { MulSwap(j, g, k, g); }
    assert j * (k * q) == jk * q;
    assert p * ((jk * g) * g) == ((p * h) * g) * (jk * q) by { Shuffle(p, jk, g, q, h); }
  }

  lemma MulSwap(a: int, b: int, c: int, d: int)
    ensures (a * b) * (c * d) == ((a * c) * b) * d
  {
    assert (a * b) * c == (a * c) * b;
  }

  lemma Shuffle(p: int, m: int, g: int, q: int, h: int)
    requires g == q * h
    ensures p * ((m * g) * g) == ((p * h) * g) * (m * q)
  {
    var x := m * g;
    assert ((p * h) * g) * (m * q) == (p * h) * (g * (m * q));
    assert g * (m * q) == x * q by { assert g * (m * q) == (g * m) * q; }
    assert (p * h) * (x * q) == p * (h * (x * q));
    assert h * (x * q) == x * (q * h);
  }

  /** What `operator+=` computes for a/b + c/d: lowest terms, positive denominator, exact value. */
  lemma SumCorrect(a: int, b: int, c: int, d: int)
    requires Normalized(a, b) && Normalized(c, d)
    ensures var g := Gcd(b, d);
            && g > 0
            && var b1 := b / g;
               var n := a * (d / g) + c * b1;
               var h := Gcd(n, g);
               && h > 0
               && Normalized(n / h, b1 * (d / h))
               && SameRatio(n / h, b1 * (d / h), a * d + c * b, b * d)
  {
    var g := Gcd(b, d);
    var j, k := GcdQuotients(b, d);
    var n := a * k + c * j;
    SumCoprimeToPrivateParts(a, j, c, k, g);
    var h := Gcd(n, g);
    var p, q := GcdQuotients(n, g);
    SumLowestTerms(j, k, p, q, h);
    SumValue(a, b, c, d, j, k, p, q, h, g);
    SumDenominator(b, d, j, k, q, h, g);
  }

  lemma SumValue(a: int, b: int, c: int, d: int, j: int, k: int, p: int, q: int, h: int, g: int)
    requires b == j * g && d == k * g && a * k + c * j == p * h && g == q * h
    ensures SameRatio(p, j * (k * q), a * d + c * b, b * d)
  {
    SumExact(a, j, c, k, p, q, h, g);
  }

  lemma SumDenominator(b: int, d: int, j: int, k: int, q: int, h: int, g: int)
    requires b == j * g > 0 && d == k * g > 0 && g == q * h > 0 && h > 0
    ensures d / h == k * q && j * (k * q) > 0
  {
    assert d == (k * q) * h by { Associate(k, q, h); }
    ExactQuotient(k * q, h);
    Positive(j, g);
    Positive(k, g);
    Positive(q, h);
    PositiveProduct(k, q);
    PositiveProduct(j, k * q);
  }

  lemma PositiveProduct(x: int, y: int)
    requires x > 0 && y > 0
    ensures x * y > 0
  {}

  lemma Positive(x: int, g: int)
    requires g > 0 && x * g > 0
    ensures x > 0
  {
    ProductBounds(x, g);
  }

  // ---- product and quotient --------------------------------------------------------------

  lemma CoprimeFactors(x: int, s: int, y: int, t: int)
    requires Coprime(x * s, y * t)
    ensures Coprime(x, y)
  {
    CoprimeFactor(x * s, y, t);
    CoprimeSymmetric(x * s, y);
    CoprimeFactor(y, x, s);
    CoprimeSymmetric(y, x);
  }

  /** Cross-cancelling a/b times c/d: coprime and exact, whatever the signs. */
  lemma CrossCancel(a: int, b: int, c: int, d: int)
    requires Coprime(a, b) && Coprime(c, d) && (a != 0 || d != 0) && (c != 0 || b != 0)
    ensures var g1, g2 := Gcd(a, d), Gcd(c, b);
            && g1 > 0 && g2 > 0
            && var n, e := (a / g1) * (c / g2), (b / g2) * (d / g1);
               Coprime(n, e) && SameRatio(n, e, a * c, b * d) && (b * d != 0 ==> e != 0)
               && (b > 0 && d > 0 ==> e > 0)
  {
    var g1, g2 := Gcd(a, d), Gcd(c, b);
    var j1, k1 := GcdQuotients(a, d);
    var j2, k2 := GcdQuotients(c, b);
    CoprimeFactors(j1, g1, k2, g2);
    CoprimeFactors(j2, g2, k1, g1);
    CoprimeSymmetric(j2, k2);
    CoprimeProduct(j1, k2, k1);
    CoprimeProduct(j2, k2, k1);
    CoprimeSymmetric(j1, k2 * k1);
    CoprimeSymmetric(j2, k2 * k1);
    CoprimeProduct(k2 * k1, j1, j2);
    CoprimeSymmetric(k2 * k1, j1 * j2);
    CrossExact(j1, j2, k1, k2, g1, g2);
    if b > 0 && d > 0 {
      Positive(k1, g1);
      Positive(k2, g2);
      assert k2 * k1 > 0;
    }
    if k2 * k1 == 0 { assert k2 == 0 || k1 == 0; }
  }

  lemma CrossExact(j1: int, j2: int, k1: int, k2: int, g1: int, g2: int)
    ensures (j1 * j2) * ((k2 * g2) * (k1 * g1)) == ((j1 * g1) * (j2 * g2)) * (k2 * k1)
  {
    MulSwap(k2, g2, k1, g1);
    MulSwap(j1, g1, j2, g2);
    var j, k := j1 * j2, k2 * k1;
    assert j * ((k * g2) * g1) == ((j * g1) * g2) * k by { Rotate(j, k, g1, g2); }
  }

  lemma Rotate(j: int, k: int, g1: int, g2: int)
    ensures j * ((k * g2) * g1) == ((j * g1) * g2) * k
  {
    var g := g1 * g2;
    assert (k * g2) * g1 == k * g;
    assert (j * g1) * g2 == j * g;
    assert j * (k * g) == (j * k) * g;
    assert (j * g) * k == (j * k) * g;
  }

  // ---- normal forms are unique -----------------------------------------------------------

  /** Two normalised fractions denote the same number only if they are the same fraction: so
      `operator==`, which compares the parts, compares the numbers. */
  lemma NormalFormUnique(n: int, d: int, m: int, e: int)
    requires Normalized(n, d) && Normalized(m, e)
    ensures SameRatio(n, d, m, e) <==> n == m && d == e
  {
    if SameRatio(n, d, m, e) {
      SameDenominator(n, d, m, e);
      SameDenominator(m, e, n, d);
      DivideEachOther(d, e);
      assert (n - m) * d == 0;
    }
  }

  lemma SameDenominator(n: int, d: int, m: int, e: int)
    requires Coprime(n, d) && n * e == m * d
    ensures Divides(d, e)
  {
    CoprimeSymmetric(n, d);
    assert Multiple(m, d, n * e);
    CoprimeDividesOther(d, n, e);
  }

  lemma DivideEachOther(d: int, e: int)
    requires d > 0 && e > 0 && Divides(d, e) && Divides(e, d)
    ensures d == e
  {
    var k :| Multiple(k, d, e);
    var l :| Multiple(l, e, d);
    ProductBounds(k, d);
    ProductBounds(l, e);
  }

  lemma NegateNormalized(n: int, d: int)
    requires Coprime(n, d) && d < 0
    ensures Normalized(-n, -d)
  {
    GcdNegate(n, d);
    GcdNegate(-n, d);
  }

  /** What `operator/=` computes for (a/b) / (c/d), before and after the sign is moved. */
  lemma QuotientCorrect(a: int, b: int, c: int, d: int)
    requires Normalized(a, b) && Normalized(c, d) && a != 0 && c != 0
    ensures var g1, g2 := Gcd(a, c), Gcd(d, b);
            && g1 > 0 && g2 > 0
            && var n, e := (a / g1) * (d / g2), (b / g2) * (c / g1);
               && e != 0
               && (e > 0 ==> Normalized(n, e) && SameRatio(n, e, a * d, b * c))
               && (e < 0 ==> Normalized(-n, -e) && SameRatio(-n, -e, a * d, b * c))
  {
    CoprimeSymmetric(c, d);
    assert b * c != 0;
    CrossCancel(a, b, d, c);
    var g1, g2 := Gcd(a, c), Gcd(d, b);
    var n, e := (a / g1) * (d / g2), (b / g2) * (c / g1);
    if e < 0 {
      NegateNormalized(n, e);
      NegateRatio(n, e, a * d, b * c);
    }
  }

  lemma QuotientRatio(n: int, d: int, j: int, k: int, g: int)
    requires n == j * g && d == k * g && d != 0
    ensures k != 0 && SameRatio(j, k, n, d)
  {
    assert j * (k * g) == (j * g) * k;
  }

  /** What `normalize` computes, before and after the sign is moved. */
  lemma NormalizeCorrect(n: int, d: int)
    requires d != 0
    ensures var g := Gcd(n, d);
            && g > 0
            && var p, q := n / g, d / g;
               && SameRatio(p, q, n, d)
               && (if q < 0 then Normalized(-p, -q) && SameRatio(-p, -q, n, d) else Normalized(p, q))
  {
    var j, k := GcdQuotients(n, d);
    QuotientRatio(n, d, j, k, Gcd(n, d));
    if k < 0 {
      NegateNormalized(j, k);
      NegateRatio(j, k, n, d);
    }
  }

  lemma NegateRatio(n: int, e: int, m: int, f: int)
    requires SameRatio(n, e, m, f)
    ensures SameRatio(-n, -e, m, f)
  {
    assert (-n) * f == -(n * f) && m * (-e) == -(m * e);
  }

  // ---- comparison ------------------------------------------------------------------------

  /** C++ division truncates towards zero. */
  function TruncDiv(n: int, d: int): int
    requires d > 0
  {
    if n >= 0 then n / d else -((-n) / d)
  }

  function TruncMod(n: int, d: int): int
    requires d > 0
  {
    n - TruncDiv(n, d) * d
  }

  lemma TruncModBounds(n: int, d: int)
    requires d > 0
    ensures -d < TruncMod(n, d) < d
    ensures n >= 0 ==> TruncMod(n, d) >= 0
  {}

  lemma Scale(x: int, y: int, k: int)
    requires x <= y && k > 0
    ensures x * k <= y * k && (x < y ==> x * k < y * k)
  {
    ProductBounds(y - x, k);
    Distribute(y, -x, k);
  }

  /** Different whole parts decide. */
  lemma QuotientDecides(n: int, d: int, q: int, r: int, m: int, e: int, p: int, s: int)
    requires n == q * d + r && 0 <= r < d && m == p * e + s && 0 <= s < e && q < p
    ensures n * e < m * d
  {
    Distribute(q, 1, d);
    Scale(q + 1, p, d);
    Scale(n, p * d, e);
    Scale(p * e, m, d);
    assert (p * d) * e == (p * e) * d;
  }

  /** Equal whole parts cancel. */
  lemma RemaindersDecide(n: int, d: int, q: int, r: int, m: int, e: int, s: int)
    requires n == q * d + r && m == q * e + s
    ensures n * e < m * d <==> r * e < s * d
    ensures m * d < n * e <==> s * d < r * e
  {
    Distribute(q * d, r, e);
    Distribute(q * e, s, d);
    assert (q * d) * e == (q * e) * d;
  }

  // ---- the class -------------------------------------------------------------------------

  lemma LowerQuotient(q: int, d: int, t: int)
    ensures q * d + t == (q - 1) * d + (t + d)
  {}

  /** Quotient and remainder of the first level: C++ truncates, the loop repairs the sign. */
  method FloorDivide(n: int, d: int) returns (q: int, t: int)
    requires d > 0
    ensures n == q * d + t && 0 <= t < d
  {
    q, t := TruncDiv(n, d), TruncMod(n, d);
    TruncModBounds(n, d);
    while t < 0
      invariant n == q * d + t && t < d
      decreases -t
    {
      LowerQuotient(q, d, t);
      t, q := t + d, q - 1;
    }
  }

  /** The expansions end together or one of them ends first. */
  lemma LastRemainders(td: int, tr: int, rd: int, rr: int)
    requires 0 <= tr < td && 0 <= rr < rd && (tr == 0 || rr == 0)
    ensures tr * rd < rr * td <==> tr == 0 && rr != 0
    ensures rr * td < tr * rd <==> rr == 0 && tr != 0
  {
    ProductBounds(tr, rd);
    ProductBounds(rr, td);
  }

  class Rational {
    var num: int
    var den: int

    ghost predicate Valid()
      reads this
    {
      Normalized(num, den)
    }

    /** The default: zero. */
    constructor ()
      ensures Valid() && num == 0 && den == 1
    {
      num, den := 0, 1;
    }

    /** Sets the value to n/d and normalises, by way of a temporary; `false` stands for the exception
        bad_rational, which leaves this object as it was. */
    method Assign(n: int, d: int) returns (ok: bool)
      modifies this
      ensures ok <==> d != 0
      ensures ok ==> Valid() && SameRatio(num, den, n, d)
      ensures !ok ==> num == old(num) && den == old(den)
    {
      var fraction := new Rational();
      fraction.num, fraction.den := n, d;
      ok := fraction.Normalize();
      if ok {
        num, den := fraction.num, fraction.den;
      }
    }

    method Normalize() returns (ok: bool)
      modifies this
      ensures ok <==> old(den) != 0
      ensures ok ==> Valid() && SameRatio(num, den, old(num), old(den))
      ensures !ok ==> num == old(num) && den == old(den)
    {
      if den == 0 { return false; }
      if num == 0 {
        den := 1;
        return true;
      }
      NormalizeCorrect(num, den);
      var g := Gcd(num, den);
      num := num / g;
      den := den / g;
      if den < 0 {
        num := -num;
        den := -den;
      }
      return true;
    }

    /** `operator+=`; `r` may be this object. */
    method Add(r: Rational)
      requires Valid() && r.Valid()
      modifies this
      ensures Valid()
      ensures SameRatio(num, den, old(num) * old(r.den) + old(r.num) * old(den), old(den) * old(r.den))
    {
      var rnum, rden := r.num, r.den;
      SumCorrect(num, den, rnum, rden);
      var g := Gcd(den, rden);
      den := den / g;
      num := num * (rden / g) + rnum * den;
      g := Gcd(num, g);
      num := num / g;
      den := den * (rden / g);
    }

    /** `operator-=`; `r` may be this object. */
    method Subtract(r: Rational)
      requires Valid() && r.Valid()
      modifies this
      ensures Valid()
      ensures SameRatio(num, den, old(num) * old(r.den) - old(r.num) * old(den), old(den) * old(r.den))
    {
      var rnum, rden := r.num, r.den;
      GcdNegate(rnum, rden);
      SumCorrect(num, den, -rnum, rden);
      assert forall x :: (-rnum) * x == -(rnum * x);
      var g := Gcd(den, rden);
      den := den / g;
      num := num * (rden / g) - rnum * den;
      g := Gcd(num, g);
      num := num / g;
      den := den * (rden / g);
    }

    /** `operator*=`; `r` may be this object. */
    method Multiply(r: Rational)
      requires Valid() && r.Valid()
      modifies this
      ensures Valid()
      ensures SameRatio(num, den, old(num) * old(r.num), old(den) * old(r.den))
    {
      var rnum, rden := r.num, r.den;
      CrossCancel(num, den, rnum, rden);
      var gcd1 := Gcd(num, rden);
      var gcd2 := Gcd(rnum, den);
      num := (num / gcd1) * (rnum / gcd2);
      den := (den / gcd2) * (rden / gcd1);
    }

    /** `operator/=`; `r` may be this object.  `false` stands for bad_rational; the object is then
        unchanged. */
    method Divide(r: Rational) returns (ok: bool)
      requires Valid() && r.Valid()
      modifies this
      ensures Valid() && (ok <==> old(r.num) != 0)
      ensures !ok ==> num == old(num) && den == old(den)
      ensures ok ==> SameRatio(num, den, old(num) * old(r.den), old(den) * old(r.num))
    {
      var rnum, rden := r.num, r.den;
      if rnum == 0 { return false; }
      if num == 0 { return true; }
      QuotientCorrect(num, den, rnum, rden);
      var gcd1 := Gcd(num, rnum);
      var gcd2 := Gcd(rden, den);
      num := (num / gcd1) * (rden / gcd2);
      den := (den / gcd2) * (rnum / gcd1);
      if den < 0 {
        num := -num;
        den := -den;
      }
      return true;
    }

    /** `operator<`: expands both values to continued fractions and compares the first difference. */
    method LessThan(r: Rational) returns (less: bool)
      requires den > 0 && r.den > 0
      ensures less <==> num * r.den < r.num * den
    {
      var tn, td, rn, rd := num, den, r.num, r.den;
      var tq, tr := FloorDivide(tn, td);
      var rq, rr := FloorDivide(rn, rd);
      var reverse := false;
      while true
        invariant tn == tq * td + tr && 0 <= tr < td
        invariant rn == rq * rd + rr && 0 <= rr < rd
        invariant num * r.den < r.num * den <==> if reverse then rn * td < tn * rd else tn * rd < rn * td
        decreases td
      {
        if tq != rq {
          if tq < rq { QuotientDecides(tn, td, tq, tr, rn, rd, rq, rr); }
          else { QuotientDecides(rn, rd, rq, rr, tn, td, tq, tr); }
          return if reverse then tq > rq else tq < rq;
        }
        RemaindersDecide(tn, td, tq, tr, rn, rd, rr);
        reverse := !reverse;
        if tr == 0 || rr == 0 { break; }
        tn, td := td, tr;
        tq, tr := tn / td, tn % td;
        rn, rd := rd, rr;
        rq, rr := rn / rd, rn % rd;
      }
      LastRemainders(td, tr, rd, rr);
      if tr == rr { return false; }
      return (tr != 0) != reverse;
    }
  }
}
