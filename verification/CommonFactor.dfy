/** The greatest common divisor of two integers and the calculus of coprime numbers. */
module CommonFactor {

  function Abs(x: int): nat { if x < 0 then -x else x }

  function Euclid(a: nat, b: nat): nat
    decreases b
  {
    if b == 0 then a else Euclid(b, a % b)
  }

  /** integer::gcd: never negative, 0 only for two zeros. */
  function Gcd(a: int, b: int): nat { Euclid(Abs(a), Abs(b)) }

  ghost predicate Divides(d: int, n: int) {
    exists k :: Multiple(k, d, n)
  }

  predicate Multiple(k: int, d: int, n: int) { n == k * d }

  predicate Coprime(a: int, b: int) { Gcd(a, b) == 1 }

  /** The last remainder is a combination of the two arguments. */
  lemma {:induction false} EuclidBezout(a: nat, b: nat) returns (x: int, y: int)
    ensures Euclid(a, b) == x * a + y * b
    decreases b
  {
    if b == 0 {
      x, y := 1, 0;
    } else {
      var u, v := EuclidBezout(b, a % b);
      x, y := v, u - v * (a / b);
      BezoutStep(u, v, a, b, a / b);
    }
  }

  lemma BezoutStep(u: int, v: int, a: int, b: int, q: int)
    ensures u * b + v * (a - q * b) == v * a + (u - v * q) * b
  {
    assert v * (a - q * b) == v * a - v * (q * b);
    assert v * (q * b) == (v * q) * b;
    assert (u - v * q) * b == u * b - (v * q) * b;
  }

  lemma {:induction false} EuclidDivides(a: nat, b: nat)
    ensures Divides(Euclid(a, b), a) && Divides(Euclid(a, b), b)
    decreases b
  {
    var g := Euclid(a, b);
    if b == 0 {
      assert Multiple(1, a, a) && Multiple(0, a, b);
    } else {
      EuclidDivides(b, a % b);
      var j :| Multiple(j, g, b);
      var k :| Multiple(k, g, a % b);
      var q := a / b;
      assert a == q * b + a % b;
      assert a == (q * j + k) * g by {
        assert q * (j * g) == (q * j) * g;
        assert (q * j + k) * g == (q * j) * g + k * g;
      }
      assert Multiple(q * j + k, g, a);
    }
  }

  lemma Bezout(a: int, b: int) returns (x: int, y: int)
    ensures Gcd(a, b) == x * a + y * b
  {
    x, y := EuclidBezout(Abs(a), Abs(b));
    if a < 0 { assert x * (-a) == (-x) * a; x := -x; }
    if b < 0 { assert y * (-b) == (-y) * b; y := -y; }
  }

  lemma GcdDivides(a: int, b: int) returns (j: int, k: int)
    ensures a == j * Gcd(a, b) && b == k * Gcd(a, b)
    ensures a != 0 || b != 0 ==> Gcd(a, b) > 0
  {
    var g := Gcd(a, b);
    EuclidDivides(Abs(a), Abs(b));
    j :| Multiple(j, g, Abs(a));
    k :| Multiple(k, g, Abs(b));
    if a < 0 { assert (-j) * g == -(j * g); j := -j; }
    if b < 0 { assert (-k) * g == -(k * g); k := -k; }
  }

  /** Every common divisor divides the gcd. */
  lemma CommonDivides(d: int, a: int, b: int)
    requires Divides(d, a) && Divides(d, b)
    ensures Divides(d, Gcd(a, b))
  {
    var x, y := Bezout(a, b);
    var j :| Multiple(j, d, a);
    var k :| Multiple(k, d, b);
    CombineMultiples(x, j, y, k, d);
    assert Multiple(x * j + y * k, d, Gcd(a, b));
  }

  lemma Associate(x: int, y: int, z: int)
    ensures x * (y * z) == (x * y) * z
  {}

  lemma Distribute(p: int, q: int, k: int)
    ensures (p + q) * k == p * k + q * k
  {}

  lemma CombineMultiples(x: int, j: int, y: int, k: int, d: int)
    ensures x * (j * d) + y * (k * d) == (x * j + y * k) * d
  {
    Associate(x, j, d);
    Associate(y, k, d);
    Distribute(x * j, y * k, d);
  }

  lemma ProductBounds(m: int, g: nat)
    ensures m >= 1 ==> m * g >= g
    ensures m <= 0 ==> m * g <= 0
  {
    if m >= 1 { assert (m - 1) * g >= 0; }
  }

  lemma UnitFactor(m: int, g: nat)
    requires m * g == 1
    ensures g == 1
  {
    ProductBounds(m, g);
    assert g != 0;
  }

  /** Only 1 and -1 divide 1; so a combination equal to 1 means coprime. */
  lemma CombinationIsCoprime(a: int, b: int, x: int, y: int)
    requires x * a + y * b == 1
    ensures Coprime(a, b)
  {
    var j, k := GcdDivides(a, b);
    var g := Gcd(a, b);
    assert x * (j * g) == (x * j) * g && y * (k * g) == (y * k) * g;
    assert (x * j + y * k) * g == (x * j) * g + (y * k) * g;
    var m := x * j + y * k;
    assert m * g == 1;
    UnitFactor(m, g);
  }

  lemma CoprimeSymmetric(a: int, b: int)
    requires Coprime(a, b)
    ensures Coprime(b, a)
  {
    var x, y := Bezout(a, b);
    CombinationIsCoprime(b, a, y, x);
  }

  /** A factor of one side stays coprime to the other. */
  lemma CoprimeFactor(a: int, b: int, k: int)
    requires Coprime(a, b * k)
    ensures Coprime(a, b)
  {
    var x, y := Bezout(a, b * k);
    assert y * (b * k) == (y * k) * b;
    CombinationIsCoprime(a, b, x, y * k);
  }

  lemma Regroup(v: int, x: int, a: int, c: int)
    ensures v * ((x * a) * c) == (v * (x * c)) * a
    ensures v * ((x * a) * c) == (v * x) * (a * c)
  {
    assert (x * a) * c == (x * c) * a;
    assert (x * a) * c == x * (a * c);
  }

  /** From x*a + y*b == 1 and u*a + v*c == 1: substitute c == (x*a + y*b) * c in the second. */
  lemma CombineUnits(a: int, b: int, c: int, x: int, y: int, u: int, v: int)
    requires x * a + y * b == 1 && u * a + v * c == 1
    ensures (u + v * (x * c)) * a + (v * y) * (b * c) == 1
  {
    var p, q := x * a, y * b;
    Distribute(p, q, c);
    var pc, qc := p * c, q * c;
    assert c == pc + qc;
    Distribute(pc, qc, v);
    assert v * c == v * pc + v * qc;
    Regroup(v, x, a, c);
    Regroup(v, y, b, c);
    Distribute(u, v * (x * c), a);
  }

  lemma CoprimeProduct(a: int, b: int, c: int)
    requires Coprime(a, b) && Coprime(a, c)
    ensures Coprime(a, b * c)
  {
    var x, y := Bezout(a, b);
    var u, v := Bezout(a, c);
    CombineUnits(a, b, c, x, y, u, v);
    CombinationIsCoprime(a, b * c, u + v * (x * c), v * y);
  }

  /** Adding a multiple of the other side keeps numbers coprime. */
  lemma CoprimeShift(a: int, b: int, k: int)
    requires Coprime(a, b)
    ensures Coprime(a + k * b, b)
  {
    var x, y := Bezout(a, b);
    assert x * (a + k * b) + (y - x * k) * b == x * a + y * b by {
      assert x * (a + k * b) == x * a + x * (k * b);
      assert (y - x * k) * b == y * b - (x * k) * b;
      assert x * (k * b) == (x * k) * b;
    }
    CombinationIsCoprime(a + k * b, b, x, y - x * k);
  }

  /** Dividing both numbers by their gcd leaves coprime numbers. */
  lemma CoprimeQuotients(a: int, b: int, j: int, k: int)
    requires a == j * Gcd(a, b) && b == k * Gcd(a, b) && (a != 0 || b != 0)
    ensures Coprime(j, k)
  {
    var x, y := Bezout(a, b);
    var g := Gcd(a, b);
    var _, _ := GcdDivides(a, b);
    assert x * (j * g) == (x * j) * g && y * (k * g) == (y * k) * g;
    assert (x * j + y * k) * g == (x * j) * g + (y * k) * g;
    var m := x * j + y * k;
    assert m * g == g;
    assert (m - 1) * g == 0;
    assert m == 1;
    CombinationIsCoprime(j, k, x, y);
  }

  /** Gauss: what divides a product and is coprime to one factor divides the other. */
  lemma CoprimeDividesOther(d: int, a: int, b: int)
    requires Coprime(d, a) && Divides(d, a * b)
    ensures Divides(d, b)
  {
    var x, y := Bezout(d, a);
    var k :| Multiple(k, d, a * b);
    CoprimeMultiple(x, d, y, a, b, k);
    assert Multiple(x * b + y * k, d, b);
  }

  lemma CoprimeMultiple(x: int, d: int, y: int, a: int, b: int, k: int)
    requires x * d + y * a == 1 && a * b == k * d
    ensures b == (x * b + y * k) * d
  {
    var p, q := x * d, y * a;
    assert b == (p + q) * b;
    Distribute(p, q, b);
    Associate(x, d, b);
    Associate(y, a, b);
    CombineMultiples(x, b, y, k, d);
  }

  lemma GcdNegate(a: int, b: int)
    ensures Gcd(-a, b) == Gcd(a, b) == Gcd(a, -b)
  {}
}
