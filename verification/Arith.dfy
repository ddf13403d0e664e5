/** Residues and greatest common divisors. */
module Arith {

  lemma MultipleSize(k: int, b: int)
    requires b > 0
    ensures k >= 1 ==> k * b >= b
    ensures k <= -1 ==> k * b <= -b
  {
  }

  lemma DivModUnique(a: int, b: int, q: int, r: int)
    requires b > 0 && 0 <= r < b && a == q * b + r
    ensures a / b == q && a % b == r
  {
    var q', r' := a / b, a % b;
    assert a == q' * b + r';
    assert (q - q') * b == r' - r;
    MultipleSize(q - q', b);
  }

  lemma ModPlusMultiple(a: int, b: int, k: int)
    requires b > 0
    ensures (a + k * b) % b == a % b
  {
    var q, r := a / b, a % b;
    assert a + k * b == (q + k) * b + r;
    DivModUnique(a + k * b, b, q + k, r);
  }

  lemma MultipleMod(k: int, b: int)
    requires b > 0
    ensures (k * b) % b == 0
  {
    DivModUnique(k * b, b, k, 0);
  }

  lemma ExactDivision(a: int, b: int)
    requires b > 0 && a % b == 0
    ensures a == a / b * b
  {
  }

  lemma DivisorIsSmaller(b: int, d: int)
    requires b > 0 && d > 0 && b % d == 0
    ensures d <= b && b / d >= 1
  {
    ExactDivision(b, d);
    MultipleSize(-(b / d), d);
    MultipleSize(b / d, d);
  }

  /** Reducing modulo b keeps the residue modulo a divisor of b. */
  lemma ModOfMod(a: int, b: int, d: int)
    requires b > 0 && d > 0 && b % d == 0
    ensures a % b % d == a % d
  {
    var q := a / b;
    ExactDivision(b, d);
    var e := b / d;
    assert q * (e * d) == (q * e) * d;
    assert a == a % b + (q * e) * d;
    ModPlusMultiple(a % b, d, q * e);
  }

  function Gcd(a: nat, b: nat): (d: nat)
    requires a > 0 || b > 0
    ensures d > 0
    decreases b
  {
    if b == 0 then a else Gcd(b, a % b)
  }

  lemma {:induction false} GcdDivides(a: nat, b: nat)
    requires a > 0 || b > 0
    ensures a % Gcd(a, b) == 0 && b % Gcd(a, b) == 0
    decreases b
  {
    var d := Gcd(a, b);
    if b == 0 {
      MultipleMod(1, a);
      MultipleMod(0, a);
    } else {
      GcdDivides(b, a % b);
      ModOfMod(a, b, d);
    }
  }

  lemma BezoutStep(a: int, b: int, q: int, r: int, x: int, y: int)
    requires a == q * b + r
    ensures y * a + (x - q * y) * b == x * b + y * r
  {
    assert y * a == y * (q * b) + y * r;
    assert y * (q * b) == (q * y) * b;
    assert (x - q * y) * b == x * b - (q * y) * b;
  }

  lemma {:induction false} Bezout(a: nat, b: nat) returns (x: int, y: int)
    requires a > 0 || b > 0
    ensures x * a + y * b == Gcd(a, b)
    decreases b
  {
    if b == 0 {
      x, y := 1, 0;
    } else {
      var x', y' := Bezout(b, a % b);
      x, y := y', x' - a / b * y';
      BezoutStep(a, b, a / b, a % b, x', y');
    }
  }

  lemma SumOfMultiples(x: int, u: int, y: int, v: int, c: int)
    requires c > 0
    ensures (x * (u * c) + y * (v * c)) % c == 0
  {
    assert x * (u * c) == (x * u) * c;
    assert y * (v * c) == (y * v) * c;
    assert (x * u) * c + (y * v) * c == (x * u + y * v) * c;
    MultipleMod(x * u + y * v, c);
  }

  /** Every common divisor divides the gcd, so the gcd is the greatest of them. */
  lemma GcdIsGreatest(a: nat, b: nat, c: nat)
    requires (a > 0 || b > 0) && c > 0 && a % c == 0 && b % c == 0
    ensures Gcd(a, b) % c == 0 && c <= Gcd(a, b)
  {
    var d := Gcd(a, b);
    var x, y := Bezout(a, b);
    ExactDivision(a, c);
    ExactDivision(b, c);
    SumOfMultiples(x, a / c, y, b / c, c);
    DivisorIsSmaller(d, c);
  }

  /** Residues that g-steps from p can reach modulo b stay at most b - d + p % d, where d divides g and b. */
  lemma ResidueCeiling(p: int, g: int, b: int, d: int, i: int)
    requires b > 0 && d > 0 && g % d == 0 && b % d == 0
    ensures (p + i * g) % b <= b - d + p % d
  {
    var r := (p + i * g) % b;
    ModOfMod(p + i * g, b, d);
    ExactDivision(g, d);
    assert i * (g / d * d) == (i * (g / d)) * d;
    ModPlusMultiple(p, d, i * (g / d));
    assert r % d == p % d;
    ExactDivision(b, d);
    var q, e := r / d, b / d;
    assert r == q * d + p % d;
    MultipleSize(q - e + 1, d);
    assert (q - e + 1) * d == q * d - e * d + d;
  }

  /** Some number of g-steps moves by t * gcd(g, b), up to turns of b. */
  lemma ReachMultiple(g: nat, b: nat, t: int) returns (n: int, k: int)
    requires g > 0 && b > 0
    ensures n * g == t * Gcd(g, b) + k * b
  {
    var d := Gcd(g, b);
    var x, y := Bezout(g, b);
    n, k := x * t, -(y * t);
    assert x * g == d - y * b;
    assert n * g == t * (x * g) == t * (d - y * b);
    assert t * (d - y * b) == t * d - (y * t) * b;
  }

  /** b / gcd(g, b) steps of g make whole turns of b. */
  lemma WholeTurns(g: nat, b: nat, w: int) returns (k: int)
    requires g > 0 && b > 0
    ensures w * (b / Gcd(g, b)) * g == k * b
  {
    var d := Gcd(g, b);
    GcdDivides(g, b);
    ExactDivision(g, d);
    ExactDivision(b, d);
    var e, h := b / d, g / d;
    k := w * h;
    assert e * (h * d) == h * (e * d);
    assert w * e * g == w * (e * g) == w * (h * b) == k * b;
  }

  lemma LandOnCeiling(p: int, g: int, b: int, d: int, e: int, q: int, r: int, n: int, k: int, turns: int, k': int)
    requires e * d == b && p == q * d + r
    requires n * g == (e - 1 - q) * d + k * b && turns * g == k' * b
    ensures p + (n - turns) * g == (b - d + r) + (k - k') * b
  {
    assert (n - turns) * g == n * g - turns * g;
    assert (e - 1 - q) * d == e * d - d - q * d;
    assert (k - k') * b == k * b - k' * b;
  }

  /**
   * Steps of g from p reach the residue b - d + p % d, the highest one of p's class, within
   * any b / d consecutive steps, where d is the gcd of g and b.
   */
  lemma ReachCeiling(p: int, g: nat, b: nat, start: nat) returns (i: nat)
    requires g > 0 && b > 0
    ensures var d := Gcd(g, b);
            && start <= i < start + b / d
            && (p + i * g) % b == b - d + p % d
  {
    var d := Gcd(g, b);
    GcdDivides(g, b);
    ExactDivision(b, d);
    var e, q := b / d, p / d;
    DivisorIsSmaller(b, d);
    var n, k := ReachMultiple(g, b, e - 1 - q);
    var w := (n - start) / e;
    var k' := WholeTurns(g, b, w);
    i := start + (n - start) % e;
    LandOnCeiling(p, g, b, d, e, q, p % d, n, k, w * e, k');
    assert n - start == w * e + (n - start) % e;
    assert i == n - w * e;
    var r := b - d + p % d;
    ModPlusMultiple(r, b, k - k');
    DivModUnique(r, b, 0, r);
  }
}
