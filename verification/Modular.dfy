/** Arithmetic modulo a prime, as far as signatures need it. */
module Modular {

  function Times(n: int, k: int): int {
    n * k
  }

  /** a and b differ by a multiple of n. */
  ghost predicate Cong(n: nat, a: int, b: int) {
    exists k: int :: a - b == Times(n, k)
  }

  lemma CongBy(n: nat, a: int, b: int, k: int)
    requires a - b == n * k
    ensures Cong(n, a, b)
  {
    assert a - b == Times(n, k);
  }

  lemma CongRefl(n: nat, a: int)
    ensures Cong(n, a, a)
  {
    CongBy(n, a, a, 0);
  }

  lemma CongSym(n: nat, a: int, b: int)
    requires Cong(n, a, b)
    ensures Cong(n, b, a)
  {
    var k :| a - b == Times(n, k);
    CongBy(n, b, a, -k);
  }

  lemma CongTrans(n: nat, a: int, b: int, c: int)
    requires Cong(n, a, b) && Cong(n, b, c)
    ensures Cong(n, a, c)
  {
    var j :| a - b == Times(n, j);
    var k :| b - c == Times(n, k);
    assert n * j + n * k == n * (j + k);
    CongBy(n, a, c, j + k);
  }

  lemma CongAdd(n: nat, a: int, b: int, c: int, d: int)
    requires Cong(n, a, b) && Cong(n, c, d)
    ensures Cong(n, a + c, b + d)
  {
    var j :| a - b == Times(n, j);
    var k :| c - d == Times(n, k);
    assert n * j + n * k == n * (j + k);
    CongBy(n, a + c, b + d, j + k);
  }

  lemma CongTimes(n: nat, c: int, a: int, b: int)
    requires Cong(n, a, b)
    ensures Cong(n, c * a, c * b)
  {
    var k :| a - b == Times(n, k);
    calc {
      c * a - c * b;
      c * (a - b);
      c * (n * k);
      n * (c * k);
    }
    CongBy(n, c * a, c * b, c * k);
  }

  lemma CongMod(n: nat, a: int)
    requires n > 0
    ensures Cong(n, a % n, a)
  {
    assert a == n * (a / n) + a % n;
    assert n * -(a / n) == -(n * (a / n));
    CongBy(n, a % n, a, -(a / n));
  }

  lemma NonNegative(n: nat, t: nat)
    ensures n * t >= 0
  {
  }

  lemma NonPositive(n: nat, t: int)
    requires t <= 0
    ensures n * t <= 0
  {
    NonNegative(n, -t);
    assert n * -t == -(n * t);
  }

  lemma BigMultiple(n: nat, t: int)
    requires t != 0
    ensures n * t >= n || n * t <= 0 - n
  {
    if t > 0 {
      NonNegative(n, t - 1);
      assert n * t == n + n * (t - 1);
    } else {
      NonPositive(n, t + 1);
      assert n * t == n * (t + 1) - n;
    }
  }

  /** Two remainders that are congruent are equal. */
  lemma CongEqual(n: nat, a: int, b: int)
    requires Cong(n, a, b) && 0 <= a < n && 0 <= b < n
    ensures a == b
  {
    var k :| a - b == Times(n, k);
    if k != 0 {
      BigMultiple(n, k);
    }
  }

  lemma CongIffMod(n: nat, a: int, b: int)
    requires n > 0
    ensures Cong(n, a, b) <==> a % n == b % n
  {
    CongMod(n, a);
    CongMod(n, b);
    if Cong(n, a, b) {
      CongSym(n, b % n, b);
      CongTrans(n, a % n, a, b);
      CongTrans(n, a % n, b, b % n);
      CongEqual(n, a % n, b % n);
    }
    if a % n == b % n {
      CongSym(n, a % n, a);
      CongTrans(n, a, a % n, b);
    }
  }

  // ---------------------------------------------------------------- inverses

  predicate Prime(n: nat) {
    n > 1 && forall d :: 1 < d < n ==> n % d != 0
  }

  /** Coefficients x, y with gcd(a, b) == a * x + b * y. */
  function Bezout(a: nat, b: nat): (nat, int, int)
    decreases b
  {
    if b == 0 then (a, 1, 0)
    else
      var (g, x, y) := Bezout(b, a % b);
      (g, y, x - (a / b) * y)
  }

  lemma TakeOver(a: int, b: int, c: int)
    ensures (a - b) * c == a * c - b * c && c * (a - b) == c * a - c * b
  {
  }

  lemma Reassociate(a: int, b: int, c: int)
    ensures (a * b) * c == a * (b * c)
  {
  }

  lemma DivMod(a: nat, b: nat)
    requires b > 0
    ensures a == b * (a / b) + a % b && a % b < b
  {
  }

  lemma BezoutStep(a: int, b: int, q: int, m: int, x: int, y: int)
    requires a == b * q + m
    ensures b * x + m * y == a * y + b * (x - q * y)
  {
    TakeOver(a, b * q, y);
    Reassociate(b, q, y);
    TakeOver(x, q * y, b);
  }

  lemma {:induction false} BezoutSum(a: nat, b: nat)
    ensures a * Bezout(a, b).1 + b * Bezout(a, b).2 == Bezout(a, b).0
    decreases b
  {
    if b > 0 {
      DivMod(a, b);
      var rest := Bezout(b, a % b);
      BezoutSum(b, a % b);
      BezoutStep(a, b, a / b, a % b, rest.1, rest.2);
    }
  }

  lemma DividesSum(g: nat, a: int, b: int, q: int, m: int)
    requires a == b * q + m && Cong(g, b, 0) && Cong(g, m, 0)
    ensures Cong(g, a, 0)
  {
    CongTimes(g, q, b, 0);
    CongAdd(g, q * b, q * 0, m, 0);
  }

  lemma {:induction false} BezoutDivides(a: nat, b: nat)
    requires a + b > 0
    ensures Bezout(a, b).0 > 0 && Cong(Bezout(a, b).0, a, 0) && Cong(Bezout(a, b).0, b, 0)
    decreases b
  {
    if b == 0 {
      CongBy(a, a, 0, 1);
      CongBy(a, 0, 0, 0);
    } else {
      DivMod(a, b);
      BezoutDivides(b, a % b);
      DividesSum(Bezout(b, a % b).0, a, b, a / b, a % b);
    }
  }

  function Inv(n: nat, a: nat): nat
    requires n > 0
  {
    Bezout(a, n).1 % n
  }

  lemma InvTimes(n: nat, a: nat)
    requires Prime(n) && 0 < a < n
    ensures Cong(n, a * Inv(n, a), 1)
  {
    var (g, x, y) := Bezout(a, n);
    BezoutSum(a, n);
    BezoutDivides(a, n);
    var k :| a - 0 == Times(g, k);
    if k <= 0 {
      NonPositive(g, k);
    }
    BigMultiple(g, k);
    var m :| n - 0 == Times(g, m);
    MultipleMod(g, m);
    assert n % g == 0;
    assert g == 1;
    assert n * y == y * n;
    CongBy(n, a * x, 1, -y) by {
      assert n * -y == -(n * y);
    }
    CongMod(n, x);
    CongTimes(n, a, x % n, x);
    CongTrans(n, a * (x % n), a * x, 1);
  }

  lemma MultipleMod(g: nat, m: int)
    requires g > 0
    ensures (g * m) % g == 0
  {
    CongBy(g, g * m, 0, m);
    CongIffMod(g, g * m, 0);
  }

  lemma Cancel(n: nat, a: int, inverse: int, x: int)
    requires Cong(n, a * inverse, 1)
    ensures Cong(n, a * (inverse * x), x) && Cong(n, inverse * (a * x), x)
  {
    CongTimes(n, x, a * inverse, 1);
    assert x * (a * inverse) == a * (inverse * x) == inverse * (a * x) && x * 1 == x;
  }

  /** Dividing by an invertible number. */
  lemma Shift(n: nat, a: int, inverse: int, x: int, y: int)
    requires Cong(n, a * inverse, 1)
    ensures Cong(n, inverse * x, y) <==> Cong(n, x, a * y)
  {
    if Cong(n, inverse * x, y) {
      CongTimes(n, a, inverse * x, y);
      Cancel(n, a, inverse, x);
      CongSym(n, a * (inverse * x), x);
      CongTrans(n, x, a * (inverse * x), a * y);
    }
    if Cong(n, x, a * y) {
      CongTimes(n, inverse, x, a * y);
      Cancel(n, a, inverse, y);
      CongTrans(n, inverse * x, inverse * (a * y), y);
    }
  }
}
