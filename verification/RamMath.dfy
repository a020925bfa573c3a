/** Integer arithmetic behind the RAM market's conversions. With weight w the contract raises to the
    powers w/1000 and 1000/w; here the exponent is n = 1000/w, so "the n-th root of a ratio, truncated"
    is the largest integer whose n-th power still fits. */
module RamMath {

  function Pow(b: nat, n: nat): nat {
    if n == 0 then 1 else b * Pow(b, n - 1)
  }

  // ---------------------------------------------------------------- products

  lemma MulLe(a: int, b: int, p: int)
    requires a <= b && p >= 0
    ensures a * p <= b * p
  {
  }

  lemma MulCancelLe(a: int, b: int, p: int)
    requires a * p <= b * p && p > 0
    ensures a <= b
  {
    if a > b {
      MulLe(b + 1, a, p);
    }
  }

  lemma {:induction false} PowPositive(b: nat, n: nat)
    requires b > 0
    ensures Pow(b, n) > 0
  {
    if n > 0 { PowPositive(b, n - 1); }
  }

  lemma {:induction false} PowMonotone(a: nat, b: nat, n: nat)
    requires a <= b
    ensures Pow(a, n) <= Pow(b, n)
  {
    if n > 0 {
      PowMonotone(a, b, n - 1);
      MulLe(a, b, Pow(a, n - 1));
      MulLe(Pow(a, n - 1), Pow(b, n - 1), b);
    }
  }

  // ---------------------------------------------------------------- the truncated root

  /** (1 + e/r)^n <= 1 + t/c, multiplied out. */
  predicate Fits(n: nat, r: nat, c: nat, t: nat, e: nat) {
    Pow(r + e, n) * c <= Pow(r, n) * (c + t)
  }

  function LargestFit(n: nat, r: nat, c: nat, t: nat, k: nat): (e: nat)
    ensures e <= k && (e > 0 ==> Fits(n, r, c, t, e))
    ensures forall j :: e < j <= k ==> !Fits(n, r, c, t, j)
  {
    if k == 0 || Fits(n, r, c, t, k) then k else LargestFit(n, r, c, t, k - 1)
  }

  /** The whole units issued for a deposit of `t` into a connector that then holds `c`, at supply `r`:
      r * ((1 + t/c)^(1/n) - 1), truncated. */
  function Issued(n: nat, r: nat, c: nat, t: nat): nat
    requires c > 0
  {
    LargestFit(n, r, c, t, (r * t) / c)
  }

  /** Beyond the linear bound r * t / c nothing fits, because a power grows at least linearly. */
  lemma NothingFitsBeyond(n: nat, r: nat, c: nat, t: nat, e: nat)
    requires n > 0 && r > 0 && c > 0 && e > (r * t) / c
    ensures !Fits(n, r, c, t, e)
  {
    PowPositive(r, n - 1);
    PowMonotone(r, r + e, n - 1);
    assert e * c > r * t by {
      var d := (r * t) / c;
      MulLe(d + 1, e, c);
    }
    LinearGrowth(Pow(r, n - 1), Pow(r + e, n - 1), r, c, t, e);
  }

  lemma LinearGrowth(p: int, q: int, r: int, c: int, t: int, e: int)
    requires 0 < p <= q && r > 0 && c > 0 && e > 0 && e * c > r * t
    ensures (r * p) * (c + t) < ((r + e) * q) * c
  {
    var u, v := r * c + r * t, r * c + e * c;
    assert (r * p) * (c + t) == u * p;
    assert ((r + e) * q) * c == v * q;
    MulLe(u + 1, v, p);
    MulLe(p, q, v);
  }

  /** `Issued` is exactly the truncated root: it fits, and nothing larger does. */
  lemma IssuedIsLargest(n: nat, r: nat, c: nat, t: nat, e: nat)
    requires n > 0 && r > 0 && c > 0
    ensures Fits(n, r, c, t, Issued(n, r, c, t))
    ensures Fits(n, r, c, t, e) <==> e <= Issued(n, r, c, t)
  {
    var i := Issued(n, r, c, t);
    MulLe(c, c + t, Pow(r, n));
    assert Fits(n, r, c, t, 0);
    if e > i {
      if e > (r * t) / c { NothingFitsBeyond(n, r, c, t, e); }
    } else {
      PowMonotone(r + e, r + i, n);
      MulLe(Pow(r + e, n), Pow(r + i, n), c);
    }
  }

  // ---------------------------------------------------------------- paying out

  /** What `e` units redeem from a connector holding `c`, when `r` units remain:
      c * ((1 + e/r)^n - 1), truncated. */
  function Redeemed(n: nat, r: nat, c: nat, e: nat): int
    requires r > 0
  {
    PowPositive(r, n);
    (c * (Pow(r + e, n) - Pow(r, n))) / Pow(r, n)
  }

  /** `k` units on top of the `c` of a connector are no more than c * (1 + e/r)^n, multiplied out. */
  predicate Covers(n: nat, r: nat, c: nat, e: nat, k: int) {
    (c + k) * Pow(r, n) <= c * Pow(r + e, n)
  }

  /** `Redeemed` is exactly the truncated power: that many are covered, and no more. */
  lemma RedeemedIsLargest(n: nat, r: nat, c: nat, e: nat, k: int)
    requires r > 0
    ensures k <= Redeemed(n, r, c, e) <==> Covers(n, r, c, e, k)
  {
    hide Pow;
    PowPositive(r, n);
    PowMonotone(r, r + e, n);
    LargestShare(c, Pow(r, n), Pow(r + e, n), k);
  }

  lemma LargestShare(c: nat, p: nat, q: nat, k: int)
    requires 0 < p <= q
    ensures k <= (c * (q - p)) / p <==> (c + k) * p <= c * q
  {
    LargestQuotient(c * (q - p), p, k);
    assert c * (q - p) == c * q - c * p && (c + k) * p == c * p + k * p;
  }

  lemma LargestQuotient(a: int, p: int, k: int)
    requires p > 0
    ensures k <= a / p <==> k * p <= a
  {
    var d := a / p;
    assert d * p <= a < (d + 1) * p;
    if k <= d { MulLe(k, d, p); } else { MulLe(d + 1, k, p); }
  }

  /** What a trade pays, by its two roundings alone: `t` units deposited into a connector that held `x` issue the
      largest number `e` of units that fits, and those redeem the largest number covered from one that holds `y`. */
  ghost predicate Pays(n: nat, r: nat, x: nat, y: nat, t: nat, out: int) {
    var c := x + t;
    exists e: nat :: IsIssued(n, r, c, t, e) && IsRedeemed(n, r, y, e, out)
  }

  ghost predicate IsIssued(n: nat, r: nat, c: nat, t: nat, e: nat) {
    forall j: nat :: j <= e <==> Fits(n, r, c, t, j)
  }

  ghost predicate IsRedeemed(n: nat, r: nat, c: nat, e: nat, out: int) {
    forall k: int :: k <= out <==> Covers(n, r, c, e, k)
  }

  /** That determines the payment. */
  lemma PaysOnce(n: nat, r: nat, x: nat, y: nat, t: nat, out: int, out': int)
    requires Pays(n, r, x, y, t, out) && Pays(n, r, x, y, t, out')
    ensures out == out'
  {
    hide Fits, Covers;
    var e: nat :| IsIssued(n, r, x + t, t, e) && IsRedeemed(n, r, y, e, out);
    var e': nat :| IsIssued(n, r, x + t, t, e') && IsRedeemed(n, r, y, e', out');
    assert Fits(n, r, x + t, t, e) && Fits(n, r, x + t, t, e');
    assert Covers(n, r, y, e, out) && Covers(n, r, y, e', out');
  }

  lemma RelayPays(n: nat, r: nat, x: nat, y: nat, t: nat)
    requires n > 0 && r > 0 && t > 0
    ensures Pays(n, r, x, y, t, Redeemed(n, r, y, Issued(n, r, x + t, t)))
  {
    hide Fits, Covers, Issued, Redeemed, Pow;
    var c := x + t;
    var e := Issued(n, r, c, t);
    var out := Redeemed(n, r, y, e);
    forall j: nat ensures j <= e <==> Fits(n, r, c, t, j) { IssuedIsLargest(n, r, c, t, j); }
    forall k: int ensures k <= out <==> Covers(n, r, y, e, k) { RedeemedIsLargest(n, r, y, e, k); }
    assert IsIssued(n, r, c, t, e) && IsRedeemed(n, r, y, e, out);
  }

  /** The two legs together: depositing t against x and redeeming from y is bounded by the
      constant-product price, whatever the exponent. */
  lemma RelayBound(n: nat, r: nat, x: nat, y: nat, t: nat)
    requires n > 0 && r > 0 && t > 0
    ensures var out := Redeemed(n, r, y, Issued(n, r, x + t, t));
            0 <= out && out * (x + t) <= y * t
  {
    var e := Issued(n, r, x + t, t);
    var p, q := Pow(r, n), Pow(r + e, n);
    PowPositive(r, n);
    PowMonotone(r, r + e, n);
    IssuedIsLargest(n, r, x + t, t, e);
    RelayArithmetic(p, q, x, y, t, (y * (q - p)) / p);
  }

  lemma RelayArithmetic(p: int, q: int, x: int, y: int, t: int, out: int)
    requires p > 0 && q >= p && x >= 0 && y >= 0 && t > 0
    requires q * (x + t) <= p * (x + t + t)
    requires out == (y * (q - p)) / p
    ensures 0 <= out && out * (x + t) <= y * t
  {
    assert y * (q - p) >= 0;
    assert out * p <= y * (q - p);
    MulLe(out * p, y * (q - p), x + t);
    assert (q - p) * (x + t) <= t * p;
    MulLe((q - p) * (x + t), t * p, y);
    assert y * (q - p) * (x + t) == (q - p) * (x + t) * y;
    assert t * p * y == (y * t) * p;
    assert out * p * (x + t) == (out * (x + t)) * p;
    MulCancelLe(out * (x + t), y * t, p);
  }

  // ---------------------------------------------------------------- bounds from below

  /** (1 + e/r)^n * (1 - n e/r) <= 1, multiplied out. */
  lemma {:induction false} PowBelow(r: nat, e: nat, n: nat)
    ensures Pow(r + e, n) * (r - n * e) <= Pow(r, n) * r
  {
    if n > 0 {
      var q, p := Pow(r + e, n - 1), Pow(r, n - 1);
      assert Pow(r + e, n) == (r + e) * q && Pow(r, n) == r * p;
      hide Pow;
      PowBelow(r, e, n - 1);
      OneMore(n, e);
      StepBelow(r, e, q, p, (n - 1) * e);
    }
  }

  lemma OneMore(n: nat, e: nat)
    requires n > 0
    ensures n * e == (n - 1) * e + e && (n - 1) * e >= 0
  {
  }

  lemma StepBelow(r: nat, e: nat, q: nat, p: nat, d: nat)
    requires q * (r - d) <= p * r
    ensures ((r + e) * q) * (r - (d + e)) <= (r * p) * r
  {
    assert (r + e) * (r - (d + e)) <= r * (r - d) by {
      assert (r + e) * (r - (d + e)) == r * (r - d) - e * d - e * e;
      MulLe(0, d, e);
      MulLe(0, e, e);
    }
    MulLe((r + e) * (r - (d + e)), r * (r - d), q);
    MulLe(q * (r - d), p * r, r);
    Rotate(r + e, q, r - (d + e));
    Rotate(r, r - d, q);
    Rotate(r, p, r);
  }

  lemma Rotate(a: int, b: int, c: int)
    ensures (a * b) * c == (a * c) * b == (b * c) * a
  {
  }

  /** (1 + e/r)^n >= 1 + n e/r, multiplied out. */
  lemma {:induction false} PowAbove(r: nat, e: nat, n: nat)
    ensures Pow(r + e, n) * r >= Pow(r, n) * (r + n * e)
  {
    if n > 0 {
      var q, p := Pow(r + e, n - 1), Pow(r, n - 1);
      assert Pow(r + e, n) == (r + e) * q && Pow(r, n) == r * p;
      hide Pow;
      PowAbove(r, e, n - 1);
      OneMore(n, e);
      StepAbove(r, e, q, p, (n - 1) * e);
    }
  }

  lemma StepAbove(r: nat, e: nat, q: nat, p: nat, d: nat)
    requires q * r >= p * (r + d)
    ensures ((r + e) * q) * r >= (r * p) * (r + (d + e))
  {
    assert r * (r + (d + e)) <= (r + d) * (r + e) by {
      assert (r + d) * (r + e) == r * (r + (d + e)) + d * e;
      MulLe(0, d, e);
    }
    MulLe(r * (r + (d + e)), (r + d) * (r + e), p);
    MulLe(p * (r + d), q * r, r + e);
    Rotate(r + e, q, r);
    Rotate(p, r + d, r + e);
    Rotate(r, p, r + (d + e));
  }

  /** As much as the first order of the root always fits. */
  lemma FitsIfSmall(n: nat, r: nat, c: nat, t: nat, e: nat)
    requires r > 0 && n * e * (c + t) <= r * t
    ensures Fits(n, r, c, t, e)
  {
    hide Pow;
    PowBelow(r, e, n);
    var p, q := Pow(r, n), Pow(r + e, n);
    assert (r - n * e) * (c + t) >= r * c;
    MulLe(r * c, (r - n * e) * (c + t), q);
    MulLe(q * (r - n * e), p * r, c + t);
    assert (r * c) * q == (q * c) * r && ((r - n * e) * (c + t)) * q == (q * (r - n * e)) * (c + t);
    assert (p * r) * (c + t) == (p * (c + t)) * r;
    MulCancelLe(q * c, p * (c + t), r);
  }

  /** A redemption pays at least the first order of the power, truncated. */
  lemma RedeemedAtLeast(n: nat, r: nat, c: nat, e: nat)
    requires r > 0
    ensures (Redeemed(n, r, c, e) + 1) * r >= c * (n * e)
  {
    hide Pow;
    PowPositive(r, n);
    PowAbove(r, e, n);
    var p, q := Pow(r, n), Pow(r + e, n);
    var out := (c * (q - p)) / p;
    assert (out + 1) * p >= c * (q - p);
    MulLe(c * (q - p), (out + 1) * p, r);
    assert (q - p) * r >= p * (n * e) by { assert p * (r + n * e) == p * r + p * (n * e); }
    MulLe(p * (n * e), (q - p) * r, c);
    assert (c * (q - p)) * r == ((q - p) * r) * c && (p * (n * e)) * c == (c * (n * e)) * p;
    assert ((out + 1) * p) * r == ((out + 1) * r) * p;
    MulCancelLe(c * (n * e), (out + 1) * r, p);
  }

  /** The two legs together pay no less than the price y t / (x + 2t), but for one unit of each leg. */
  lemma RelayFloor(n: nat, r: nat, x: nat, y: nat, t: nat)
    requires n > 0 && r > 0 && t > 0
    ensures var out := Redeemed(n, r, y, Issued(n, r, x + t, t));
            y * t * r <= ((out + 1) * r + y * n) * (x + 2 * t)
  {
    hide Pow, Redeemed, Issued, Fits;
    var e := Issued(n, r, x + t, t);
    var out := Redeemed(n, r, y, e);
    IssuedIsLargest(n, r, x + t, t, e + 1);
    if n * (e + 1) * (x + t + t) <= r * t { FitsIfSmall(n, r, x + t, t, e + 1); }
    RedeemedAtLeast(n, r, y, e);
    FloorArithmetic(n, r, x + 2 * t, y, t, e, out);
  }

  lemma FloorArithmetic(n: nat, r: nat, a: nat, y: nat, t: nat, e: nat, out: int)
    requires n * (e + 1) * a >= r * t && (out + 1) * r >= y * (n * e)
    ensures y * t * r <= ((out + 1) * r + y * n) * a
  {
    MulLe(r * t, n * (e + 1) * a, y);
    assert y * (n * e) + y * n == y * (n * (e + 1));
    MulLe(y * (n * (e + 1)), (out + 1) * r + y * n, a);
    assert (y * (n * (e + 1))) * a == (n * (e + 1) * a) * y && y * t * r == (r * t) * y;
  }

  // ---------------------------------------------------------------- no exact doubling

  lemma {:induction false} PowEven(a: nat, n: nat)
    requires Pow(a, n) % 2 == 0
    ensures a % 2 == 0
  {
    if n > 0 && a % 2 == 1 {
      if Pow(a, n - 1) % 2 == 0 {
        PowEven(a, n - 1);
      } else {
        OddTimesOdd(a, Pow(a, n - 1));
      }
    }
  }

  lemma OddTimesOdd(a: nat, b: nat)
    requires a % 2 == 1 && b % 2 == 1
    ensures (a * b) % 2 == 1
  {
    var i, j := a / 2, b / 2;
    assert a * b == 2 * (2 * (i * j) + i + j) + 1;
  }

  lemma {:induction false} PowDouble(a: nat, n: nat)
    ensures Pow(2 * a, n) == Pow(2, n) * Pow(a, n)
  {
    if n > 0 {
      PowDouble(a, n - 1);
      var p, q := Pow(2, n - 1), Pow(a, n - 1);
      assert Pow(2 * a, n) == (2 * a) * (p * q) && Pow(2, n) == 2 * p && Pow(a, n) == a * q;
      hide Pow;
      Exchange(a, p, q);
    }
  }

  lemma Exchange(a: int, p: int, q: int)
    ensures (2 * a) * (p * q) == (2 * p) * (a * q)
  {
    assert (2 * a) * (p * q) == 2 * (a * (p * q)) && (2 * p) * (a * q) == 2 * (p * (a * q));
    assert a * (p * q) == p * (a * q);
  }

  /** Doubling is never an exact n-th power ratio for n >= 2: the n-th root of two is irrational. */
  lemma {:induction false} NoExactDoubling(a: nat, b: nat, n: nat)
    requires n >= 2 && b > 0
    ensures Pow(a, n) != 2 * Pow(b, n)
    decreases b
  {
    if Pow(a, n) == 2 * Pow(b, n) {
      PowEven(a, n);
      var h := a / 2;
      PowDouble(h, n);
      PowPositive(2, n - 2);
      var z := Pow(2, n - 2);
      assert Pow(2, n) == 2 * Pow(2, n - 1) == 4 * z;
      HalfOfDouble(z, Pow(h, n), Pow(b, n));
      PowEven(b, n);
      var k := b / 2;
      PowDouble(k, n);
      CancelQuadruple(z, Pow(h, n), Pow(k, n), Pow(b, n));
      NoExactDoubling(h, k, n);
    }
  }

  lemma HalfOfDouble(z: nat, h: nat, b: nat)
    requires (4 * z) * h == 2 * b
    ensures b % 2 == 0
  {
    assert b == 2 * (z * h);
  }

  lemma CancelQuadruple(z: nat, h: nat, k: nat, b: nat)
    requires z > 0 && (4 * z) * h == 2 * b && b == (4 * z) * k
    ensures h == 2 * k
  {
    assert (4 * z) * (2 * k) == 2 * b;
    MulCancel(4 * z, h, 2 * k);
  }

  lemma MulCancel(p: nat, a: nat, b: nat)
    requires p * a == p * b && p > 0
    ensures a == b
  {
    MulCancelLe(a, b, p);
    MulCancelLe(b, a, p);
  }
}
