/** What the series is, term by term: central binomial coefficients, with no reference to how a unit computes it. */
module SeriesValue {
  import opened SeriesModel

  /** Binomial coefficients by Pascal's rule. */
  function Choose(n: nat, k: nat): nat {
    if k == 0 then 1 else if n == 0 then 0 else Choose(n - 1, k - 1) + Choose(n - 1, k)
  }

  /** k * C(n, k) = n * C(n-1, k-1). */
  lemma {:induction false} Absorb(n: nat, k: nat)
    requires 1 <= n && 1 <= k
    ensures k * Choose(n, k) == n * Choose(n - 1, k - 1)
  {
    if n == 1 {
      NoneLeft(k);
    } else if k == 1 {
      Absorb(n - 1, 1);
      assert Choose(n - 1, 0) == 1 && Choose(n - 2, 0) == 1;
    } else {
      Absorb(n - 1, k - 1);
      Absorb(n - 1, k);
      var a, b, c, d := Choose(n - 1, k - 1), Choose(n - 1, k), Choose(n - 2, k - 2), Choose(n - 2, k - 1);
      assert Choose(n, k) == a + b && a == c + d;
      hide Choose;
      AbsorbStep(n, k, a, b, c, d);
    }
  }

  lemma NoneLeft(k: nat)
    requires 1 <= k
    ensures k * Choose(1, k) == Choose(0, k - 1)
  {
    assert Choose(1, k) == Choose(0, k - 1) + Choose(0, k);
  }

  lemma AbsorbStep(n: nat, k: nat, a: nat, b: nat, c: nat, d: nat)
    requires n >= 1 && k >= 1 && a == c + d && (k - 1) * a == (n - 1) * c && k * b == (n - 1) * d
    ensures k * (a + b) == n * a
  {
    assert k * (a + b) == (k - 1) * a + a + k * b;
    assert (n - 1) * c + (n - 1) * d == (n - 1) * (c + d);
    assert n * a == (n - 1) * a + a;
  }

  /** (n-k) * C(n, k) = n * C(n-1, k). */
  lemma AbsorbUpper(n: nat, k: nat)
    requires 1 <= k <= n
    ensures (n - k) * Choose(n, k) == n * Choose(n - 1, k)
  {
    Absorb(n, k);
    var a, b := Choose(n - 1, k - 1), Choose(n - 1, k);
    assert Choose(n, k) == a + b;
    hide Choose;
    assert (n - k) * (a + b) == n * (a + b) - k * (a + b);
    assert n * (a + b) == n * a + n * b;
  }

  /** The central coefficient C(2n, n). */
  function Central(n: nat): nat { Choose(2 * n, n) }

  /** j * C(2j, j) = 2 * (2j-1) * C(2j-2, j-1). */
  lemma CentralStep(j: nat)
    requires 1 <= j
    ensures j * Central(j) == 2 * (2 * j - 1) * Central(j - 1)
  {
    Absorb(2 * j, j);
    if j == 1 {
      assert Choose(2, 1) == Choose(1, 0) + Choose(1, 1) == 2;
    } else {
      AbsorbUpper(2 * j - 1, j - 1);
      assert 2 * j - 1 - (j - 1) == j && 2 * j - 1 - 1 == 2 * (j - 1);
      var b := Choose(2 * j - 1, j - 1);
      assert j * Central(j) == (2 * j) * b;
      assert j * b == (2 * j - 1) * Central(j - 1);
      hide *;
      CentralProducts(j, Central(j), b, Central(j - 1));
    }
  }

  lemma CentralProducts(j: nat, a: nat, b: nat, c: nat)
    requires j * a == (2 * j) * b && j * b == (2 * j - 1) * c
    ensures j * a == 2 * (2 * j - 1) * c
  {
    assert (2 * j) * b == 2 * (j * b);
    assert 2 * ((2 * j - 1) * c) == 2 * (2 * j - 1) * c;
  }

  function Pow4(n: nat): (p: nat)
    ensures p >= 1
  {
    if n == 0 then 1 else 4 * Pow4(n - 1)
  }

  function Weight(n: nat): (w: nat)
    ensures w >= 1
  {
    Pow4(n) * (2 * n + 1)
  }

  /**
   * The value of the term after `n` units: C(2n, n) / (4^n * (2n + 1)), the coefficients of the arcsine
   * series at 1.
   */
  lemma {:induction false} TermValue(n: nat)
    ensures At(n).term * Weight(n) as real == Central(n) as real
  {
    hide *;
    if n == 0 {
      AtStart();
      FirstWeight();
    } else {
      TermValue(n - 1);
      Step(n - 1);
      StepValue(n, At(n - 1).term, At(n).term);
    }
  }

  lemma FirstWeight()
    ensures Weight(0) == 1 && Central(0) == 1
  {
  }

  lemma StepValue(n: nat, s: real, t: real)
    requires 1 <= n && Follows(s, t, Twice(n)) && s * Weight(n - 1) as real == Central(n - 1) as real
    ensures t * Weight(n) as real == Central(n) as real
  {
    var p := Pow4(n - 1);
    CentralStep(n);
    FollowsNumbers(s, t, n);
    assert Weight(n) == 4 * p * (2 * n + 1) by { assert Pow4(n) == 4 * p; }
    assert Weight(n - 1) == p * (2 * n - 1);
    hide *;
    TermStep(n, s, t, p, Central(n - 1), Central(n));
  }

  lemma FollowsNumbers(s: real, t: real, n: nat)
    requires 1 <= n && Follows(s, t, Twice(n))
    ensures t * (2 * n) as real * (2 * n + 1) as real == s * (2 * n - 1) as real * (2 * n - 1) as real
  {
    var y := Twice(n);
    assert y == (2 * n) as real && y + 1.0 == (2 * n + 1) as real && y - 1.0 == (2 * n - 1) as real;
    assert t * Even(y) == t * y * (y + 1.0);
    assert s * Odd(y) == s * (y - 1.0) * (y - 1.0);
  }

  /** One term further, over whole numbers: u, v, w stand for 2n - 1, 2n + 1 and n. */
  lemma TermStep(n: nat, s: real, t: real, p: nat, a: nat, b: nat)
    requires 1 <= n && p >= 1
    requires s * (p * (2 * n - 1)) as real == a as real
    requires t * (2 * n) as real * (2 * n + 1) as real == s * (2 * n - 1) as real * (2 * n - 1) as real
    requires n * b == 2 * (2 * n - 1) * a
    ensures t * (4 * p * (2 * n + 1)) as real == b as real
  {
    var w, u, v, q := n as real, (2 * n - 1) as real, (2 * n + 1) as real, p as real;
    Products(n, p, a, b);
    RealStep(s, t, q, a as real, b as real, w, u, v);
  }

  lemma Products(n: nat, p: nat, a: nat, b: nat)
    requires 1 <= n && n * b == 2 * (2 * n - 1) * a
    ensures (p * (2 * n - 1)) as real == p as real * (2 * n - 1) as real
    ensures (4 * p * (2 * n + 1)) as real == 4.0 * p as real * (2 * n + 1) as real
    ensures n as real * b as real == 2.0 * (2 * n - 1) as real * a as real
    ensures (2 * n) as real == 2.0 * n as real
  {
    assert (n * b) as real == n as real * b as real;
    assert (2 * (2 * n - 1) * a) as real == 2.0 * (2 * n - 1) as real * a as real;
  }

  lemma RealStep(s: real, t: real, q: real, a: real, b: real, w: real, u: real, v: real)
    requires w >= 1.0 && s * (q * u) == a && t * (2.0 * w) * v == s * u * u && w * b == 2.0 * u * a
    ensures t * (4.0 * q * v) == b
  {
    assert w * (t * (4.0 * q * v)) == 2.0 * q * (t * (2.0 * w) * v);
    assert 2.0 * q * (s * u * u) == 2.0 * u * (s * (q * u));
    assert w * (t * (4.0 * q * v) - b) == 0.0;
  }

  /** The sum of the first n + 1 of these values. */
  function Partial(n: nat): real {
    if n == 0 then 1.0 else Partial(n - 1) + Central(n) as real / Weight(n) as real
  }

  /** The sum a task reports after `n` units is twice the sum of the first n + 1 terms. */
  lemma {:induction false} SumValue(n: nat)
    ensures At(n).sum == 2.0 * Partial(n)
  {
    hide *;
    if n == 0 {
      FirstSum();
    } else {
      SumValue(n - 1);
      Step(n - 1);
      TermValue(n);
      Divided(At(n).term, Weight(n) as real, Central(n) as real);
      PartialStep(n);
    }
  }

  lemma FirstSum()
    ensures At(0).sum == 2.0 && Partial(0) == 1.0
  {
  }

  lemma PartialStep(n: nat)
    requires n >= 1
    ensures Partial(n) == Partial(n - 1) + Central(n) as real / Weight(n) as real
  {
    hide Central;
    hide Weight;
  }

  lemma Divided(t: real, d: real, c: real)
    requires d > 0.0 && t * d == c
    ensures t == c / d
  {
    var x := c / d;
    assert x * d == c;
    assert (t - x) * d == 0.0;
  }

  /** The first three units by their numbers. */
  lemma FirstUnits()
    ensures At(0).term == 1.0 && At(0).sum == 2.0
    ensures At(1).term == 1.0 / 6.0 && At(1).sum == 7.0 / 3.0
    ensures At(2).term == 3.0 / 40.0 && At(2).sum == 149.0 / 60.0
  {
    FirstRatios();
    assert At(0) == START;
    assert At(1) == Advance(At(0));
    assert At(2) == Advance(At(1));
    hide Ratio;
    hide Twice;
  }

  lemma FirstRatios()
    ensures Ratio(Twice(1)) == 1.0 / 6.0 && Ratio(Twice(2)) == 9.0 / 20.0
  {
    assert Twice(1) == 2.0 && Twice(2) == 4.0;
    assert Odd(2.0) == 1.0 && Even(2.0) == 6.0 && Odd(4.0) == 9.0 && Even(4.0) == 20.0;
  }

  /** From below: once some units are run, the sum never falls under what they gave. */
  lemma SumFromBelow(n: nat)
    ensures n >= 1 ==> 7.0 / 3.0 <= At(n).sum
    ensures n >= 2 ==> 149.0 / 60.0 <= At(n).sum
  {
    FirstUnits();
    hide *;
    if n >= 1 { TailBounds(1, n); }
    if n >= 2 { TailBounds(2, n); }
  }
}
