/** The per-task series of src/task.c, over exact reals. */
module SeriesModel {

  /** `pi_state_t`: partial sum, last term, index of the last term. */
  datatype Series = Series(sum: real, term: real, j: nat)

  const START: Series := Series(2.0, 1.0, 0)

  // `task_do_one_working_unit` multiplies the term by Odd(y) / Even(y), where `y` is twice the new index.
  function Odd(y: real): real { (y - 1.0) * (y - 1.0) }
  function Even(y: real): real { y * (y + 1.0) }

  function Ratio(y: real): (q: real)
    requires y > 0.0
    ensures q * Even(y) == Odd(y)
  {
    assert Even(y) > 0.0;
    Odd(y) / Even(y)
  }

  /** Twice an index, as a real. */
  function Twice(n: nat): (y: real)
    ensures y == 2.0 * n as real && y >= 0.0
  {
    2.0 * n as real
  }

  /** One work unit. */
  function Advance(s: Series): Series {
    var term := s.term * Ratio(Twice(s.j + 1));
    Series(s.sum + 2.0 * term, term, s.j + 1)
  }

  /** The series after `n` units from its start. */
  function At(n: nat): Series {
    if n == 0 then START else Advance(At(n - 1))
  }

  lemma AtStart()
    ensures At(0).term == 1.0
  {
  }

  lemma {:induction false} AtIndex(n: nat)
    ensures At(n).j == n
  {
    if n > 0 { AtIndex(n - 1); }
  }

  // Products of reals are reasoned about in the small lemmas below. Everything else sees them only
  // through the names `Follows`, `Times`, `Square`, `Cube` and `Decay`.

  function Times(a: real, b: real): real { a * b }

  lemma PositiveTimes(a: real, b: real)
    requires a > 0.0 && b > 0.0
    ensures Times(a, b) > 0.0
  {
  }

  lemma PositiveProduct(t: real, b: real)
    requires t > 0.0 && b > 0.0
    ensures t * b > 0.0
  {
  }

  lemma PositiveFactor(t: real, b: real)
    requires b > 0.0 && t * b > 0.0
    ensures t > 0.0
  {
  }

  lemma Associate(t: real, q: real, d: real, a: real)
    requires q * d == a
    ensures (t * q) * d == t * a
  {
  }

  lemma OddBelowEven(y: real)
    requires y >= 2.0
    ensures 0.0 < Odd(y) < Even(y)
  {
    PositiveProduct(y - 1.0, y - 1.0);
    assert Even(y) == Odd(y) + (3.0 * y - 1.0);
  }

  /** `t` is the term after `s`, without the division. */
  predicate Follows(s: real, t: real, y: real) {
    t * Even(y) == s * Odd(y)
  }

  lemma FollowingTermSmaller(s: real, t: real, y: real)
    requires s > 0.0 && y >= 2.0 && Follows(s, t, y)
    ensures 0.0 < t < s
  {
    OddBelowEven(y);
    var a, b := Odd(y), Even(y);
    hide Odd;
    hide Even;
    PositiveProduct(s, a);
    PositiveFactor(t, b);
    PositiveProduct(s, b - a);
    assert (s - t) * b == s * (b - a);
    PositiveFactor(s - t, b);
  }

  lemma AdvanceFollows(s: Series)
    ensures Follows(s.term, Advance(s).term, Twice(s.j + 1))
    ensures Advance(s).sum == s.sum + 2.0 * Advance(s).term
  {
    hide Odd;
    hide Even;
    var y := Twice(s.j + 1);
    var q := Ratio(y);
    hide Ratio;
    Associate(s.term, q, Even(y), Odd(y));
  }

  /** What one unit does. */
  lemma Step(n: nat)
    ensures Follows(At(n).term, At(n + 1).term, Twice(n + 1))
    ensures At(n + 1).sum == At(n).sum + 2.0 * At(n + 1).term
  {
    hide Advance;
    hide Follows;
    AtIndex(n);
    AdvanceFollows(At(n));
  }

  /** After any number of units the term is in (0, 1], and every unit makes it smaller. */
  lemma {:induction false} TermBounds(n: nat)
    ensures 0.0 < At(n).term <= 1.0
    ensures n > 0 ==> At(n).term < At(n - 1).term
  {
    hide *;
    AtStart();
    if n > 0 {
      TermBounds(n - 1);
      Step(n - 1);
      FollowingTermSmaller(At(n - 1).term, At(n).term, Twice(n));
    }
  }

  // The tail of the series is dominated by a telescoping majorant.

  /** `2 * (2n + 3/5)` times the term: an upper bound for everything the sum still gains. */
  function Majorant(n: nat): real {
    Times(2.0 * Twice(n) + 1.2, At(n).term)
  }

  lemma MajorantPolynomial(y: real)
    requires y >= 2.0
    ensures (y + 1.6) * Odd(y) <= (y - 1.4) * Even(y)
  {
    assert (y - 1.4) * Even(y) - (y + 1.6) * Odd(y) == 0.8 * (y - 2.0);
  }

  /** Cancels `e` from `p * s * o <= q * s * e` when `t * e == s * o`. */
  lemma CancelEven(s: real, o: real, t: real, e: real, p: real, q: real)
    requires e > 0.0 && s >= 0.0 && t * e == s * o && p * o <= q * e
    ensures p * t <= q * s
  {
    assert p * t * e == p * (s * o);
    assert s * (q * e - p * o) >= 0.0;
    assert (q * s - p * t) * e >= 0.0;
    if q * s - p * t < 0.0 {
      PositiveProduct(p * t - q * s, e);
    }
  }

  lemma TermWeightDrops(s: real, t: real, y: real)
    requires s > 0.0 && y >= 2.0 && Follows(s, t, y)
    ensures 2.0 * t + Times(2.0 * y + 1.2, t) <= Times(2.0 * (y - 2.0) + 1.2, s)
  {
    OddBelowEven(y);
    MajorantPolynomial(y);
    var o, e := Odd(y), Even(y);
    hide Odd;
    hide Even;
    CancelEven(s, o, t, e, y + 1.6, y - 1.4);
  }

  lemma MajorantBounds(n: nat)
    ensures 0.0 < Majorant(n) <= Times(2.0 * (Twice(n) + 1.0), At(n).term)
  {
    TermBounds(n);
    var t := At(n).term;
    hide At;
    PositiveProduct(2.0 * Twice(n) + 1.2, t);
    PositiveProduct(0.8, t);
  }

  /** One unit moves at least as much out of the majorant as it adds to the sum. */
  lemma MajorantDrops(n: nat)
    ensures 2.0 * At(n + 1).term + Majorant(n + 1) <= Majorant(n)
  {
    hide At;
    hide Follows;
    hide Times;
    Step(n);
    TermBounds(n);
    TermWeightDrops(At(n).term, At(n + 1).term, Twice(n + 1));
    assert 2.0 * (Twice(n + 1) - 2.0) + 1.2 == 2.0 * Twice(n) + 1.2;
  }

  /** Units only ever add to the sum, and never more than the majorant allowed beforehand. */
  lemma {:induction false} TailBounds(n: nat, m: nat)
    requires n <= m
    ensures At(n).sum <= At(m).sum && (n < m ==> At(n).sum < At(m).sum)
    ensures At(m).sum + Majorant(m) <= At(n).sum + Majorant(n)
  {
    hide *;
    if n < m {
      TailBounds(n, m - 1);
      Step(m - 1);
      TermBounds(m);
      MajorantDrops(m - 1);
    }
  }

  /** The sum a task reports stays below 16/5 however many units it runs. */
  lemma SumBound(n: nat)
    ensures 2.0 <= At(n).sum < 3.2
  {
    assert Majorant(0) == 1.2 && At(0).sum == 2.0;
    hide *;
    TailBounds(0, n);
    MajorantBounds(n);
  }

  // How fast the term falls: (2n + 1)^3 * term^2 <= 1.

  function Square(x: real): real { Times(x, x) }
  function Cube(x: real): real { x * x * x }
  function Decay(x: real, t: real): real { Cube(x) * Square(t) }

  lemma SquareCross(s: real, o: real, t: real, e: real)
    requires t * e == s * o
    ensures Square(t) * Square(e) == Square(s) * Square(o)
  {
    assert Square(t) * Square(e) == (t * e) * (t * e);
  }

  lemma SquarePositive(x: real)
    requires x > 0.0
    ensures Square(x) > 0.0
  {
    PositiveTimes(x, x);
  }

  lemma CubePolynomial(y: real)
    requires y >= 2.0
    ensures Cube(y + 1.0) * Square(Odd(y)) <= Cube(y - 1.0) * Square(Even(y))
  {
    var a, b, c := y - 1.0, y, y + 1.0;
    PositiveProduct(a, a);
    PositiveProduct(a * a, a);
    PositiveProduct(c, c);
    PositiveProduct(a * a * a, c * c);
    var k := a * a * a * (c * c);
    assert a * c <= b * b;
    assert k * (a * c) <= k * (b * b);
    assert Cube(c) * Square(Odd(y)) == k * (a * c);
    assert Cube(a) * Square(Even(y)) == k * (b * b);
  }

  lemma DecayStart()
    ensures Decay(1.0, 1.0) == 1.0
  {
    assert Cube(1.0) == 1.0 && Square(1.0) == 1.0;
  }

  lemma DecayStep(s: real, t: real, y: real)
    requires y >= 2.0 && s > 0.0 && Follows(s, t, y)
    ensures Decay(y + 1.0, t) <= Decay(y - 1.0, s)
  {
    hide Odd;
    hide Even;
    hide Square;
    hide Cube;
    OddBelowEven(y);
    SquarePositive(Even(y));
    SquarePositive(s);
    SquareCross(s, Odd(y), t, Even(y));
    CubePolynomial(y);
    CancelEven(Square(s), Square(Odd(y)), Square(t), Square(Even(y)), Cube(y + 1.0), Cube(y - 1.0));
  }

  lemma {:induction false} TermDecay(n: nat)
    ensures Decay(Twice(n) + 1.0, At(n).term) <= 1.0
  {
    hide *;
    AtStart();
    DecayStart();
    if n > 0 {
      TermDecay(n - 1);
      Step(n - 1);
      TermBounds(n - 1);
      DecayStep(At(n - 1).term, At(n).term, Twice(n));
      assert Twice(n) - 1.0 == Twice(n - 1) + 1.0;
    }
  }

  lemma ScaledSquare(x: real, d: real, t: real)
    requires 0.0 <= d <= Times(2.0 * x, t) && x >= 0.0
    requires Decay(x, t) <= 1.0
    ensures x * Square(d) <= 4.0
  {
    var c := (2.0 * x) * t;
    assert d * d <= d * c;
    assert d * c <= c * c;
    assert x * (d * d) <= x * (c * c);
    assert x * (c * c) == 4.0 * Decay(x, t);
  }

  /**
   * The distance between the sum after `n` units and any later sum shrinks like the square root
   * of `n`: stopping a task early costs a known amount of accuracy.
   */
  lemma Convergence(n: nat, m: nat)
    requires n <= m
    ensures (2.0 * n as real + 1.0) * Square(At(m).sum - At(n).sum) <= 4.0
  {
    hide *;
    TailBounds(n, m);
    TermDecay(n);
    MajorantBounds(n);
    MajorantBounds(m);
    ScaledSquare(Twice(n) + 1.0, At(m).sum - At(n).sum, At(n).term);
  }

  /** From 20,000 units on no later partial sum is further away than the tolerance of 0.01. */
  lemma WithinTolerance(n: nat, m: nat)
    requires 20_000 <= n <= m
    ensures 0.0 <= At(m).sum - At(n).sum < 0.01
  {
    hide *;
    TailBounds(n, m);
    Convergence(n, m);
    ToleranceOf(n as real, At(m).sum - At(n).sum);
  }

  lemma ToleranceOf(n: real, d: real)
    requires n >= 20_000.0 && d >= 0.0 && (2.0 * n + 1.0) * Square(d) <= 4.0
    ensures d < 0.01
  {
    var x, least := 2.0 * n + 1.0, 0.0001;
    if d >= 0.01 {
      SquareGrows(0.01, d);
      PositiveProduct(x, least);
    }
  }

  lemma SquareGrows(a: real, b: real)
    requires 0.0 <= a <= b
    ensures Square(a) <= Square(b)
  {
  }
}
