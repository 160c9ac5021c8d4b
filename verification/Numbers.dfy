/** Fixed-width and exact arithmetic shared by the whole model. */
module Numbers {

  const U32_MODULUS: int := 0x1_0000_0000
  const U32_MAX: int := 0xFFFF_FFFF

  /** The values of a C `uint32_t`. */
  type U32 = x: int | 0 <= x < 0x1_0000_0000

  /** A yield fraction as every task holds it: `task_create` admits nothing outside (0, 1]. */
  type Fraction = y: real | 0.0 < y <= 1.0 witness 1.0

  /** Conversion to `uint32_t`: keep the low 32 bits. */
  function Wrap(x: int): U32 {
    x % U32_MODULUS
  }

  /** Exactly the numbers that differ by a multiple of 2^32 share their low 32 bits. */
  lemma WrapExact(x: int, r: int)
    ensures Wrap(x) == r <==> 0 <= r < 4294967296 && (x - r) % 4294967296 == 0
  {
  }

  lemma NotWrapped(n: nat)
    requires n <= U32_MAX
    ensures Wrap(n) == n
  {
  }

  function Min(a: int, b: int): int {
    if a <= b then a else b
  }

  function Ceil(x: real): (c: int)
    ensures x <= c as real < x + 1.0
  {
    -((-x).Floor)
  }

  lemma CeilUnique(x: real, c: int)
    requires x <= c as real < x + 1.0
    ensures c == Ceil(x)
  {
  }

  /** C's `round` on a non-negative argument: halves go up. */
  function Round(x: real): (r: int)
    requires 0.0 <= x
    ensures x - 0.5 < r as real <= x + 0.5
    ensures 0 <= r
  {
    (x + 0.5).Floor
  }

  /** The number of blocks of `b` needed to cover `a`. */
  function CeilDiv(a: nat, b: nat): (q: nat)
    requires 0 < b
    ensures q * b < a + b && a <= q * b
  {
    if a == 0 then 0 else
    assert (a - 1) == b * ((a - 1) / b) + (a - 1) % b;
    (a - 1) / b + 1
  }

  /** A quotient rounded up is determined by the two inequalities. */
  lemma CeilDivUnique(a: nat, b: nat, q: nat)
    requires 0 < b
    requires q * b < a + b && a <= q * b
    ensures q == CeilDiv(a, b)
  {
    var p := CeilDiv(a, b);
    assert (p - q) * b < b && (q - p) * b < b;
    if q < p {
      WholeStep(p - q, b);
    } else if p < q {
      WholeStep(q - p, b);
    }
  }

  lemma WholeStep(d: nat, b: nat)
    requires 0 < d
    ensures b <= d * b
  {
    assert (d - 1) * b >= 0;
  }

  /** Sum of `f` over the elements of `s` from position `k` on. */
  function Total<T>(f: T -> int, s: seq<T>, k: nat := 0): int
    requires k <= |s|
    decreases |s| - k
  {
    if k == |s| then 0 else f(s[k]) + Total(f, s, k + 1)
  }

  /** Two sums with pairwise equal summands are equal. */
  lemma {:induction false} TotalsAgree<T, U>(f: T -> int, s: seq<T>, g: U -> int, u: seq<U>, k: nat := 0)
    requires k <= |s| == |u|
    requires forall i :: k <= i < |s| ==> f(s[i]) == g(u[i])
    ensures Total(f, s, k) == Total(g, u, k)
    decreases |s| - k
  {
    if k < |s| {
      TotalsAgree(f, s, g, u, k + 1);
    }
  }

  /** A sum of equal summands. */
  lemma {:induction false} TotalEqual<T>(f: T -> int, s: seq<T>, c: int, k: nat)
    requires k <= |s| && forall i :: k <= i < |s| ==> f(s[i]) == c
    ensures Total(f, s, k) == (|s| - k) * c
    decreases |s| - k
  {
    if k < |s| {
      TotalEqual(f, s, c, k + 1);
      assert (|s| - k) * c == (|s| - (k + 1)) * c + c;
    }
  }

  /** Replacing one element changes a sum by the difference of the two. */
  lemma {:induction false} TotalUpdate<T>(f: T -> int, s: seq<T>, i: nat, x: T, k: nat := 0)
    requires k <= |s| && i < |s|
    ensures Total(f, s[i := x], k) == Total(f, s, k) + (if k <= i then f(x) - f(s[i]) else 0)
    decreases |s| - k
  {
    if k < |s| {
      TotalUpdate(f, s, i, x, k + 1);
    }
  }

  /** Sums of pointwise ordered summands are ordered. */
  lemma {:induction false} TotalMonotone<T>(f: T -> int, g: T -> int, s: seq<T>, k: nat := 0)
    requires k <= |s|
    requires forall i :: k <= i < |s| ==> f(s[i]) <= g(s[i])
    ensures Total(f, s, k) <= Total(g, s, k)
    decreases |s| - k
  {
    if k < |s| {
      TotalMonotone(f, g, s, k + 1);
    }
  }

  /** Two sums of pointwise ordered summands agree only when every summand does. */
  lemma {:induction false} TotalStrict<T>(f: T -> int, g: T -> int, s: seq<T>, i: nat, k: nat := 0)
    requires k <= i < |s|
    requires forall j :: k <= j < |s| ==> f(s[j]) <= g(s[j])
    requires f(s[i]) < g(s[i])
    ensures Total(f, s, k) < Total(g, s, k)
    decreases |s| - k
  {
    if k < i {
      TotalStrict(f, g, s, i, k + 1);
    } else {
      TotalMonotone(f, g, s, k + 1);
    }
  }
}
