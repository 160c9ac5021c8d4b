/** The generator of src/rng.c: 32-bit xorshift. */
module Rng {

  // The three assignments of `rng_xorshift32_get`.
  function ShiftA(x: bv32): bv32 { x ^ (x << 13) }
  function ShiftB(x: bv32): bv32 { x ^ (x >> 17) }
  function ShiftC(x: bv32): bv32 { x ^ (x << 5) }

  /** The seed after a `get` on a nonzero seed, which is also the number it returns. */
  function Next(seed: bv32): bv32 {
    ShiftC(ShiftB(ShiftA(seed)))
  }

  // What undoes each assignment.
  function UnshiftA(x: bv32): bv32 { x ^ (x << 13) ^ (x << 26) }
  function UnshiftB(x: bv32): bv32 { x ^ (x >> 17) }
  function UnshiftC(x: bv32): bv32 {
    x ^ (x << 5) ^ (x << 10) ^ (x << 15) ^ (x << 20) ^ (x << 25) ^ (x << 30)
  }

  function Previous(z: bv32): bv32 {
    UnshiftA(UnshiftB(UnshiftC(z)))
  }

  function Xor(x: bv32, y: bv32): bv32 { x ^ y }

  // Each identity is first stated with one side written out, where the solver settles it by
  // rewriting; the form used later follows from it by substitution alone.

  lemma UndoA(x: bv32)
    ensures UnshiftA(x ^ (x << 13)) == x
    ensures ShiftA(x ^ (x << 13) ^ (x << 26)) == x
  {
  }

  lemma UndoB(x: bv32)
    ensures UnshiftB(x ^ (x >> 17)) == x
    ensures ShiftB(x ^ (x >> 17)) == x
  {
  }

  lemma UndoC(x: bv32)
    ensures UnshiftC(x ^ (x << 5)) == x
    ensures ShiftC(x ^ (x << 5) ^ (x << 10) ^ (x << 15) ^ (x << 20) ^ (x << 25) ^ (x << 30)) == x
  {
  }

  lemma AInverse(x: bv32)
    ensures UnshiftA(ShiftA(x)) == x && ShiftA(UnshiftA(x)) == x
  {
    UndoA(x);
  }

  lemma BInverse(x: bv32)
    ensures UnshiftB(ShiftB(x)) == x && ShiftB(UnshiftB(x)) == x
  {
    UndoB(x);
  }

  lemma CInverse(x: bv32)
    ensures UnshiftC(ShiftC(x)) == x && ShiftC(UnshiftC(x)) == x
  {
    UndoC(x);
  }

  /** One step is a bijection on 32-bit words, with `Previous` as its inverse. */
  lemma NextInverse(x: bv32)
    ensures Previous(Next(x)) == x
    ensures Next(Previous(x)) == x
  {
    AInverse(x);
    BInverse(ShiftA(x));
    CInverse(ShiftB(ShiftA(x)));
    CInverse(x);
    BInverse(UnshiftC(x));
    AInverse(UnshiftB(UnshiftC(x)));
  }

  lemma XorA(a: bv32, b: bv32)
    ensures ShiftA(a ^ b) == Xor(a ^ (a << 13), b ^ (b << 13))
  {
  }

  lemma XorB(a: bv32, b: bv32)
    ensures ShiftB(a ^ b) == Xor(a ^ (a >> 17), b ^ (b >> 17))
  {
  }

  lemma XorC(a: bv32, b: bv32)
    ensures ShiftC(a ^ b) == Xor(a ^ (a << 5), b ^ (b << 5))
  {
  }

  lemma ShiftsLinear(a: bv32, b: bv32)
    ensures ShiftA(Xor(a, b)) == Xor(ShiftA(a), ShiftA(b))
    ensures ShiftB(Xor(a, b)) == Xor(ShiftB(a), ShiftB(b))
    ensures ShiftC(Xor(a, b)) == Xor(ShiftC(a), ShiftC(b))
  {
    XorA(a, b);
    XorB(a, b);
    XorC(a, b);
  }

  /** One step is linear over GF(2). */
  lemma NextLinear(a: bv32, b: bv32)
    ensures Next(Xor(a, b)) == Xor(Next(a), Next(b))
  {
    ShiftsLinear(a, b);
    ShiftsLinear(ShiftA(a), ShiftA(b));
    ShiftsLinear(ShiftB(ShiftA(a)), ShiftB(ShiftA(b)));
  }

  /** The step on each one-bit word, by its value. With linearity this fixes the step on every word. */
  lemma NextOnBits()
    ensures Next(0x00000001) == 0x00042021 && Next(0x00000002) == 0x00084042
    ensures Next(0x00000004) == 0x00108084 && Next(0x00000008) == 0x00210108
    ensures Next(0x00000010) == 0x00420231 && Next(0x00000020) == 0x00840462
    ensures Next(0x00000040) == 0x010808C4 && Next(0x00000080) == 0x02101188
    ensures Next(0x00000100) == 0x04202310 && Next(0x00000200) == 0x08404620
    ensures Next(0x00000400) == 0x10808C40 && Next(0x00000800) == 0x21011880
    ensures Next(0x00001000) == 0x42023100 && Next(0x00002000) == 0x84046200
    ensures Next(0x00004000) == 0x0808C400 && Next(0x00008000) == 0x10118800
    ensures Next(0x00010000) == 0x20231000 && Next(0x00020000) == 0x40462021
    ensures Next(0x00040000) == 0x808C4042 && Next(0x00080000) == 0x01080084
    ensures Next(0x00100000) == 0x02100108 && Next(0x00200000) == 0x04200210
    ensures Next(0x00400000) == 0x08400420 && Next(0x00800000) == 0x10800840
    ensures Next(0x01000000) == 0x21001080 && Next(0x02000000) == 0x42002100
    ensures Next(0x04000000) == 0x84004200 && Next(0x08000000) == 0x08008400
    ensures Next(0x10000000) == 0x10010800 && Next(0x20000000) == 0x20021000
    ensures Next(0x40000000) == 0x40042000 && Next(0x80000000) == 0x80084000
  {
  }

  /** The numbers the first seeds lead to. */
  lemma FirstNumbers()
    ensures Value(Next(1)) == 270369 && Value(Next(2)) == 540738 && Value(Next(2026)) == 525710612
  {
    assert Next(1) == 270369 && Next(2) == 540738 && Next(2026) == 525710612;
  }

  /** Zero, and nothing else, is mapped to zero, so a nonzero seed keeps `get` succeeding. */
  lemma NextNonzero(x: bv32)
    ensures Next(x) == 0 <==> x == 0
  {
    assert Next(0) == 0;
    NextInverse(x);
    NextInverse(0);
  }

  /** The seed after `k` calls to `get`; a zero seed makes every call fail and stays zero. */
  function State(seed: bv32, k: nat): bv32 {
    if k == 0 then seed else Next(State(seed, k - 1))
  }

  lemma {:induction false} StateNonzero(seed: bv32, k: nat)
    ensures State(seed, k) == 0 <==> seed == 0
  {
    if k > 0 {
      StateNonzero(seed, k - 1);
      NextNonzero(State(seed, k - 1));
    }
  }

  lemma {:induction false} StateAdd(seed: bv32, a: nat, b: nat)
    ensures State(seed, a + b) == State(State(seed, a), b)
  {
    if b > 0 {
      StateAdd(seed, a, b - 1);
    }
  }

  /** Equal states have equal pasts. */
  lemma {:induction false} StateCancel(seed: bv32, i: nat, j: nat)
    requires i <= j && State(seed, i) == State(seed, j)
    ensures State(seed, j - i) == seed
  {
    if i > 0 {
      NextInverse(State(seed, i - 1));
      NextInverse(State(seed, j - 1));
      StateCancel(seed, i - 1, j - 1);
    }
  }

  /** More than `n` values in `1..n` contain a repetition. */
  lemma {:induction false} Pigeonhole(s: seq<int>, n: nat) returns (i: nat, j: nat)
    requires |s| > n
    requires forall k :: 0 <= k < |s| ==> 1 <= s[k] <= n
    ensures i < j < |s| && s[i] == s[j]
  {
    assert 1 <= s[0] <= n;
    if n in s {
      i :| 0 <= i < |s| && s[i] == n;
      if n in s[i + 1..] {
        var k :| 0 <= k < |s| - i - 1 && s[i + 1..][k] == n;
        j := i + 1 + k;
      } else if n in s[..i] {
        j := i;
        i :| 0 <= i < j && s[..j][i] == n;
      } else {
        var rest := s[..i] + s[i + 1..];
        forall k | 0 <= k < |rest|
          ensures 1 <= rest[k] <= n - 1
        {
          assert rest[k] in s[..i] || rest[k] in s[i + 1..];
        }
        var a, b := Pigeonhole(rest, n - 1);
        i, j := if a < i then a else a + 1, if b < i then b else b + 1;
      }
    } else {
      i, j := Pigeonhole(s, n - 1);
    }
  }

  /** The word read as a number, as the draw uses it. */
  function Value(x: bv32): nat {
    x as int
  }

  lemma ValueBounds(x: bv32)
    ensures Value(x) <= 0xFFFF_FFFF
    ensures Value(x) == 0 <==> x == 0
  {
  }

  lemma ValueInjective(x: bv32, y: bv32)
    requires Value(x) == Value(y)
    ensures x == y
  {
    assert Value(x) as bv32 == x && Value(y) as bv32 == y;
  }

  /** The first `n` values of the trajectory of `seed`. */
  lemma {:induction false} Trajectory(seed: bv32, n: nat) returns (s: seq<int>)
    ensures |s| == n && forall k :: 0 <= k < n ==> s[k] == Value(State(seed, k))
  {
    hide *;
    s := [];
    if n > 0 {
      s := Trajectory(seed, n - 1);
      s := s + [Value(State(seed, n - 1))];
    }
  }

  /** Every nonzero seed comes back to itself within 2^32 - 1 calls, and the numbers then repeat. */
  lemma StateReturns(seed: bv32) returns (p: nat)
    requires seed != 0
    ensures 1 <= p <= 0xFFFF_FFFF
    ensures forall k: nat :: State(seed, k + p) == State(seed, k)
  {
    hide *;
    var s := Trajectory(seed, 0x1_0000_0000);
    forall k | 0 <= k < |s|
      ensures 1 <= s[k] <= 0xFFFF_FFFF
    {
      StateNonzero(seed, k);
      ValueBounds(State(seed, k));
    }
    var i, j := Pigeonhole(s, 0xFFFF_FFFF);
    ValueInjective(State(seed, i), State(seed, j));
    StateCancel(seed, i, j);
    p := j - i;
    forall k: nat
      ensures State(seed, k + p) == State(seed, k)
    {
      StateAdd(seed, p, k);
    }
  }

  /** The static `rng_seed` with the two functions that overwrite it. */
  class Generator {
    var seed: bv32

    constructor ()
      ensures seed == 0
    {
      seed := 0;
    }

    method Seed(value: bv32) returns (ok: bool)
      modifies this
      ensures seed == value && ok == (value != 0)
    {
      seed := value;
      ok := value != 0;
    }

    method Get() returns (ok: bool, number: bv32)
      modifies this
      ensures ok == (old(seed) != 0)
      ensures ok ==> seed == Next(old(seed)) && number == seed && seed != 0
      ensures !ok ==> seed == old(seed)
    {
      number := 0;
      ok := seed != 0;
      if ok {
        var x := seed;
        x := ShiftA(x);
        x := ShiftB(x);
        x := ShiftC(x);
        NextNonzero(seed);
        seed := x;
        number := x;
      }
    }
  }
}
