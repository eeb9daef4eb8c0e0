/**
 Tick arithmetic.  `TickType_t` counts modulo `M`; every claim about time is stated on an
 absolute tick count `t`, of which the kernel only ever sees `t % M`.
 */
module Ticks {

  type Modulus = m: nat | m >= 2 witness 2

  /** The number of distinct tick values; the port chooses it. */
  const M: Modulus

  /** `portMAX_DELAY`, the largest tick value. */
  const MAX_DELAY: nat := M - 1

  /** Unsigned addition and subtraction of tick values. */
  function Plus(x: nat, y: nat): nat { (x + y) % M }

  function Minus(x: nat, y: nat): nat { (x - y) % M }

  /** The start of the tick epoch that contains the absolute time `t`. */
  function EpochStart(t: nat): nat { t - t % M }

  lemma MultipleGrows(k: int, m: nat)
    ensures k >= 1 ==> k * m >= m
    ensures k <= -1 ==> k * m + m <= 0
  {
  }

  lemma DivModUnique(q: nat, r: nat)
    requires r < M
    ensures (q * M + r) / M == q && (q * M + r) % M == r
  {
    var x := q * M + r;
    assert x == (x / M) * M + x % M;
    var k := x / M - q;
    assert k * M == (x / M) * M - q * M;
    MultipleGrows(k, M);
  }

  /** Moving on by less than a full turn stays in the epoch or enters the next one. */
  lemma Advance(a: nat, d: nat)
    requires d < M
    ensures a % M + d < M ==>
              (a + d) / M == a / M && (a + d) % M == a % M + d && EpochStart(a + d) == EpochStart(a)
    ensures a % M + d >= M ==>
              && (a + d) / M == a / M + 1
              && (a + d) % M == a % M + d - M
              && EpochStart(a + d) == EpochStart(a) + M
    ensures Plus(a % M, d) == (a + d) % M
  {
    var q, r := a / M, a % M;
    assert a == q * M + r;
    if r + d < M {
      DivModUnique(q, r + d);
      DivModUnique(0, r + d);
    } else {
      assert a + d == (q + 1) * M + (r + d - M);
      DivModUnique(q + 1, r + d - M);
      DivModUnique(1, r + d - M);
    }
  }

  lemma ModShift(x: int, q: nat)
    ensures (x + q * M) % M == x % M
  {
    var y := x + q * M;
    assert x == (x / M) * M + x % M;
    assert y == (y / M) * M + y % M;
    var k := y / M - x / M - q;
    assert k * M == (y / M) * M - (x / M) * M - q * M;
    MultipleGrows(k, M);
  }

  /** The unsigned difference of two samples is the elapsed time modulo `M`. */
  lemma Elapsed(a: nat, b: nat)
    requires a <= b
    ensures Minus(b % M, a % M) == (b - a) % M
    ensures b - a < M ==> Minus(b % M, a % M) == b - a
  {
    Div(a);
    Div(b);
    Monotone(a, b);
    ModShift(b % M - a % M, b / M - a / M);
    Spread(b / M, a / M);
    if b - a < M {
      DivModUnique(0, b - a);
    }
  }

  lemma Div(a: nat)
    ensures a == (a / M) * M + a % M
  {
  }

  lemma Spread(p: int, q: int)
    ensures (p - q) * M == p * M - q * M
  {
  }

  lemma Monotone(a: nat, b: nat)
    requires a <= b
    ensures a / M <= b / M
  {
    Div(a);
    Div(b);
    var k := a / M - b / M;
    Spread(a / M, b / M);
    MultipleGrows(k, M);
  }

  /** A later sample that shows a smaller value has entered a new epoch, and exactly then. */
  lemma WrapSeen(a: nat, b: nat)
    requires a <= b < a + M
    ensures b % M < a % M <==> b / M != a / M
    ensures b / M == a / M || b / M == a / M + 1
  {
    Advance(a, b - a);
  }
}
