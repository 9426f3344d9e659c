/** Integer and rounding primitives of the C++ sources, with the facts the other modules use. */
module Numerics {

  const NANOS_PER_SECOND := 1_000_000_000

  type uint32 = x: int | 0 <= x < 0x1_0000_0000

  function Abs(x: int): nat {
    if x < 0 then -x else x
  }

  function RAbs(x: real): real {
    if x < 0.0 then -x else x
  }

  /** C++ integer division: truncates toward zero. */
  function TruncDiv(a: int, b: int): int
    requires b > 0
  {
    if a >= 0 then a / b else -((-a) / b)
  }

  /** `first + (second - first) / 2`, the midpoint of both Time.cpp and ClockSampler.cpp. */
  function Midpoint(first: int, second: int): int {
    first + TruncDiv(second - first, 2)
  }

  /** `std::llround`: nearest integer, halves away from zero. */
  function LlRound(x: real): int {
    if x >= 0.0 then (x + 0.5).Floor else -((-x + 0.5).Floor)
  }

  lemma LlRoundNearest(x: real)
    ensures -0.5 <= LlRound(x) as real - x <= 0.5
  {
  }

  /** Halves are rounded away from zero. */
  lemma LlRoundHalves(x: real)
    ensures -0.5 <= LlRound(x) as real - x <= 0.5
    ensures LlRound(x) as real - x == 0.5 ==> x > 0.0
    ensures LlRound(x) as real - x == -0.5 ==> x < 0.0
  {
  }

  lemma LlRoundOfInt(k: int)
    ensures LlRound(k as real) == k
  {
    LlRoundNearest(k as real);
  }

  lemma LlRoundMonotone(x: real, y: real)
    requires x <= y
    ensures LlRound(x) <= LlRound(y)
  {
    FloorMonotone(x + 0.5, y + 0.5);
    FloorMonotone(-y + 0.5, -x + 0.5);
  }

  lemma FloorMonotone(x: real, y: real)
    requires x <= y
    ensures x.Floor <= y.Floor
  {
  }

  lemma TruncDivMonotone(a: int, b: int, d: int)
    requires a <= b && 0 < d
    ensures TruncDiv(a, d) <= TruncDiv(b, d)
  {
    if a >= 0 {
      DivMonotone(a, b, d);
    } else if b < 0 {
      DivMonotone(-b, -a, d);
    } else {
      DivMonotone(0, -a, d);
      DivMonotone(0, b, d);
    }
  }

  lemma CancelFactor(q: int, p: int, d: int)
    requires 0 < d && d * q < d * p
    ensures q < p
  {
  }

  lemma DivMonotone(a: nat, b: nat, d: int)
    requires a <= b && 0 < d
    ensures a / d <= b / d
  {
    CancelFactor(a / d, b / d + 1, d);
  }

  // ----- Products of reals ---------------------------------------------------------------

  /** A named product: proofs about sums hide it and use the ring facts below instead. */
  function Times(a: real, b: real): real {
    a * b
  }

  lemma TimesRing(a: real, b: real, c: real)
    ensures Times(a, b + c) == Times(a, b) + Times(a, c) && Times(b + c, a) == Times(b, a) + Times(c, a)
    ensures Times(a, b - c) == Times(a, b) - Times(a, c) && Times(b - c, a) == Times(b, a) - Times(c, a)
    ensures Times(a, b) == Times(b, a) && Times(Times(a, b), c) == Times(a, Times(b, c))
  {
  }

  lemma TimesSelf(r: real)
    ensures Times(r, r) >= 0.0 && (Times(r, r) == 0.0 <==> r == 0.0)
  {
    if r > 0.0 {
      TimesPositive(r, r);
    } else if r < 0.0 {
      TimesPositive(-r, -r);
      assert Times(r, r) == Times(-r, -r);
    }
  }

  lemma TimesPositive(p: real, q: real)
    requires p > 0.0 && q > 0.0
    ensures Times(p, q) > 0.0
  {
  }

  lemma TimesDivide(k: real, p: real, q: real)
    requires q != 0.0
    ensures Times(p / q, q) == p && Times(q, p / q) == p && Times(k, q) / q == k
    ensures Times(k, p) / q == Times(k, p / q)
  {
  }

  lemma TimesOne(c: real)
    ensures Times(c, 1.0) == c && Times(c, 0.0) == 0.0 && Times(0.0, c) == 0.0
  {
  }

  lemma TimesMonotone(a: real, b: real, s: real)
    requires a <= b && 0.0 <= s
    ensures Times(a, s) <= Times(b, s)
  {
    assert (b - a) * s >= 0.0;
  }
}
