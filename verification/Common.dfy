/** What every part of the committer shares: machine integers, heights and optional values. */
module Common {

  datatype Option<+T> = None | Some(value: T)

  const TWO_TO_THE_64: int := 0x1_0000_0000_0000_0000
  const TWO_TO_THE_63: int := 0x8000_0000_0000_0000
  const TWO_TO_THE_32: int := 0x1_0000_0000

  type Uint64 = n: int | 0 <= n < TWO_TO_THE_64
  type Uint32 = n: int | 0 <= n < TWO_TO_THE_32

  /** The place of a transaction in the chain. */
  datatype Height = Height(blockNum: Uint64, txNum: Uint32)

  function Below(n: nat): (r: set<nat>)
    ensures forall w: nat :: w in r <==> w < n
  {
    if n == 0 then {} else Below(n - 1) + {n - 1}
  }
}

/** Facts about products, quotients and remainders that the solver does not find by itself. */
module Arithmetic {

  lemma MulAtLeast(x: int, d: int)
    requires x >= 1 && d >= 0
    ensures x * d >= d && (-x) * d <= -d
  {
    assert x * d == (x - 1) * d + d;
    assert (x - 1) * d >= 0;
  }

  lemma SmallMultiple(x: int, d: int)
    requires d > 0 && -d < x * d < d
    ensures x == 0
  {
    if x >= 1 { MulAtLeast(x, d); }
    if x <= -1 { MulAtLeast(-x, d); }
  }

  lemma DivModUnique(p: int, d: int, q: int, r: int)
    requires d > 0 && 0 <= r < d && p == q * d + r
    ensures p / d == q && p % d == r
  {
    var q', r' := p / d, p % d;
    assert p == q' * d + r';
    assert (q' - q) * d == q' * d - q * d;
    SmallMultiple(q' - q, d);
  }

  lemma MulMonotone(x: nat, a: int, b: int)
    requires a <= b
    ensures x * a <= x * b
  {
    assert x * (b - a) >= 0;
    assert x * b == x * a + x * (b - a);
  }

  lemma DivPlusMultiple(a: int, m: int, d: int)
    requires d > 0
    ensures (a + m * d) / d == a / d + m
  {
    assert a == a / d * d + a % d;
    assert (a / d + m) * d == a / d * d + m * d;
    DivModUnique(a + m * d, d, a / d + m, a % d);
  }

  lemma DivMonotone(a: int, b: int, d: int)
    requires a <= b && d > 0
    ensures a / d <= b / d
  {
    var x, y := a / d, b / d;
    assert a == x * d + a % d && b == y * d + b % d;
    assert (x - y) * d == x * d - y * d;
    if x > y { MulAtLeast(x - y, d); }
  }
}
