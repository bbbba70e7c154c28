/** How long a failed job waits before its next attempt (backoff.go), in
    nanoseconds on wrapping 64-bit integers. */
module Backoff {

  const TWO_63 := 0x8000_0000_0000_0000
  const TWO_64 := 0x1_0000_0000_0000_0000

  predicate IsInt64(x: int) { -TWO_63 <= x < TWO_63 }

  /** What a 64-bit register keeps of `x`. */
  function Wrap(x: int): (r: int)
    ensures IsInt64(r)
    ensures IsInt64(x) ==> r == x
  {
    (x + TWO_63) % TWO_64 - TWO_63
  }

  const DEFAULT_BASE := 1_000_000_000
  const DEFAULT_CAP := 600_000_000_000

  function EffectiveCap(cap: int): int { if cap <= 0 then DEFAULT_CAP else cap }

  function EffectiveBase(base: int, cap: int): int {
    var b := if base <= 0 then DEFAULT_BASE else base;
    if b > EffectiveCap(cap) then EffectiveCap(cap) else b
  }

  function Pow2(n: nat): (p: int)
    ensures p >= 1
  {
    if n == 0 then 1 else 2 * Pow2(n - 1)
  }

  function Min(a: int, b: int): int { if a < b then a else b }

  /** The documented delay before jitter, over unbounded integers. */
  function Delay(base: int, cap: int, attempt: int): int {
    Min(EffectiveBase(base, cap) * Pow2(if attempt < 1 then 0 else attempt - 1), EffectiveCap(cap))
  }

  lemma {:induction false} Pow2Grows(m: nat, n: nat)
    requires m <= n
    ensures Pow2(m) <= Pow2(n)
  {
    if m < n { Pow2Grows(m, n - 1); }
  }

  lemma ProductGrows(b: int, x: int, y: int)
    requires b >= 0 && x <= y
    ensures b * x <= b * y
  {
  }

  /** The delay never shrinks from one attempt to the next, and stays positive
      and within the cap. */
  lemma DelayMonotone(base: int, cap: int, a: int, b: int)
    requires a <= b
    ensures 0 < Delay(base, cap, a) <= Delay(base, cap, b) <= EffectiveCap(cap)
  {
    var m, n := if a < 1 then 0 else a - 1, if b < 1 then 0 else b - 1;
    Pow2Grows(m, n);
    ProductGrows(EffectiveBase(base, cap), Pow2(m), Pow2(n));
    ProductGrows(EffectiveBase(base, cap), 1, Pow2(m));
  }

  /** The first wait is the configured base, or one second if it is not positive, and
      never more than the configured cap, or ten minutes if that is not positive. */
  lemma FirstDelay(base: int, cap: int, attempt: int)
    requires attempt <= 1
    ensures var b, c := if base <= 0 then 1_000_000_000 else base, if cap <= 0 then 600_000_000_000 else cap;
      Delay(base, cap, attempt) == if b < c then b else c
  {
  }

  /** Every further wait doubles the one before, up to the cap. */
  lemma NextDelay(base: int, cap: int, attempt: int)
    requires attempt >= 1
    ensures var d, c := Delay(base, cap, attempt), if cap <= 0 then 600_000_000_000 else cap;
      Delay(base, cap, attempt + 1) == if 2 * d < c then 2 * d else c
  {
    var b, p := EffectiveBase(base, cap), Pow2(attempt - 1);
    assert Pow2(attempt) == 2 * p;
    assert b * (2 * p) == 2 * (b * p);
    ProductGrows(b, 1, p);
  }

  lemma {:induction false} Pow2Bound(n: nat)
    requires Pow2(n) < TWO_63
    ensures n < 63
  {
    if n >= 63 {
      Pow2Grows(63, n);
      Pow2Is();
    }
  }

  lemma {:induction false} Pow2Square(n: nat, m: nat)
    ensures Pow2(n + m) == Pow2(n) * Pow2(m)
  {
    if m > 0 { Pow2Square(n, m - 1); }
  }

  lemma Pow2Is()
    ensures Pow2(63) == TWO_63
  {
    assert Pow2(2) == 4;
    Pow2Square(2, 2);
    Pow2Square(4, 4);
    Pow2Square(8, 8);
    Pow2Square(16, 16);
    Pow2Square(32, 32);
  }

  /** `b` doubled `n` times. */
  function Doubled(b: int, n: nat): int {
    if n == 0 then b else 2 * Doubled(b, n - 1)
  }

  lemma {:induction false} DoubledIs(b: int, n: nat)
    ensures Doubled(b, n) == b * Pow2(n)
  {
    if n == 0 {
    } else {
      DoubledIs(b, n - 1);
      assert b * (2 * Pow2(n - 1)) == 2 * (b * Pow2(n - 1));
    }
  }

  lemma {:induction false} DoubledGrows(b: int, m: nat, n: nat)
    requires b >= 1 && m <= n
    ensures 1 <= Doubled(b, m) <= Doubled(b, n) && Pow2(n) <= Doubled(b, n)
    decreases n
  {
    if n == 0 {
    } else if m < n {
      DoubledGrows(b, m, n - 1);
    } else {
      DoubledGrows(b, n - 1, n - 1);
    }
  }

  /** Doubling a 64-bit number below 2^63 wraps to below it exactly when the
      double does not fit. */
  lemma DoubleWraps(d: int)
    requires 0 < d < TWO_63
    ensures Wrap(d * 2) < d <==> d * 2 >= TWO_63
    ensures d * 2 < TWO_63 ==> Wrap(d * 2) == d * 2
  {
  }

  /** The capped delay from a doubling that has reached the cap. */
  lemma Reached(b: int, cap: int, m: nat, n: nat)
    requires b >= 1 && m <= n && Doubled(b, m) >= cap
    ensures Min(Doubled(b, n), cap) == cap
  {
    DoubledGrows(b, m, n);
  }

  /** The saturating loop computes the documented delay for every attempt, base
      and cap, and its body runs at most 63 times. */
  method Saturate(base: int, cap: int, attempt: int) returns (d: int, ghost passes: nat)
    requires IsInt64(base) && IsInt64(cap) && IsInt64(attempt)
    ensures d == Delay(base, cap, attempt) && passes <= 63
  {
    var ceiling := EffectiveCap(cap);
    var b := EffectiveBase(base, cap);
    var n := if attempt < 1 then 0 else attempt - 1;
    DoubledIs(b, n);
    d, passes := Doublings(b, ceiling, n);
  }

  method Doublings(b: int, ceiling: int, n: nat) returns (d: int, ghost passes: nat)
    requires 1 <= b <= ceiling < TWO_63
    ensures d == Min(Doubled(b, n), ceiling) && passes <= 63
  {
    d := b;
    passes := 0;
    for i := 0 to n
      invariant passes == i < 63 && 1 <= d == Doubled(b, i) < TWO_63
    {
      if d >= ceiling {
        Reached(b, ceiling, i, n);
        break;
      }
      passes := passes + 1;
      DoubleWraps(d);
      var next := Wrap(d * 2);
      if next < d {
        Reached(b, ceiling, i + 1, n);
        d := ceiling;
        break;
      }
      d := next;
      Passes(b, i + 1);
    }
    if d > ceiling {
      d := ceiling;
    }
  }

  lemma Passes(b: int, n: nat)
    requires b >= 1 && Doubled(b, n) < TWO_63
    ensures n < 63 && 1 <= Doubled(b, n)
  {
    DoubledGrows(b, n, n);
    Pow2Bound(n);
  }

  // ------------------------------------------------------------------- jitter

  datatype Jitter = JitterNone | JitterFull | JitterEqual

  /** How many values the random source is asked to choose between. */
  function Choices(jitter: Jitter, d: int): int {
    match jitter
    case JitterNone => 1
    case JitterFull => d
    case JitterEqual => d - d / 2
  }

  /** The delay for draw `x`; a delay that is not positive draws nothing. */
  function Perturb(jitter: Jitter, d: int, x: int): int {
    match jitter
    case JitterNone => d
    case JitterFull => if d <= 0 then 0 else x
    case JitterEqual => if d <= 0 then 0 else d / 2 + x
  }

  /** The delay a caller gets lies in the documented interval, `d` itself,
      `[0, d)` or `[d/2, d)` for the capped exponential `d`: no draw makes it
      negative or takes it past the cap. */
  lemma NextInRange(base: int, cap: int, attempt: int, jitter: Jitter, x: int)
    requires 0 <= x < Choices(jitter, Delay(base, cap, attempt))
    ensures var d := Delay(base, cap, attempt);
      var wait := Perturb(jitter, d, x);
      && 0 <= wait <= d <= EffectiveCap(cap)
      && (jitter.JitterFull? ==> wait < d)
      && (jitter.JitterEqual? ==> d / 2 <= wait < d)
  {
    DelayMonotone(base, cap, attempt, attempt);
  }

  /** Every value of the interval comes from exactly one draw, so a uniform
      source gives a uniform delay. */
  lemma JitterCovers(jitter: Jitter, d: int, v: int)
    requires d > 0 && !jitter.JitterNone?
    requires (if jitter.JitterFull? then 0 else d / 2) <= v < d
    ensures exists x :: 0 <= x < Choices(jitter, d) && Perturb(jitter, d, x) == v
    ensures forall x, y :: Perturb(jitter, d, x) == Perturb(jitter, d, y) ==> x == y
  {
    var x := if jitter.JitterFull? then v else v - d / 2;
    assert Perturb(jitter, d, x) == v;
  }

  /** The summed delays after attempts 1 to `n` under the default policy. */
  function Span(n: nat): int {
    if n == 0 then 0 else Span(n - 1) + Delay(0, 0, n)
  }

  /** The cap does not bind before the eleventh attempt. */
  lemma EarlyDelay(n: nat)
    requires 1 <= n <= 10
    ensures Delay(0, 0, n) == DEFAULT_BASE * Pow2(n - 1)
  {
    Pow2Grows(n - 1, 9);
    Pow2Square(4, 4);
  }

  lemma {:induction false} SpanRises(n: nat)
    requires n <= 10
    ensures Span(n) == DEFAULT_BASE * (Pow2(n) - 1)
  {
    if n == 0 {
    } else {
      SpanRises(n - 1);
      EarlyDelay(n);
    }
  }

  lemma {:induction false} SpanFlat(n: nat)
    requires n >= 10
    ensures Span(n) == 1023 * DEFAULT_BASE + (n - 10) * DEFAULT_CAP
  {
    Pow2Square(4, 4);
    if n == 10 {
      SpanRises(10);
    } else {
      SpanFlat(n - 1);
      Pow2Grows(10, n - 1);
    }
  }

  /** Twenty-five attempts have twenty-four waits between them, 2 hours 37
      minutes and 3 seconds at most. */
  lemma DefaultSpan()
    ensures Span(24) == 9423 * DEFAULT_BASE
  {
    SpanFlat(24);
  }
}
