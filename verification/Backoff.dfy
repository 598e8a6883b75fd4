/**
 The reconnect delay: the closed form that the scheduler computes through logarithms, and
 the plain geometric progression it stands for. Arithmetic is over the reals.
 */
module Backoff {

  const MIN_BACKOFF_SECONDS: real := 10.0
  const BACKOFF_JITTER: real := 0.15

  datatype Settings = Settings(initial: real, multiplier: real, cap: real)

  /** The parameters that the engine's constructor accepts. */
  predicate Legal(c: Settings) {
    c.initial >= 0.0 && c.multiplier >= 1.0 && c.cap > 0.0
  }

  function Min(x: real, y: real): real {
    if x <= y then x else y
  }

  function Max(x: real, y: real): real {
    if x >= y then x else y
  }

  function Times(n: nat, x: real): real {
    n as real * x
  }

  function Lengthened(delay: real, jitter: real): real {
    delay * (1.0 + jitter)
  }

  function Power(m: real, n: nat): real {
    if n == 0 then 1.0 else m * Power(m, n - 1)
  }

  // ---- The functions of the math library -----------------------------------------

  /** log, log2, exp2 and frexp, over the reals. */
  datatype Library = Library(
    ln: real -> real,
    log2: real -> real,
    exp2: real -> real,
    frexp: real -> (real, int))

  ghost predicate LnOfProduct(l: Library, x: real, y: real) {
    x > 0.0 && y > 0.0 ==> l.ln(x * y) == l.ln(x) + l.ln(y)
  }

  ghost predicate LnGrows(l: Library, x: real, y: real) {
    0.0 < x < y ==> l.ln(x) < l.ln(y)
  }

  ghost predicate Exp2OfSum(l: Library, x: real, y: real) {
    l.exp2(x + y) == l.exp2(x) * l.exp2(y)
  }

  ghost predicate Exp2UndoesLog2(l: Library, x: real) {
    x > 0.0 ==> l.exp2(l.log2(x)) == x
  }

  ghost predicate FrexpSplits(l: Library, x: real) {
    x > 0.0 ==> l.frexp(x).0 * l.exp2(l.frexp(x).1 as real) == x
  }

  ghost predicate Lawful(l: Library) {
    && (forall x, y :: LnOfProduct(l, x, y))
    && (forall x, y :: LnGrows(l, x, y))
    && (forall x, y :: Exp2OfSum(l, x, y))
    && l.exp2(0.0) == 1.0
    && (forall x :: Exp2UndoesLog2(l, x))
    && (forall x :: FrexpSplits(l, x))
  }

  function Ldexp(l: Library, mantissa: real, exponent: int): real {
    mantissa * l.exp2(exponent as real)
  }

  // ---- The delay as computed -----------------------------------------------------

  /** The delay before the floor and the jitter. */
  function ScaledDelay(c: Settings, l: Library, step: nat): real
    requires Legal(c) && Lawful(l)
  {
    if c.initial == 0.0 then 0.0
    else if c.initial >= c.cap then c.cap
    else if c.multiplier == 1.0 || step == 0 then c.initial
    else
      LnOfOne(l);
      assert LnGrows(l, 1.0, c.multiplier);
      if step as real >= (l.ln(c.cap) - l.ln(c.initial)) / l.ln(c.multiplier) then c.cap
      else
        var scaled := Times(step, l.log2(c.multiplier));
        var growth := scaled.Floor;
        var fraction := scaled - growth as real;
        var (mantissa, exponent) := l.frexp(c.initial);
        Min(c.cap, Ldexp(l, mantissa, exponent + growth) * l.exp2(fraction))
  }

  /** The delay that the engine waits; `jitter` is the random draw. */
  function BackoffDelay(c: Settings, l: Library, step: int, jitter: real): real
    requires Legal(c) && Lawful(l)
  {
    var delay := ScaledDelay(c, l, if step < 0 then 0 else step);
    var floor := Min(MIN_BACKOFF_SECONDS, c.initial);
    Min(c.cap, Lengthened(Max(floor, delay), jitter))
  }

  // ---- The delay as meant --------------------------------------------------------

  /** initial * multiplier^step */
  function Growth(c: Settings, step: nat): real {
    c.initial * Power(c.multiplier, step)
  }

  function Geometric(c: Settings, step: nat): real {
    Min(c.cap, Growth(c, step))
  }

  lemma LnOfOne(l: Library)
    requires Lawful(l)
    ensures l.ln(1.0) == 0.0
  {
    assert LnOfProduct(l, 1.0, 1.0);
  }

  lemma {:induction false} PowerAtLeastOne(m: real, n: nat)
    requires m >= 1.0
    ensures Power(m, n) >= 1.0
  {
    if n > 0 {
      PowerAtLeastOne(m, n - 1);
      Scales(Power(m, n - 1), 1.0, m);
    }
  }

  lemma Scales(a: real, x: real, y: real)
    requires a >= 0.0 && x <= y
    ensures a * x <= a * y
  {
    assert a * y - a * x == a * (y - x);
  }

  lemma {:induction false} LnOfPower(l: Library, m: real, n: nat)
    requires Lawful(l) && m >= 1.0
    ensures l.ln(Power(m, n)) == Times(n, l.ln(m))
  {
    PowerAtLeastOne(m, n);
    if n == 0 {
      LnOfOne(l);
    } else {
      PowerAtLeastOne(m, n - 1);
      LnOfPower(l, m, n - 1);
      OneMore(n - 1, l.ln(m));
      assert LnOfProduct(l, m, Power(m, n - 1));
    }
  }

  lemma {:induction false} Exp2OfScaled(l: Library, m: real, n: nat)
    requires Lawful(l) && m >= 1.0
    ensures l.exp2(Times(n, l.log2(m))) == Power(m, n)
  {
    if n == 0 {
      assert Times(0, l.log2(m)) == 0.0;
    } else {
      Exp2OfScaled(l, m, n - 1);
      Exp2Step(l, m, Times(n - 1, l.log2(m)), Power(m, n - 1));
      OneMore(n - 1, l.log2(m));
    }
  }

  lemma Exp2Step(l: Library, m: real, before: real, power: real)
    requires Lawful(l) && m > 0.0 && l.exp2(before) == power
    ensures l.exp2(l.log2(m) + before) == m * power
  {
    assert Exp2UndoesLog2(l, m);
    assert Exp2OfSum(l, l.log2(m), before);
  }

  lemma SameProduct(a: real, b: real, x: real, y: real)
    requires a == x && b == y
    ensures a * b == x * y
  {
  }

  lemma OneMore(n: nat, x: real)
    ensures x + Times(n, x) == Times(n + 1, x)
  {
  }

  lemma LnOfNamedProduct(l: Library, x: real, y: real, product: real)
    requires Lawful(l) && x > 0.0 && y > 0.0 && product == x * y
    ensures l.ln(product) == l.ln(x) + l.ln(y)
  {
    assert LnOfProduct(l, x, y);
  }

  lemma LnOfGrowth(c: Settings, l: Library, step: nat)
    requires Legal(c) && Lawful(l) && c.initial > 0.0
    ensures l.ln(Growth(c, step)) == l.ln(c.initial) + Times(step, l.ln(c.multiplier))
  {
    PowerAtLeastOne(c.multiplier, step);
    LnOfPower(l, c.multiplier, step);
    LnOfNamedProduct(l, c.initial, Power(c.multiplier, step), Growth(c, step));
  }

  /** The comparison of logarithms asks whether the progression has reached the cap. */
  lemma SaturationTest(c: Settings, l: Library, step: nat)
    requires Legal(c) && Lawful(l) && c.initial > 0.0 && c.multiplier > 1.0
    ensures l.ln(c.multiplier) > 0.0
    ensures step as real >= (l.ln(c.cap) - l.ln(c.initial)) / l.ln(c.multiplier)
       <==> Growth(c, step) >= c.cap
  {
    LnOfOne(l);
    assert LnGrows(l, 1.0, c.multiplier);
    var rate, room := l.ln(c.multiplier), l.ln(c.cap) - l.ln(c.initial);
    DivisionTest(step as real, room, rate);
    PowerAtLeastOne(c.multiplier, step);
    var grown := Growth(c, step);
    Scales(c.initial, 1.0, Power(c.multiplier, step));
    LnOfGrowth(c, l, step);
    assert LnGrows(l, grown, c.cap) && LnGrows(l, c.cap, grown);
  }

  lemma DivisionTest(x: real, room: real, rate: real)
    requires rate > 0.0
    ensures x >= room / rate <==> x * rate >= room
  {
    var q := room / rate;
    assert q * rate == room;
    if x >= q {
      assert (x - q) * rate >= 0.0;
    } else {
      assert (q - x) * rate > 0.0;
    }
  }

  /** The mantissa and exponent arithmetic multiplies by the power it stands for. */
  lemma ScalingIsPower(c: Settings, l: Library, step: nat, growth: int)
    requires Legal(c) && Lawful(l) && c.initial > 0.0
    ensures Ldexp(l, l.frexp(c.initial).0, l.frexp(c.initial).1 + growth)
          * l.exp2(Times(step, l.log2(c.multiplier)) - growth as real)
         == Growth(c, step)
  {
    var scaled := Times(step, l.log2(c.multiplier));
    Exp2OfScaled(l, c.multiplier, step);
    var (mantissa, exponent) := l.frexp(c.initial);
    SplitScaling(l, mantissa, exponent, scaled, growth);
    assert FrexpSplits(l, c.initial);
    SameProduct(mantissa * l.exp2(exponent as real), l.exp2(scaled), c.initial, Power(c.multiplier, step));
  }

  lemma SplitScaling(l: Library, mantissa: real, exponent: int, scaled: real, growth: int)
    requires Lawful(l)
    ensures Ldexp(l, mantissa, exponent + growth) * l.exp2(scaled - growth as real)
         == (mantissa * l.exp2(exponent as real)) * l.exp2(scaled)
  {
    var e, g, f := exponent as real, growth as real, scaled - growth as real;
    assert (exponent + growth) as real == e + g;
    assert Exp2OfSum(l, e, g) && Exp2OfSum(l, g, f);
    assert g + f == scaled;
    Regroup(mantissa, l.exp2(e), l.exp2(g), l.exp2(f));
  }

  lemma Regroup(m: real, e: real, g: real, f: real)
    ensures (m * (e * g)) * f == (m * e) * (g * f)
  {
    assert m * (e * g) == (m * e) * g;
    assert ((m * e) * g) * f == (m * e) * (g * f);
  }

  lemma ScaledIsGeometric(c: Settings, l: Library, step: nat)
    requires Legal(c) && Lawful(l)
    ensures ScaledDelay(c, l, step) == Geometric(c, step)
  {
    GrowthAtLeastInitial(c, step);
    if c.initial == 0.0 {
      assert Growth(c, step) == 0.0;
    } else if c.initial >= c.cap {
    } else if c.multiplier == 1.0 {
      PowerOfOne(step);
      assert Growth(c, step) == c.initial;
    } else if step > 0 {
      SaturationTest(c, l, step);
      ScalingIsPower(c, l, step, Times(step, l.log2(c.multiplier)).Floor);
    }
  }

  lemma GrowthAtLeastInitial(c: Settings, step: nat)
    requires Legal(c)
    ensures Growth(c, step) >= c.initial
  {
    PowerAtLeastOne(c.multiplier, step);
    Scales(c.initial, 1.0, Power(c.multiplier, step));
  }

  lemma {:induction false} PowerOfOne(n: nat)
    ensures Power(1.0, n) == 1.0
  {
    if n > 0 {
      PowerOfOne(n - 1);
    }
  }

  lemma GeometricAtLeast(c: Settings, step: nat)
    requires Legal(c)
    ensures Min(c.cap, c.initial) <= Geometric(c, step) <= c.cap
  {
    GrowthAtLeastInitial(c, step);
  }

  // ---- Results -------------------------------------------------------------------

  /** Without jitter the delay is the capped geometric progression. */
  lemma DelayIsGeometric(c: Settings, l: Library, step: nat)
    requires Legal(c) && Lawful(l)
    ensures BackoffDelay(c, l, step, 0.0) == Geometric(c, step)
  {
    FloorIsIdle(c, l, step, 0.0);
    ScaledIsGeometric(c, l, step);
    GeometricAtLeast(c, step);
    TimesOne(ScaledDelay(c, l, step));
  }

  lemma TimesOne(x: real)
    ensures Lengthened(x, 0.0) == x
  {
  }

  /** Jitter only lengthens the delay, by at most 15 percent and never past the cap. */
  lemma JitterIsBounded(c: Settings, l: Library, step: nat, jitter: real)
    requires Legal(c) && Lawful(l) && 0.0 <= jitter <= BACKOFF_JITTER
    ensures Geometric(c, step) <= BackoffDelay(c, l, step, jitter)
    ensures BackoffDelay(c, l, step, jitter) <= Min(c.cap, 1.15 * Geometric(c, step))
  {
    FloorIsIdle(c, l, step, jitter);
    ScaledIsGeometric(c, l, step);
    GeometricAtLeast(c, step);
    Stretch(ScaledDelay(c, l, step), jitter);
  }

  lemma Stretch(d: real, jitter: real)
    requires d >= 0.0 && 0.0 <= jitter <= 0.15
    ensures d <= Lengthened(d, jitter) <= 1.15 * d
  {
    Scales(d, 1.0, 1.0 + jitter);
    Scales(d, 1.0 + jitter, 1.15);
  }

  /** The floor under the delay never changes the result. */
  lemma FloorIsIdle(c: Settings, l: Library, step: nat, jitter: real)
    requires Legal(c) && Lawful(l) && 0.0 <= jitter
    ensures BackoffDelay(c, l, step, jitter) == Min(c.cap, Lengthened(ScaledDelay(c, l, step), jitter))
  {
    ScaledIsGeometric(c, l, step);
    GeometricAtLeast(c, step);
    var floor, delay := Min(MIN_BACKOFF_SECONDS, c.initial), ScaledDelay(c, l, step);
    if floor > delay {
      assert delay == c.cap;
      Scales(floor, 1.0, 1.0 + jitter);
      Scales(delay, 1.0, 1.0 + jitter);
    }
  }

  /** A negative step counts as none. */
  lemma NegativeStepIsNone(c: Settings, l: Library, step: int, jitter: real)
    requires Legal(c) && Lawful(l) && step < 0 && 0.0 <= jitter
    ensures BackoffDelay(c, l, step, jitter) == Min(c.cap, Lengthened(Min(c.cap, c.initial), jitter))
  {
    FloorIsIdle(c, l, 0, jitter);
    ScaledIsGeometric(c, l, 0);
  }

  /** The delay grows with the step, and once it reaches the cap it stays there. */
  lemma DelayGrowsAndSaturates(c: Settings, step: nat, later: nat)
    requires Legal(c) && step <= later
    ensures Geometric(c, step) <= Geometric(c, later)
    ensures Geometric(c, step) == c.cap ==> Geometric(c, later) == c.cap
  {
    PowerGrows(c.multiplier, step, later);
    Scales(c.initial, Power(c.multiplier, step), Power(c.multiplier, later));
  }

  lemma {:induction false} PowerGrows(m: real, n: nat, k: nat)
    requires m >= 1.0 && n <= k
    ensures Power(m, n) <= Power(m, k)
    decreases k - n
  {
    if n < k {
      PowerAtLeastOne(m, n);
      Scales(Power(m, n), 1.0, m);
      PowerGrows(m, n + 1, k);
    }
  }
}
