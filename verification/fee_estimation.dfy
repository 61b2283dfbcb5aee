/**
  * The fee estimator of the fee-payer relay (`calculateFeePayerFees`): the fee attached
  * to a relayed transaction is the base fee projected over `BaseFeeDeltaBlocks` blocks of
  * maximal increase, floored at `BaseFeeDeltaBlocks`, times the gas limit. All arithmetic
  * is exact; the three ledger queries it makes are given as their answers.
  */
module FeeEstimation {
  import opened Common

  /** Number of blocks whose worst-case base-fee increase a quote must survive. */
  const BaseFeeDeltaBlocks: nat := 2

  /** Answer of the base-fee query at the latest height. */
  datatype BaseFeeAnswer =
    | BaseFeeError           // the query returned an error
    | NoBaseFee              // the query succeeded but carried no base fee
    | BaseFeeIs(value: int)  // an sdkmath.Int: signed, arbitrary precision

  /** What the ledger query client answers to the queries of one estimate. */
  datatype FeeQueries = FeeQueries(
    latestHeight: Option<int>,  // None: the latest-block query failed
    baseFee: BaseFeeAnswer,     // the base fee at that height
    denominator: Option<nat>)   // BaseFeeChangeDenominator; None: the params query failed

  datatype FeeError = LatestBlockQueryFailed | BaseFeeQueryFailed | ParamsQueryFailed

  datatype FeeQuote = Fee(amount: int) | FeeFailure(error: FeeError)

  /** `big.Int.Exp` without a modulus. */
  function Pow(b: nat, n: nat): (r: nat)
    ensures b > 0 ==> r > 0
  {
    if n == 0 then 1 else b * Pow(b, n - 1)
  }

  /**
    * True when the estimate reaches the division with a zero denominator; Go's
    * `big.Int.Div` panics there, so no caller may supply such answers.
    */
  predicate DividesByZero(q: FeeQueries) {
    q.latestHeight.Some? && q.baseFee.BaseFeeIs? && q.baseFee.value != 0 && q.denominator == Some(0)
  }

  /** X·(a+1)^L / a^L with floor (Euclidean) division, as `big.Int.Div` computes it. */
  function ProjectedBaseFee(x: int, a: nat): (r: int)
    requires a > 0
  {
    x * Pow(a + 1, BaseFeeDeltaBlocks) / Pow(a, BaseFeeDeltaBlocks)
  }

  /** The per-gas price quoted for a non-zero base fee x. */
  function PerGasFee(x: int, a: nat): (r: int)
    requires a > 0
  {
    Max(ProjectedBaseFee(x, a), 1 * BaseFeeDeltaBlocks)
  }

  /**
    * The quote for a transaction with gas limit `gas`. A zero base fee short-circuits to a
    * zero amount with no error (see `CalculateFeePayerFeesAsWritten` for what the code
    * actually returns there).
    */
  function CalculateFeePayerFees(gas: nat, q: FeeQueries): (r: FeeQuote)
    requires !DividesByZero(q)
    ensures r.Fee? ==> r.amount >= 0
    ensures q.latestHeight.None? ==> r == FeeFailure(LatestBlockQueryFailed)
    ensures q.latestHeight.Some? && !q.baseFee.BaseFeeIs? ==> r == FeeFailure(BaseFeeQueryFailed)
    ensures q.latestHeight.Some? && q.baseFee == BaseFeeIs(0) ==> r == Fee(0)
    ensures q.latestHeight.Some? && q.baseFee.BaseFeeIs? && q.baseFee.value != 0 ==>
      match q.denominator
      case None => r == FeeFailure(ParamsQueryFailed)
      case Some(a) => r == Fee(Max(q.baseFee.value * ((a + 1) * (a + 1)) / (a * a), 2) * gas)
  {
    if q.latestHeight.None? then FeeFailure(LatestBlockQueryFailed)
    else if !q.baseFee.BaseFeeIs? then FeeFailure(BaseFeeQueryFailed)
    else if q.baseFee.value == 0 then Fee(0)
    else if q.denominator.None? then FeeFailure(ParamsQueryFailed)
    else
      var x, a := q.baseFee.value, q.denominator.value;
      PowTwo(a);
      PowTwo(a + 1);
      Fee(PerGasFee(x, a) * gas)
  }

  // ---------------------------------------------------------------------------------
  // Arithmetic facts used below.

  /** Multiplying by a natural number preserves order. */
  lemma {:induction false} MulMonotone(d: nat, u: int, v: int)
    ensures u <= v ==> d * u <= d * v
  {
    if d > 0 {
      MulMonotone(d - 1, u, v);
      assert d * u == (d - 1) * u + u;
      assert d * v == (d - 1) * v + v;
    }
  }

  /** If d·z ≤ n then z ≤ ⌊n/d⌋. */
  lemma DivLowerBound(z: int, n: int, d: nat)
    requires d > 0 && d * z <= n
    ensures z <= n / d
  {
    var q, r := n / d, n % d;
    assert n == d * q + r && r < d;
    assert d * (q + 1) == d * q + d;
    MulMonotone(d, q + 1, z);
  }

  lemma DivMonotone(n: int, m: int, d: nat)
    requires d > 0 && n <= m
    ensures n / d <= m / d
  {
    assert n == d * (n / d) + n % d;
    DivLowerBound(n / d, m, d);
  }

  /** A multiple of g leaves no remainder modulo g. */
  lemma MultipleMod(p: int, g: nat)
    requires g > 0
    ensures (p * g) % g == 0
  {
    var q, r := (p * g) / g, (p * g) % g;
    assert p * g == g * q + r && 0 <= r < g;
    var k := p - q;
    assert g * k == r;
    MulMonotone(g, 1, k);
    MulMonotone(g, k, -1);
  }

  lemma {:induction false} PowMonotone(b: nat, c: nat, n: nat)
    requires b <= c
    ensures Pow(b, n) <= Pow(c, n)
  {
    if n > 0 {
      PowMonotone(b, c, n - 1);
      MulMonotone(Pow(b, n - 1), b, c);
      MulMonotone(c, Pow(b, n - 1), Pow(c, n - 1));
    }
  }

  lemma PowTwo(b: nat)
    ensures Pow(b, 2) == b * b
  {
    assert Pow(b, 1) == b;
  }

  // ---------------------------------------------------------------------------------
  // Properties of the quote.

  /** For a positive base fee the projection never falls below the base fee itself. */
  lemma ProjectionAtLeastBaseFee(x: int, a: nat)
    requires x > 0 && a > 0
    ensures ProjectedBaseFee(x, a) >= x
  {
    var num, den := Pow(a + 1, BaseFeeDeltaBlocks), Pow(a, BaseFeeDeltaBlocks);
    PowMonotone(a, a + 1, BaseFeeDeltaBlocks);
    MulMonotone(x, den, num);
    assert den * x == x * den;
    DivLowerBound(x, x * num, den);
  }

  /**
    * For a positive base fee the per-gas price is at least the base fee and at least
    * `BaseFeeDeltaBlocks`, so the amount is at least x·gas and at least 2·gas, and is a
    * multiple of the gas limit.
    */
  lemma PositiveBaseFeeQuote(gas: nat, q: FeeQueries)
    requires q.latestHeight.Some? && q.baseFee.BaseFeeIs? && q.baseFee.value > 0
    requires q.denominator.Some? && q.denominator.value > 0
    ensures CalculateFeePayerFees(gas, q).Fee?
    ensures CalculateFeePayerFees(gas, q).amount == PerGasFee(q.baseFee.value, q.denominator.value) * gas
    ensures PerGasFee(q.baseFee.value, q.denominator.value) >= q.baseFee.value
    ensures PerGasFee(q.baseFee.value, q.denominator.value) >= BaseFeeDeltaBlocks
    ensures CalculateFeePayerFees(gas, q).amount >= q.baseFee.value * gas
    ensures CalculateFeePayerFees(gas, q).amount >= BaseFeeDeltaBlocks * gas
    ensures gas > 0 ==> CalculateFeePayerFees(gas, q).amount % gas == 0
  {
    var x, a := q.baseFee.value, q.denominator.value;
    ProjectionAtLeastBaseFee(x, a);
    var p := PerGasFee(x, a);
    assert CalculateFeePayerFees(gas, q) == Fee(p * gas);
    MulMonotone(gas, x, p);
    MulMonotone(gas, BaseFeeDeltaBlocks, p);
    if gas > 0 {
      MultipleMod(p, gas);
    }
  }

  /** A negative base fee projects below zero, so the floor of 2 per gas applies. */
  lemma NegativeBaseFeeQuote(gas: nat, q: FeeQueries)
    requires q.latestHeight.Some? && q.baseFee.BaseFeeIs? && q.baseFee.value < 0
    requires q.denominator.Some? && q.denominator.value > 0
    ensures CalculateFeePayerFees(gas, q) == Fee(BaseFeeDeltaBlocks * gas)
  {
    var x, a := q.baseFee.value, q.denominator.value;
    var num, den := Pow(a + 1, BaseFeeDeltaBlocks), Pow(a, BaseFeeDeltaBlocks);
    MulMonotone(num, x, -1);
    assert x * num <= -num <= -1;
    DivMonotone(x * num, -1, den);
    assert ProjectedBaseFee(x, a) < 0;
  }

  /** A higher base fee never yields a lower per-gas price. */
  lemma PerGasFeeMonotone(x: int, y: int, a: nat)
    requires a > 0 && x <= y
    ensures PerGasFee(x, a) <= PerGasFee(y, a)
  {
    var num, den := Pow(a + 1, BaseFeeDeltaBlocks), Pow(a, BaseFeeDeltaBlocks);
    MulMonotone(num, x, y);
    assert x * num <= y * num;
    DivMonotone(x * num, y * num, den);
  }

  /**
    * The largest base fee one block later under a change denominator `a` when only the
    * proportional part counts: the base fee grows by at most its a-th part per block (the
    * bound the projection formula assumes).
    */
  function MaxNextBaseFee(x: nat, a: nat): (r: nat)
    requires a > 0
  {
    x + x / a
  }

  /** The largest base fee `n` blocks later. */
  function MaxBaseFeeAfter(x: nat, a: nat, n: nat): (r: nat)
    requires a > 0
  {
    if n == 0 then x else MaxNextBaseFee(MaxBaseFeeAfter(x, a, n - 1), a)
  }

  /** One block of maximal increase multiplies the base fee by at most (a+1)/a. */
  lemma MaxNextBaseFeeBound(y: nat, a: nat)
    requires a > 0
    ensures a * MaxNextBaseFee(y, a) <= (a + 1) * y
  {
    assert y == a * (y / a) + y % a;
    assert a * MaxNextBaseFee(y, a) == a * y + a * (y / a);
    assert (a + 1) * y == a * y + y;
  }

  /** The arithmetic of one induction step of `MaxBaseFeeAfterBound`. */
  lemma BoundStep(a: nat, pa: nat, pc: nat, x: nat, y: nat, z: nat)
    requires a * z <= (a + 1) * y
    requires pa * y <= x * pc
    ensures (a * pa) * z <= x * ((a + 1) * pc)
  {
    MulMonotone(pa, a * z, (a + 1) * y);
    MulMonotone(a + 1, pa * y, x * pc);
    calc {
      (a * pa) * z;
      pa * (a * z);
    <=
      pa * ((a + 1) * y);
      (a + 1) * (pa * y);
    <=
      (a + 1) * (x * pc);
      x * ((a + 1) * pc);
    }
  }

  /** a^n · MaxBaseFeeAfter(x, a, n) ≤ x · (a+1)^n: the per-block floors only lose. */
  lemma {:induction false} MaxBaseFeeAfterBound(x: nat, a: nat, n: nat)
    requires a > 0
    ensures Pow(a, n) * MaxBaseFeeAfter(x, a, n) <= x * Pow(a + 1, n)
  {
    if n > 0 {
      MaxBaseFeeAfterBound(x, a, n - 1);
      var y := MaxBaseFeeAfter(x, a, n - 1);
      MaxNextBaseFeeBound(y, a);
      BoundStep(a, Pow(a, n - 1), Pow(a + 1, n - 1), x, y, MaxNextBaseFee(y, a));
    }
  }

  /**
    * The quote's per-gas price covers the largest base fee the ledger can reach after
    * `BaseFeeDeltaBlocks` blocks of maximal increase, so a quoted transaction is not
    * priced out in that window.
    */
  lemma CoversMaximalIncrease(x: nat, a: nat)
    requires a > 0
    ensures MaxBaseFeeAfter(x, a, BaseFeeDeltaBlocks) <= ProjectedBaseFee(x, a)
    ensures MaxBaseFeeAfter(x, a, BaseFeeDeltaBlocks) <= PerGasFee(x, a)
  {
    MaxBaseFeeAfterBound(x, a, BaseFeeDeltaBlocks);
    DivLowerBound(MaxBaseFeeAfter(x, a, BaseFeeDeltaBlocks), x * Pow(a + 1, BaseFeeDeltaBlocks),
                  Pow(a, BaseFeeDeltaBlocks));
  }

  // ---------------------------------------------------------------------------------
  // Maximal increase with a minimum step of 1 per block.

  /**
    * The largest base fee one block later when every increase is at least 1, the minimum
    * delta the comment beside the price floor names.
    */
  function MinDeltaNextBaseFee(y: nat, a: nat): (r: nat)
    requires a > 0
  {
    y + Max(y / a, 1)
  }

  /** The largest base fee `n` blocks later under the minimum-delta rule. */
  function MinDeltaBaseFeeAfter(x: nat, a: nat, n: nat): (r: nat)
    requires a > 0
  {
    if n == 0 then x else MinDeltaNextBaseFee(MinDeltaBaseFeeAfter(x, a, n - 1), a)
  }

  /** From a base fee of at least `a`, the minimum step never binds: both rules agree. */
  lemma {:induction false} MinDeltaAgreesFromDenominator(x: nat, a: nat, n: nat)
    requires 0 < a <= x
    ensures MinDeltaBaseFeeAfter(x, a, n) == MaxBaseFeeAfter(x, a, n)
    ensures MaxBaseFeeAfter(x, a, n) >= a
  {
    if n > 0 {
      MinDeltaAgreesFromDenominator(x, a, n - 1);
      var y := MaxBaseFeeAfter(x, a, n - 1);
      DivLowerBound(1, y, a);
    }
  }

  /** From a base fee of at least `a`, the quote also covers the minimum-delta rule. */
  lemma CoversMinDeltaIncrease(x: nat, a: nat)
    requires 0 < a <= x
    ensures MinDeltaBaseFeeAfter(x, a, BaseFeeDeltaBlocks) <= PerGasFee(x, a)
  {
    MinDeltaAgreesFromDenominator(x, a, BaseFeeDeltaBlocks);
    CoversMaximalIncrease(x, a);
  }

  /** Below the denominator every block adds exactly the minimum step. */
  lemma MinDeltaBelowDenominator(x: nat, a: nat)
    requires x < a
    ensures MinDeltaBaseFeeAfter(x, a, BaseFeeDeltaBlocks) == x + BaseFeeDeltaBlocks
  {
    assert MinDeltaBaseFeeAfter(x, a, 1) == x + 1;
    DivMonotone(x + 1, a, a);
  }

  /**
    * Under the minimum-delta rule the quote falls short for small positive base fees:
    * 1 and 5 with denominator 8 reach 3 and 7 in two blocks, above prices 2 and 6.
    */
  lemma MinDeltaUnderprices()
    ensures MinDeltaBaseFeeAfter(1, 8, BaseFeeDeltaBlocks) == 3 && PerGasFee(1, 8) == 2
    ensures MinDeltaBaseFeeAfter(5, 8, BaseFeeDeltaBlocks) == 7 && PerGasFee(5, 8) == 6
  {
    MinDeltaBelowDenominator(1, 8);
    MinDeltaBelowDenominator(5, 8);
  }

  // ---------------------------------------------------------------------------------
  // The zero-base-fee path as the code is written.

  /** An `sdkmath.Int` as Go holds it: its zero value wraps a nil `*big.Int`. */
  datatype SdkInt = NilInt | SdkInt(value: int)

  /**
    * `calculateFeePayerFees` as written: on a zero base fee it builds `sdkmath.NewInt(0)`,
    * discards it, and returns the named result `amount` still at its zero value (a nil
    * big integer) with no error. Every other path agrees with `CalculateFeePayerFees`.
    */
  function CalculateFeePayerFeesAsWritten(gas: nat, q: FeeQueries): (r: (SdkInt, Option<FeeError>))
    requires !DividesByZero(q)
    ensures q.latestHeight.Some? && q.baseFee == BaseFeeIs(0) ==> r == (NilInt, None)
    ensures r.0.SdkInt? <==> CalculateFeePayerFees(gas, q).Fee? && q.baseFee != BaseFeeIs(0)
    ensures r.0.SdkInt? ==> r.0.value == CalculateFeePayerFees(gas, q).amount
    ensures r.1.None? <==> CalculateFeePayerFees(gas, q).Fee?
  {
    if q.latestHeight.Some? && q.baseFee == BaseFeeIs(0) then (NilInt, None)
    else match CalculateFeePayerFees(gas, q)
      case Fee(amount) => (SdkInt(amount), None)
      case FeeFailure(e) => (NilInt, Some(e))
  }
}
