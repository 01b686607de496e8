/**
 * The amount reconciler: `getAmountOut` and `getAmountIn` convert one side of
 * the order into the other at a trigger price and floor the result to the
 * destination token's decimals.
 */
module Amounts {
  import opened Wrappers
  import opened Numbers

  /**
   * A JavaScript number as the conversions can produce it: a finite value, an
   * infinity (a non-zero amount divided by a zero price) or NaN (an unreadable
   * entry, or zero divided by zero).
   */
  datatype Conversion = Finite(value: real) | Infinite | NotANumber

  /** The exact amount before flooring: the product, or the quotient when `divide` holds. */
  function Exact(amount: real, price: real, divide: bool): real
    requires divide ==> price != 0.0
  {
    if divide then amount / price else amount * price
  }

  /**
   * `floorToDecimal(parseFloat(amount) op parseFloat(price), decimals)` where
   * `op` is division when `divide` holds and multiplication otherwise.
   */
  function Convert(amount: Option<real>, price: Option<real>, divide: bool, decimals: nat): (r: Conversion)
    ensures r.NotANumber? <==>
              amount.None? || price.None? || (divide && amount.value == 0.0 && price.value == 0.0)
    ensures r.Infinite? <==>
              amount.Some? && price.Some? && divide && price.value == 0.0 && amount.value != 0.0
    ensures r.Finite? ==>
              && (divide ==> price.value != 0.0)
              && OnGrid(r.value, decimals)
              && r.value <= Exact(amount.value, price.value, divide) < r.value + Unit(decimals)
  {
    if amount.None? || price.None? then NotANumber
    else if divide && price.value == 0.0 then
      (if amount.value == 0.0 then NotANumber else Infinite)
    else Finite(FloorToDecimal(Exact(amount.value, price.value, divide), decimals))
  }

  /** `getAmountOut`: input times price, or input over price when flipped, floored to the output decimals. */
  function AmountOut(amountIn: Option<real>, flip: bool, price: Option<real>, outDecimals: nat): (r: Conversion)
    ensures r.Finite? ==> amountIn.Some? && price.Some? && (flip ==> price.value != 0.0)
    ensures r.Finite? ==>
              var exact := if flip then amountIn.value / price.value else amountIn.value * price.value;
              r.value <= exact < r.value + Unit(outDecimals) && OnGrid(r.value, outDecimals)
    ensures amountIn.Some? && price.Some? && price.value > 0.0 ==> r.Finite?
  {
    Convert(amountIn, price, flip, outDecimals)
  }

  /** `getAmountIn`: output over price, or output times price when flipped, floored to the input decimals. */
  function AmountIn(amountOut: Option<real>, flip: bool, price: Option<real>, inDecimals: nat): (r: Conversion)
    ensures r.Finite? ==> amountOut.Some? && price.Some? && (!flip ==> price.value != 0.0)
    ensures r.Finite? ==>
              var exact := if flip then amountOut.value * price.value else amountOut.value / price.value;
              r.value <= exact < r.value + Unit(inDecimals) && OnGrid(r.value, inDecimals)
    ensures amountOut.Some? && price.Some? && price.value > 0.0 ==> r.Finite?
  {
    Convert(amountOut, price, !flip, inDecimals)
  }

  /** At a positive price a conversion is the floored exact value. */
  lemma ConvertAtPositivePrice(amount: real, price: real, divide: bool, decimals: nat)
    requires price > 0.0
    ensures Convert(Some(amount), Some(price), divide, decimals)
            == Finite(FloorToDecimal(Exact(amount, price, divide), decimals))
  {
  }

  /** Undoing a multiplication or division by the same positive price gives back at most the start. */
  lemma InverseExactBelow(a: real, out: real, p: real, flip: bool)
    requires p > 0.0
    requires out <= Exact(a, p, flip)
    ensures Exact(out, p, !flip) <= a
  {
    if flip {
      MultiplyMonotone(out, a / p, p);
      assert (a / p) * p == a;
    } else {
      DivideMonotone(out, a * p, p);
      assert (a * p) / p == a;
    }
  }

  /**
   * Converting an input amount to an output amount and back, at a fixed
   * positive price, never yields more than the original input.
   */
  lemma {:induction false} RoundTripNeverInflates(a: real, flip: bool, p: real, outDecimals: nat, inDecimals: nat)
    requires p > 0.0
    ensures var out := AmountOut(Some(a), flip, Some(p), outDecimals);
            && out.Finite?
            && AmountIn(Some(out.value), flip, Some(p), inDecimals).Finite?
            && AmountIn(Some(out.value), flip, Some(p), inDecimals).value <= a
  {
    ConvertAtPositivePrice(a, p, flip, outDecimals);
    var out := FloorToDecimal(Exact(a, p, flip), outDecimals);
    ConvertAtPositivePrice(out, p, !flip, inDecimals);
    var back := FloorToDecimal(Exact(out, p, !flip), inDecimals);
    InverseExactBelow(a, out, p, flip);
    assert back <= a;
  }

  /** Undoing an exact value that fell short by less than `u` falls short by less than `u` carried back. */
  lemma InverseExactLoss(a: real, out: real, u: real, p: real, flip: bool)
    requires p > 0.0
    requires Exact(a, p, flip) < out + u
    ensures a < Exact(out, p, !flip) + Exact(u, p, !flip)
  {
    if flip {
      assert a / p < out + u;
      MultiplyMonotone(a / p, out + u, p);
      assert (a / p) * p == a;
      assert (out + u) * p == out * p + u * p;
    } else {
      assert a * p < out + u;
      DivideMonotone(a * p, out + u, p);
      assert (a * p) / p == a;
      assert (out + u) / p == out / p + u / p;
      assert a * p != out + u;
      assert (a * p) / p != (out + u) / p;
    }
  }

  /**
   * How much the round trip can lose: one unit of the input decimals plus one
   * unit of the output decimals carried back through the price.
   */
  lemma {:induction false} RoundTripLossBound(a: real, flip: bool, p: real, outDecimals: nat, inDecimals: nat)
    requires p > 0.0
    ensures var out := AmountOut(Some(a), flip, Some(p), outDecimals);
            var back := AmountIn(Some(out.value), flip, Some(p), inDecimals);
            a - back.value < Unit(inDecimals) + Exact(Unit(outDecimals), p, !flip)
  {
    ConvertAtPositivePrice(a, p, flip, outDecimals);
    var out := FloorToDecimal(Exact(a, p, flip), outDecimals);
    ConvertAtPositivePrice(out, p, !flip, inDecimals);
    var back := FloorToDecimal(Exact(out, p, !flip), inDecimals);
    InverseExactLoss(a, out, Unit(outDecimals), p, flip);
  }

  /**
   * The round trip can lose far more than one unit of the input decimals: one
   * input token at a flipped price of 1000, with an output token of 0
   * decimals, converts to 0 and back to 0.
   */
  lemma RoundTripCanLoseWholeAmount()
    ensures AmountOut(Some(1.0), true, Some(1000.0), 0) == Finite(0.0)
    ensures AmountIn(Some(0.0), true, Some(1000.0), 6) == Finite(0.0)
  {
    assert FloorToDecimal(1.0 / 1000.0, 0) == 0.0 by {
      FloorToDecimalIsGreatest(1.0 / 1000.0, 0.0, 0);
    }
    assert FloorToDecimal(0.0, 6) == 0.0 by {
      FloorToDecimalIsGreatest(0.0, 0.0, 6);
    }
  }
}
