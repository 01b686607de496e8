/**
 * The trigger-order form state and its transitions: the edit handlers of the
 * amount and trigger inputs, the order-type and flip toggles, and the two
 * effects that fill or recompute the trigger price. Each transition runs to
 * completion before the next, so each is a function from state to state.
 */
module Form {
  import opened Wrappers
  import opened Numbers
  import opened Market
  import opened Trigger
  import opened Amounts
  import opened Validation

  /** Whether an input change came from the user typing (`'event'`) or from a prop update. */
  datatype ChangeSource = UserEvent | Programmatic

  /**
   * The form as the store and the component hold it. Each entry is `None` when
   * the text is empty or unreadable and `Some(x)` when it reads as the number x.
   */
  datatype FormState = FormState(
    amountIn: Option<real>,
    amountOut: Option<real>,
    triggerPrice: Option<real>,
    flip: bool,
    orderType: OrderType,
    errors: FormErrors)

  /** `!parseFloat(v)`: the entry is empty, unreadable or zero. */
  predicate IsCleared(v: Option<real>)
  {
    v.None? || v.value == 0.0
  }

  /** `parseFloat(v) > 0`. */
  predicate IsPositive(v: Option<real>)
  {
    v.Some? && v.value > 0.0
  }

  /** `amountInAsDecimal`: the entry's number, or 0 when it is empty or unreadable. */
  function AmountInNumber(v: Option<real>): (n: real)
    ensures n > 0.0 <==> IsPositive(v)
    ensures n != 0.0 ==> v == Some(n)
    ensures IsCleared(v) ==> n == 0.0
  {
    v.GetOr(0.0)
  }

  /** `setAmountInFormValue`: store the entry; a cleared entry also clears the output amount. */
  function SetAmountIn(s: FormState, v: Option<real>): (r: FormState)
    ensures r.amountIn == v
    ensures r.amountOut == (if IsCleared(v) then None else s.amountOut)
    ensures r.(amountIn := s.amountIn, amountOut := s.amountOut) == s
  {
    s.(amountIn := v, amountOut := if IsCleared(v) then None else s.amountOut)
  }

  /** `setAmountOutFormValue`: store the entry; a cleared entry also clears the input amount. */
  function SetAmountOut(s: FormState, v: Option<real>): (r: FormState)
    ensures r.amountOut == v
    ensures r.amountIn == (if IsCleared(v) then None else s.amountIn)
    ensures r.(amountIn := s.amountIn, amountOut := s.amountOut) == s
  {
    s.(amountOut := v, amountIn := if IsCleared(v) then None else s.amountIn)
  }

  /**
   * `setAmountOutFormValue(x.toString())` for a conversion result: "NaN" reads
   * as cleared, "Infinity" does not clear the other side but is not a number
   * the form can hold.
   */
  function WriteAmountOut(s: FormState, c: Conversion): (r: FormState)
    ensures r.(amountIn := s.amountIn, amountOut := s.amountOut) == s
    ensures c.Finite? && c.value != 0.0 ==> r.amountOut == Some(c.value) && r.amountIn == s.amountIn
    ensures c.Finite? && c.value == 0.0 ==> r.amountOut == Some(0.0) && r.amountIn == None
    ensures c.Infinite? ==> r.amountOut == None && r.amountIn == s.amountIn
    ensures c.NotANumber? ==> r.amountOut == None && r.amountIn == None
  {
    match c
    case Finite(v) => SetAmountOut(s, Some(v))
    case Infinite => s.(amountOut := None)
    case NotANumber => SetAmountOut(s, None)
  }

  /** `setAmountInFormValue(x.toString())` for a conversion result. */
  function WriteAmountIn(s: FormState, c: Conversion): (r: FormState)
    ensures r.(amountIn := s.amountIn, amountOut := s.amountOut) == s
    ensures c.Finite? && c.value != 0.0 ==> r.amountIn == Some(c.value) && r.amountOut == s.amountOut
    ensures c.Finite? && c.value == 0.0 ==> r.amountIn == Some(0.0) && r.amountOut == None
    ensures c.Infinite? ==> r.amountIn == None && r.amountOut == s.amountOut
    ensures c.NotANumber? ==> r.amountIn == None && r.amountOut == None
  {
    match c
    case Finite(v) => SetAmountIn(s, Some(v))
    case Infinite => s.(amountIn := None)
    case NotANumber => SetAmountIn(s, None)
  }

  /**
   * A positive `amountIn` at a positive trigger price sits next to what it
   * buys, floored to the output decimals, and that is not zero (a zero output
   * would have cleared the input amount).
   */
  predicate Reconciled(s: FormState, outDecimals: nat)
  {
    IsPositive(s.amountIn) && IsPositive(s.triggerPrice) ==>
      var out := FloorToDecimal(Exact(s.amountIn.value, s.triggerPrice.value, s.flip), outDecimals);
      out != 0.0 && s.amountOut == Some(out)
  }

  /**
   * `handleMax` (and the body shared with `handleAmountInChange`): store the
   * input amount, then recompute the output amount when the new amount is
   * positive and a trigger price is set.
   */
  function EnterAmountIn(s: FormState, m: Snapshot, v: Option<real>): (r: FormState)
    ensures r.triggerPrice == s.triggerPrice && r.flip == s.flip && r.orderType == s.orderType
    ensures r.errors == s.errors
    ensures IsCleared(v) ==> r.amountIn == v && r.amountOut == None
    ensures IsPositive(v) && s.triggerPrice.None? ==> r.amountIn == v && r.amountOut == s.amountOut
    ensures IsPositive(v) && IsPositive(s.triggerPrice) ==>
              var out := FloorToDecimal(Exact(v.value, s.triggerPrice.value, s.flip), MintDecimals(m.outputBank));
              if out == 0.0 then r.amountIn == None && r.amountOut == Some(0.0)
              else r.amountIn == v && r.amountOut == Some(out)
    ensures IsPositive(v) && s.triggerPrice == Some(0.0) ==>
              if s.flip then r.amountIn == v && r.amountOut == None
              else r.amountIn == None && r.amountOut == Some(0.0)
  {
    var r := SetAmountIn(s, v);
    ZeroFloorsToZero(MintDecimals(m.outputBank));
    if IsPositive(v) && s.triggerPrice.Some? then
      WriteAmountOut(r, AmountOut(v, s.flip, s.triggerPrice, MintDecimals(m.outputBank)))
    else r
  }

  /** `handleAmountInChange`: ignore prop updates; otherwise clear the errors and enter the amount. */
  function AmountInChanged(s: FormState, m: Snapshot, v: Option<real>, source: ChangeSource): (r: FormState)
    ensures source == Programmatic ==> r == s
    ensures source == UserEvent ==> r == EnterAmountIn(s.(errors := map[]), m, v) && r.errors == map[]
  {
    if source == Programmatic then s else EnterAmountIn(s.(errors := map[]), m, v)
  }

  /**
   * `handleAmountOutChange`: ignore prop updates; otherwise clear the errors,
   * store the output amount and, when it is positive and a trigger price is
   * set, recompute the input amount floored to the input decimals.
   */
  function AmountOutChanged(s: FormState, m: Snapshot, v: Option<real>, source: ChangeSource): (r: FormState)
    ensures source == Programmatic ==> r == s
    ensures source == UserEvent ==>
              && r.errors == map[]
              && r.triggerPrice == s.triggerPrice && r.flip == s.flip && r.orderType == s.orderType
    ensures source == UserEvent && IsCleared(v) ==> r.amountOut == v && r.amountIn == None
    ensures source == UserEvent && IsPositive(v) && s.triggerPrice.None? ==>
              r.amountOut == v && r.amountIn == s.amountIn
    ensures source == UserEvent && IsPositive(v) && IsPositive(s.triggerPrice) ==>
              var a := FloorToDecimal(Exact(v.value, s.triggerPrice.value, !s.flip), MintDecimals(m.inputBank));
              if a == 0.0 then r.amountOut == None && r.amountIn == Some(0.0)
              else r.amountOut == v && r.amountIn == Some(a)
    ensures source == UserEvent && IsPositive(v) && s.triggerPrice == Some(0.0) ==>
              if s.flip then r.amountOut == None && r.amountIn == Some(0.0)
              else r.amountOut == v && r.amountIn == None
  {
    ZeroFloorsToZero(MintDecimals(m.inputBank));
    if source == Programmatic then s
    else
      var r := SetAmountOut(s.(errors := map[]), v);
      if IsPositive(v) && s.triggerPrice.Some? then
        WriteAmountIn(r, AmountIn(v, s.flip, s.triggerPrice, MintDecimals(m.inputBank)))
      else r
  }

  /**
   * `handleAmountInUi` (slider and percentage buttons): store the input
   * amount, clear the errors and, whenever a trigger price is set, recompute
   * the output amount, with no positivity check on the amount.
   */
  function AmountInFromSlider(s: FormState, m: Snapshot, v: Option<real>): (r: FormState)
    ensures r.errors == map[]
    ensures r.triggerPrice == s.triggerPrice && r.flip == s.flip && r.orderType == s.orderType
    ensures s.triggerPrice.None? ==> r.amountIn == v && r.amountOut == (if IsCleared(v) then None else s.amountOut)
    ensures v.None? && s.triggerPrice.Some? ==> r.amountIn == None && r.amountOut == None
    ensures IsPositive(v) && s.triggerPrice.Some? ==> r == EnterAmountIn(s.(errors := map[]), m, v)
    ensures v == Some(0.0) && s.triggerPrice.Some? ==>
              && r.amountIn == None
              && r.amountOut == (if s.flip && s.triggerPrice.value == 0.0 then None else Some(0.0))
  {
    ZeroFloorsToZero(MintDecimals(m.outputBank));
    var r := SetAmountIn(s, v).(errors := map[]);
    if s.triggerPrice.Some? then
      WriteAmountOut(r, AmountOut(v, s.flip, s.triggerPrice, MintDecimals(m.outputBank)))
    else r
  }

  /**
   * `handleTriggerPrice`: ignore prop updates; otherwise clear the errors,
   * store the trigger and, when both it and the input amount are positive,
   * recompute the output amount from the existing input amount.
   */
  function TriggerPriceChanged(s: FormState, m: Snapshot, v: Option<real>, source: ChangeSource): (r: FormState)
    ensures source == Programmatic ==> r == s
    ensures source == UserEvent ==>
              && r.errors == map[] && r.triggerPrice == v
              && r.flip == s.flip && r.orderType == s.orderType
    ensures source == UserEvent && !(IsPositive(v) && IsPositive(s.amountIn)) ==>
              r.amountIn == s.amountIn && r.amountOut == s.amountOut
    ensures source == UserEvent && IsPositive(v) && IsPositive(s.amountIn) ==>
              var out := FloorToDecimal(Exact(s.amountIn.value, v.value, s.flip), MintDecimals(m.outputBank));
              if out == 0.0 then r.amountIn == None && r.amountOut == Some(0.0)
              else r.amountIn == s.amountIn && r.amountOut == Some(out)
  {
    if source == Programmatic then s
    else
      var r := s.(errors := map[], triggerPrice := v);
      if IsPositive(v) && IsPositive(s.amountIn) then
        WriteAmountOut(r, AmountOut(s.amountIn, s.flip, v, MintDecimals(m.outputBank)))
      else r
  }

  /** `handleTokenSelect`: opening the token list clears the errors and the trigger price. */
  function TokenSelectOpened(s: FormState): (r: FormState)
    ensures r.errors == map[] && r.triggerPrice == None
    ensures r.(errors := s.errors, triggerPrice := s.triggerPrice) == s
  {
    s.(errors := map[], triggerPrice := None)
  }

  /**
   * The default-trigger effect: with a quote, no trigger entered and the token
   * list closed, fill in the default trigger; otherwise leave the form alone.
   */
  function FillDefaultTrigger(s: FormState, m: Snapshot, selectingToken: bool): (r: FormState)
    ensures s.triggerPrice.Some? || selectingToken || QuotePrice(m, s.flip) == 0.0 ==> r == s
    ensures r.(triggerPrice := s.triggerPrice) == s
    ensures QuotePrice(m, s.flip) > 0.0 && s.triggerPrice.None? && !selectingToken ==>
              r.triggerPrice == Some(DefaultTrigger(m, s.flip, s.orderType))
    ensures r.triggerPrice.Some? && s.triggerPrice.None? ==>
              OnRequiredSide(s.orderType, ShouldFlip(s.flip, IsReducingShort(m)),
                             r.triggerPrice.value, QuotePrice(m, s.flip))
  {
    if QuotePrice(m, s.flip) == 0.0 || s.triggerPrice.Some? || selectingToken then s
    else
      s.(triggerPrice := Some(DefaultTrigger(m, s.flip, s.orderType)))
  }

  /**
   * The recompute effect that runs when the flip, the order type or the
   * exposure changes: with a quote, overwrite the trigger with the default,
   * even one the user typed, and recompute the output amount from a positive
   * input amount.
   */
  function RecomputeTrigger(s: FormState, m: Snapshot): (r: FormState)
    ensures QuotePrice(m, s.flip) == 0.0 ==> r == s
    ensures r.flip == s.flip && r.orderType == s.orderType && r.errors == s.errors
    ensures QuotePrice(m, s.flip) > 0.0 ==>
              && r.triggerPrice == Some(DefaultTrigger(m, s.flip, s.orderType))
              && OnRequiredSide(s.orderType, ShouldFlip(s.flip, IsReducingShort(m)),
                                r.triggerPrice.value, QuotePrice(m, s.flip))
    ensures !IsPositive(s.amountIn) ==> r.amountIn == s.amountIn && r.amountOut == s.amountOut
    ensures QuotePrice(m, s.flip) > 0.0 && IsPositive(s.amountIn) ==>
              var out := FloorToDecimal(Exact(s.amountIn.value, DefaultTrigger(m, s.flip, s.orderType), s.flip),
                                        MintDecimals(m.outputBank));
              if out == 0.0 then r.amountIn == None && r.amountOut == Some(0.0)
              else r.amountIn == s.amountIn && r.amountOut == Some(out)
  {
    if QuotePrice(m, s.flip) == 0.0 then s
    else
      var price := DefaultTrigger(m, s.flip, s.orderType);
      var r := s.(triggerPrice := Some(price));
      if AmountInNumber(s.amountIn) > 0.0 then
        WriteAmountOut(r, AmountOut(Some(AmountInNumber(s.amountIn)), s.flip, Some(price), MintDecimals(m.outputBank)))
      else r
  }

  /**
   * `toggleFlipPrices` followed by the recompute effect it sets off: nothing
   * happens until both banks are named; otherwise the errors are cleared, the
   * flag stored and, if it changed, the trigger recomputed.
   */
  function FlipToggled(s: FormState, m: Snapshot, flip: bool): (r: FormState)
    ensures PairNames(m).0 == "" || PairNames(m).1 == "" ==> r == s
    ensures PairNames(m).0 != "" && PairNames(m).1 != "" ==> r.flip == flip && r.errors == map[]
    ensures PairNames(m).0 != "" && PairNames(m).1 != "" && flip != s.flip ==>
              r == RecomputeTrigger(s.(errors := map[], flip := flip), m)
    ensures PairNames(m).0 != "" && PairNames(m).1 != "" && flip == s.flip ==> r == s.(errors := map[])
  {
    var names := PairNames(m);
    if names.0 == "" || names.1 == "" then s
    else
      var r := s.(errors := map[], flip := flip);
      if flip != s.flip then RecomputeTrigger(r, m) else r
  }

  /**
   * `handleOrderTypeChange`: clear the errors, store the type, set the trigger
   * to the default for the new type (from whatever quote there is) and
   * recompute the output amount from a positive input amount.
   */
  function SelectOrderType(s: FormState, m: Snapshot, t: OrderType): (r: FormState)
    ensures r.errors == map[] && r.orderType == t && r.flip == s.flip
    ensures r.triggerPrice == Some(DefaultTrigger(m, s.flip, t))
    ensures QuotePrice(m, s.flip) > 0.0 ==>
              OnRequiredSide(t, ShouldFlip(s.flip, IsReducingShort(m)), r.triggerPrice.value, QuotePrice(m, s.flip))
    ensures !IsPositive(s.amountIn) ==> r.amountIn == s.amountIn && r.amountOut == s.amountOut
    ensures QuotePrice(m, s.flip) > 0.0 && IsPositive(s.amountIn) ==>
              var out := FloorToDecimal(Exact(s.amountIn.value, DefaultTrigger(m, s.flip, t), s.flip),
                                        MintDecimals(m.outputBank));
              if out == 0.0 then r.amountIn == None && r.amountOut == Some(0.0)
              else r.amountIn == s.amountIn && r.amountOut == Some(out)
    ensures QuotePrice(m, s.flip) == 0.0 && IsPositive(s.amountIn) ==>
              if s.flip then r.amountIn == s.amountIn && r.amountOut == None
              else r.amountIn == None && r.amountOut == Some(0.0)
  {
    ZeroFloorsToZero(MintDecimals(m.outputBank));
    var trigger := DefaultTrigger(m, s.flip, t);
    var r := s.(errors := map[], orderType := t, triggerPrice := Some(trigger));
    var r :=
      if AmountInNumber(s.amountIn) > 0.0 then
        WriteAmountOut(r, AmountOut(Some(AmountInNumber(s.amountIn)), s.flip, Some(trigger), MintDecimals(m.outputBank)))
      else r;
    r
  }

  /** The order-type handler followed by the recompute effect a changed type sets off. */
  function OrderTypeChanged(s: FormState, m: Snapshot, t: OrderType): (r: FormState)
    ensures r.orderType == t && r.errors == map[]
    ensures QuotePrice(m, s.flip) > 0.0 ==> r == SelectOrderType(s, m, t)
  {
    var r := SelectOrderType(s, m, t);
    if QuotePrice(m, s.flip) > 0.0 then
      RecomputeTriggerIdempotent(r, m);
      if t != s.orderType then RecomputeTrigger(r, m) else r
    else if t != s.orderType then RecomputeTrigger(r, m) else r
  }

  /** Flooring zero gives zero, so a zero amount or a zero trigger yields an output of "0". */
  lemma ZeroFloorsToZero(d: nat)
    ensures FloorToDecimal(0.0, d) == 0.0
  {
    assert Scale(0.0, d) == 0.0;
    FloorToDecimalIdempotent(0.0, d);
  }

  /**
   * The recompute effect is idempotent on a state whose trigger already is the
   * default and whose output amount was derived from it.
   */
  lemma {:induction false} RecomputeTriggerIdempotent(s: FormState, m: Snapshot)
    requires QuotePrice(m, s.flip) > 0.0
    requires s.triggerPrice == Some(DefaultTrigger(m, s.flip, s.orderType))
    requires Reconciled(s, MintDecimals(m.outputBank))
    ensures RecomputeTrigger(s, m) == s
  {
    if AmountInNumber(s.amountIn) > 0.0 {
      var price := DefaultTrigger(m, s.flip, s.orderType);
      var a := s.amountIn.value;
      ConvertAtPositivePrice(a, price, s.flip, MintDecimals(m.outputBank));
      var out := FloorToDecimal(Exact(a, price, s.flip), MintDecimals(m.outputBank));
      assert AmountOut(Some(a), s.flip, Some(price), MintDecimals(m.outputBank)) == Finite(out);
      assert s.amountOut == Some(out) && out != 0.0;
    }
  }

  /** Typing a positive input amount with a positive trigger leaves the form reconciled. */
  lemma {:induction false} AmountInEditReconciles(s: FormState, m: Snapshot, v: Option<real>)
    requires IsPositive(v) && IsPositive(s.triggerPrice)
    ensures Reconciled(AmountInChanged(s, m, v, UserEvent), MintDecimals(m.outputBank))
  {
    var r := AmountInChanged(s, m, v, UserEvent);
    var out := FloorToDecimal(Exact(v.value, s.triggerPrice.value, s.flip), MintDecimals(m.outputBank));
    if out != 0.0 {
      assert r.amountIn == v && r.amountOut == Some(out);
    } else {
      assert r.amountIn == None;
    }
  }

  /** Typing a positive trigger with a positive input amount leaves the form reconciled. */
  lemma {:induction false} TriggerEditReconciles(s: FormState, m: Snapshot, v: Option<real>)
    requires IsPositive(v) && IsPositive(s.amountIn)
    ensures Reconciled(TriggerPriceChanged(s, m, v, UserEvent), MintDecimals(m.outputBank))
  {
    var r := TriggerPriceChanged(s, m, v, UserEvent);
    var out := FloorToDecimal(Exact(s.amountIn.value, v.value, s.flip), MintDecimals(m.outputBank));
    if out != 0.0 {
      assert r.amountIn == s.amountIn && r.amountOut == Some(out);
    } else {
      assert r.amountIn == None;
    }
  }

  /** With a quote, the recompute effect leaves the form reconciled at the new default trigger. */
  lemma {:induction false} RecomputeReconciles(s: FormState, m: Snapshot)
    requires QuotePrice(m, s.flip) > 0.0
    ensures Reconciled(RecomputeTrigger(s, m), MintDecimals(m.outputBank))
  {
    var r := RecomputeTrigger(s, m);
    var price := DefaultTrigger(m, s.flip, s.orderType);
    if IsPositive(s.amountIn) {
      var a := s.amountIn.value;
      ConvertAtPositivePrice(a, price, s.flip, MintDecimals(m.outputBank));
      var out := FloorToDecimal(Exact(a, price, s.flip), MintDecimals(m.outputBank));
      assert AmountOut(Some(a), s.flip, Some(price), MintDecimals(m.outputBank)) == Finite(out);
      if out != 0.0 {
        assert r.amountIn == s.amountIn && r.amountOut == Some(out);
      } else {
        assert r.amountIn == None;
      }
    } else {
      assert r.amountIn == s.amountIn;
    }
  }

  /**
   * An input amount derived from a typed output amount never buys more than
   * was typed: converting it forward again at the same trigger gives at most
   * the typed output amount.
   */
  lemma {:induction false} AmountOutEditNeverInflates(s: FormState, m: Snapshot, v: Option<real>)
    requires IsPositive(v) && IsPositive(s.triggerPrice)
    ensures var r := AmountOutChanged(s, m, v, UserEvent);
            r.amountIn.Some? ==>
              var back := AmountOut(r.amountIn, s.flip, s.triggerPrice, MintDecimals(m.outputBank));
              back.Finite? && back.value <= v.value
  {
    var r := AmountOutChanged(s, m, v, UserEvent);
    var p := s.triggerPrice.value;
    var a := FloorToDecimal(Exact(v.value, p, !s.flip), MintDecimals(m.inputBank));
    assert r.amountIn == Some(a);
    ConvertAtPositivePrice(a, p, s.flip, MintDecimals(m.outputBank));
    InverseExactBelow(v.value, a, p, !s.flip);
    assert Exact(a, p, s.flip) <= v.value;
  }
}
