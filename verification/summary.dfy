/**
 * The order summary (`orderDescription`): which clauses the description of a
 * trigger order has and the values they carry. Wording, translation and
 * number formatting are left to the UI.
 */
module Summary {
  import opened Wrappers
  import opened Numbers
  import opened Market
  import opened Trigger
  import opened Form

  datatype Action = Buy | Sell

  /** The directional phrase of the description. */
  datatype Movement = RisesTo | FallsTo

  /** "<numerator> per <denominator>", the unit the trigger price is quoted in. */
  datatype PriceUnit = PriceUnit(numerator: string, denominator: string)

  /** The optional clause naming how much must be borrowed to complete the reduction. */
  datatype BorrowClause = BorrowClause(amount: real, quoteSymbol: string)

  datatype OrderSummary = OrderSummary(
    action: Action,
    amount: real,
    symbol: string,
    movement: Movement,
    triggerPrice: real,
    priceUnit: PriceUnit,
    borrow: Option<BorrowClause>)

  /** The unit of the trigger price: input per output when flipped, output per input otherwise. */
  function QuoteUnit(inputName: string, outputName: string, flip: bool): (u: PriceUnit)
    ensures multiset{u.numerator, u.denominator} == multiset{inputName, outputName}
  {
    if flip then PriceUnit(inputName, outputName) else PriceUnit(outputName, inputName)
  }

  /** Flipping the prices swaps the two names of the unit. */
  lemma QuoteUnitFlipSwaps(inputName: string, outputName: string, flip: bool)
    ensures var u := QuoteUnit(inputName, outputName, flip);
            QuoteUnit(inputName, outputName, !flip) == PriceUnit(u.denominator, u.numerator)
  {
  }

  /** The oracle price of the bank of the pair with the given name. */
  function PriceOf(m: Snapshot, name: string): real
    requires m.inputBank.Some? && m.outputBank.Some?
  {
    if name == m.inputBank.value.name then m.inputBank.value.uiPrice else m.outputBank.value.uiPrice
  }

  /**
   * The unit matches the quote: one denominator token is worth the quote's
   * number of numerator tokens, in either direction of the flip.
   */
  lemma QuoteIsPricedInUnit(m: Snapshot, flip: bool)
    requires m.inputBank.Some? && m.outputBank.Some?
    requires m.inputBank.value.name != m.outputBank.value.name
    ensures var u := QuoteUnit(m.inputBank.value.name, m.outputBank.value.name, flip);
            QuotePrice(m, flip) * PriceOf(m, u.numerator) == PriceOf(m, u.denominator)
  {
  }

  /** The phrase for the trigger, keyed on the same XOR the validator uses. */
  function MovementFor(t: OrderType, shouldFlip: bool): (mv: Movement)
    ensures mv == RisesTo <==> RequiredSide(t, shouldFlip) == Above
  {
    if t == StopLoss then (if shouldFlip then RisesTo else FallsTo)
    else if shouldFlip then FallsTo else RisesTo
  }

  /**
   * The amount that must be borrowed to reduce a short: the part of the output
   * amount not covered by a non-negative output balance, or all of it when the
   * output balance is itself negative; 0 when not reducing a short.
   */
  function BorrowToReduceShort(reducingShort: bool, outBalance: real, amountOut: real): (b: real)
    ensures !reducingShort ==> b == 0.0
    ensures reducingShort && 0.0 <= outBalance < amountOut ==> b == amountOut - outBalance && b > 0.0
    ensures reducingShort && outBalance < 0.0 ==> b == amountOut
    ensures reducingShort && 0.0 <= outBalance && amountOut <= outBalance ==> b == 0.0
  {
    if !reducingShort then 0.0
    else if outBalance >= 0.0 && amountOut > outBalance then
      var d := outBalance - amountOut;
      if d < 0.0 then -d else d
    else if outBalance < 0.0 then amountOut
    else 0.0
  }

  /**
   * `orderDescription`: nothing unless both amounts, both token names and the
   * trigger are present; otherwise the action, the input amount floored to the
   * input decimals, the movement, the trigger and its unit, and a borrow
   * clause when the borrow amount is non-zero.
   */
  function OrderDescription(s: FormState, m: Snapshot): (d: Option<OrderSummary>)
    ensures d.None? <==>
              s.amountIn.None? || s.amountOut.None? || PairNames(m).0 == "" || PairNames(m).1 == ""
              || s.triggerPrice.None?
    ensures d.Some? ==>
              && (d.value.action == Buy <==> IsReducingShort(m))
              && d.value.amount == FloorToDecimal(s.amountIn.value, m.inputBank.value.mintDecimals)
              && d.value.symbol == m.inputBank.value.name
              && d.value.triggerPrice == s.triggerPrice.value
              && d.value.priceUnit == QuoteUnit(m.inputBank.value.name, m.outputBank.value.name, s.flip)
              && (d.value.movement == RisesTo <==>
                    RequiredSide(s.orderType, ShouldFlip(s.flip, IsReducingShort(m))) == Above)
    ensures d.Some? ==>
              var b := BorrowToReduceShort(IsReducingShort(m), OutputTokenBalance(m), s.amountOut.value);
              if b == 0.0 then d.value.borrow.None?
              else d.value.borrow == Some(BorrowClause(b, m.outputBank.value.name))
  {
    var (inputName, outputName) := PairNames(m);
    if s.amountIn.None? || s.amountOut.None? || inputName == "" || outputName == "" || s.triggerPrice.None? then None
    else
      var reducingShort := IsReducingShort(m);
      var borrow := BorrowToReduceShort(reducingShort, OutputTokenBalance(m), s.amountOut.value);
      Some(OrderSummary(
        if reducingShort then Buy else Sell,
        FloorToDecimal(s.amountIn.value, MintDecimals(m.inputBank)),
        inputName,
        MovementFor(s.orderType, ShouldFlip(s.flip, reducingShort)),
        s.triggerPrice.value,
        QuoteUnit(inputName, outputName, s.flip),
        if borrow != 0.0 then Some(BorrowClause(borrow, outputName)) else None))
  }

  /**
   * The summary and the validator agree: the description says "rises to"
   * exactly when the validator accepts only triggers above the quote.
   */
  lemma SummaryAgreesWithValidator(s: FormState, m: Snapshot)
    requires OrderDescription(s, m).Some?
    ensures OrderDescription(s, m).value.movement == RisesTo <==>
              forall trigger :: OnRequiredSide(s.orderType, ShouldFlip(s.flip, IsReducingShort(m)), trigger, QuotePrice(m, s.flip))
                                ==> trigger > QuotePrice(m, s.flip)
  {
    var t := s.orderType;
    var sf := ShouldFlip(s.flip, IsReducingShort(m));
    var q := QuotePrice(m, s.flip);
    if RequiredSide(t, sf) == Below {
      assert OnRequiredSide(t, sf, q - 1.0, q);
    }
  }
}
