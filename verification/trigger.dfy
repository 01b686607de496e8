/**
 * The trigger calculator: which side of the quote a trigger order must sit on,
 * and the default trigger price the form proposes.
 */
module Trigger {
  import opened Market

  datatype OrderType = StopLoss | TakeProfit

  /** The side of the quote on which a trigger is acceptable. */
  datatype Side = Above | Below

  /**
   * `flipPrices XOR isReducingShort`: flipping the price convention and
   * reducing a short each mirror which direction is adverse.
   */
  function ShouldFlip(flip: bool, reducingShort: bool): bool
  {
    flip != reducingShort
  }

  /**
   * Where a trigger must sit: a stop-loss below the quote and a take-profit
   * above it, each mirrored once by `shouldFlip`.
   */
  function RequiredSide(t: OrderType, shouldFlip: bool): (side: Side)
    ensures side == Above <==> (t == StopLoss <==> shouldFlip)
  {
    match t
    case StopLoss => if shouldFlip then Above else Below
    case TakeProfit => if shouldFlip then Below else Above
  }

  /** `trigger` lies strictly on the required side of `quote`. */
  predicate OnRequiredSide(t: OrderType, shouldFlip: bool, trigger: real, quote: real)
  {
    match RequiredSide(t, shouldFlip)
    case Above => trigger > quote
    case Below => trigger < quote
  }

  /**
   * `getOrderTypeMultiplier`: 10% beyond the quote on the side where the
   * trigger has to sit.
   */
  function Multiplier(t: OrderType, flip: bool, reducingShort: bool): (k: real)
    ensures k == 0.9 || k == 1.1
    ensures k == 1.1 <==> RequiredSide(t, ShouldFlip(flip, reducingShort)) == Above
  {
    match t
    case StopLoss =>
      if reducingShort then (if flip then 0.9 else 1.1) else if flip then 1.1 else 0.9
    case TakeProfit =>
      if reducingShort then (if flip then 1.1 else 0.9) else if flip then 0.9 else 1.1
  }

  /** The multiplier table, all eight combinations of order type, flip and exposure. */
  lemma MultiplierTable()
    ensures Multiplier(StopLoss, false, false) == 0.9
    ensures Multiplier(StopLoss, true, false) == 1.1
    ensures Multiplier(StopLoss, false, true) == 1.1
    ensures Multiplier(StopLoss, true, true) == 0.9
    ensures Multiplier(TakeProfit, false, false) == 1.1
    ensures Multiplier(TakeProfit, true, false) == 0.9
    ensures Multiplier(TakeProfit, false, true) == 0.9
    ensures Multiplier(TakeProfit, true, true) == 1.1
  {
  }

  /** A stop-loss gets 1.1 exactly when flip XOR reducing-short holds; a take-profit is its mirror. */
  lemma MultiplierFollowsShouldFlip(flip: bool, reducingShort: bool)
    ensures Multiplier(StopLoss, flip, reducingShort) == (if ShouldFlip(flip, reducingShort) then 1.1 else 0.9)
    ensures Multiplier(TakeProfit, flip, reducingShort) == (if ShouldFlip(flip, reducingShort) then 0.9 else 1.1)
  {
  }

  /**
   * The default trigger price: the quote moved 10% to the side the validator
   * demands, before display rounding.
   */
  function DefaultTrigger(m: Snapshot, flip: bool, t: OrderType): (price: real)
    ensures price == QuotePrice(m, flip) *
              (if RequiredSide(t, ShouldFlip(flip, IsReducingShort(m))) == Above then 1.1 else 0.9)
    ensures price >= 0.0
    ensures price == 0.0 <==> QuotePrice(m, flip) == 0.0
    ensures QuotePrice(m, flip) > 0.0 ==>
              OnRequiredSide(t, ShouldFlip(flip, IsReducingShort(m)), price, QuotePrice(m, flip))
  {
    QuotePrice(m, flip) * Multiplier(t, flip, IsReducingShort(m))
  }

  /**
   * Display rounding keeps the default trigger on the required side: any
   * rendering within a relative error of 1e-5 (six significant digits, rounded
   * either way) of `quote * multiplier` stays strictly beyond the quote.
   */
  lemma RoundedDefaultTriggerOnRequiredSide(quote: real, t: OrderType, flip: bool, reducingShort: bool, shown: real)
    requires quote > 0.0
    requires var exact := quote * Multiplier(t, flip, reducingShort);
             exact - exact / 100000.0 <= shown <= exact + exact / 100000.0
    ensures OnRequiredSide(t, ShouldFlip(flip, reducingShort), shown, quote)
  {
  }

  /** A trigger equal to the quote is never on the required side. */
  lemma TriggerAtQuoteRejected(t: OrderType, shouldFlip: bool, quote: real)
    ensures !OnRequiredSide(t, shouldFlip, quote, quote)
  {
  }
}
