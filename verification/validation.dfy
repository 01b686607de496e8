/**
 * The validator (`isFormValid`) and the borrow-limit gate
 * (`borrowExceedsLimitInPeriod`) of the trigger-order form.
 */
module Validation {
  import opened Wrappers
  import opened Market
  import opened Trigger
  import opened Numbers

  /** The form fields that can carry an error. */
  datatype FormField = AmountInField | TriggerPriceField

  /** The message shown under a field, by kind. */
  datatype FieldError =
    | RequiredField
    | MustBeAbove
    | MustBeBelow
    | InsufficientBalance(symbol: Option<string>)

  /** Field name to message; empty means valid. */
  type FormErrors = map<FormField, FieldError>

  /**
   * The directional check as the validator writes it: two guarded assignments
   * per order type, each rejecting a trigger on (or at) the wrong side.
   */
  function DirectionError(t: OrderType, shouldFlip: bool, trigger: real, quote: real): (e: Option<FieldError>)
    ensures e.None? <==> OnRequiredSide(t, shouldFlip, trigger, quote)
    ensures e.Some? ==> e.value == (if RequiredSide(t, shouldFlip) == Above then MustBeAbove else MustBeBelow)
  {
    match t
    case StopLoss =>
      if shouldFlip && trigger <= quote then Some(MustBeAbove)
      else if !shouldFlip && trigger >= quote then Some(MustBeBelow)
      else None
    case TakeProfit =>
      if shouldFlip && trigger >= quote then Some(MustBeBelow)
      else if !shouldFlip && trigger <= quote then Some(MustBeAbove)
      else None
  }

  function Abs(x: real): real
  {
    if x < 0.0 then -x else x
  }

  /**
   * `isFormValid` on a submitted form (`amountIn` as a number, the trigger
   * entry): every rule is checked and every violation collected.
   */
  function ValidateForm(amountIn: real, triggerPrice: Option<real>, m: Snapshot, flip: bool, t: OrderType)
    : (errors: FormErrors)
    ensures errors.Keys <= {AmountInField, TriggerPriceField}
    ensures AmountInField in errors <==> amountIn == 0.0 || amountIn > Abs(InputTokenBalance(m))
    ensures AmountInField in errors ==>
              errors[AmountInField] ==
                (if amountIn > Abs(InputTokenBalance(m)) then InsufficientBalance(PrimaryName(m))
                 else RequiredField)
    ensures TriggerPriceField in errors <==>
              triggerPrice.None? ||
              !OnRequiredSide(t, ShouldFlip(flip, IsReducingShort(m)), triggerPrice.value, QuotePrice(m, flip))
    ensures triggerPrice.None? ==> TriggerPriceField in errors && errors[TriggerPriceField] == RequiredField
    ensures triggerPrice.Some? && TriggerPriceField in errors ==>
              errors[TriggerPriceField] ==
                (if RequiredSide(t, ShouldFlip(flip, IsReducingShort(m))) == Above then MustBeAbove else MustBeBelow)
  {
    var required := if amountIn == 0.0 then map[AmountInField := RequiredField] else map[];
    var required := if triggerPrice.None? then required[TriggerPriceField := RequiredField] else required;
    var directed :=
      if triggerPrice.None? then required
      else match DirectionError(t, ShouldFlip(flip, IsReducingShort(m)), triggerPrice.value, QuotePrice(m, flip))
        case Some(e) => required[TriggerPriceField := e]
        case None => required;
    if amountIn > Abs(InputTokenBalance(m)) then directed[AmountInField := InsufficientBalance(PrimaryName(m))]
    else directed
  }

  /** `inputBank?.name`, the symbol named by the insufficient-balance message. */
  function PrimaryName(m: Snapshot): Option<string>
  {
    if m.inputBank.Some? then Some(m.inputBank.value.name) else None
  }

  /** The form is valid exactly when every rule holds. */
  lemma ValidIffAllRulesHold(amountIn: real, triggerPrice: Option<real>, m: Snapshot, flip: bool, t: OrderType)
    ensures ValidateForm(amountIn, triggerPrice, m, flip, t) == map[] <==>
              && amountIn != 0.0
              && amountIn <= Abs(InputTokenBalance(m))
              && triggerPrice.Some?
              && OnRequiredSide(t, ShouldFlip(flip, IsReducingShort(m)), triggerPrice.value, QuotePrice(m, flip))
  {
    var errors := ValidateForm(amountIn, triggerPrice, m, flip, t);
    if errors == map[] {
      assert AmountInField !in errors;
      assert TriggerPriceField !in errors;
    } else {
      var f :| f in errors;
      assert f == AmountInField || f == TriggerPriceField;
    }
  }

  /**
   * The new borrowing an order implies: the part of `amountIn` not covered by
   * the input-token deposits.
   */
  function BorrowAmount(deposits: real, amountIn: real): (b: real)
    ensures b >= 0.0
    ensures b >= amountIn - deposits
    ensures b == 0.0 || b == amountIn - deposits
  {
    var remainingBalance := deposits - amountIn;
    if remainingBalance < 0.0 then Abs(remainingBalance) else 0.0
  }

  /**
   * `borrowExceedsLimitInPeriod`: blocked when account and bank are loaded, the
   * remaining allowance is defined and non-zero, and the borrowing strictly
   * exceeds it.
   */
  function BorrowExceedsLimit(m: Snapshot, amountIn: real): (blocked: bool)
    ensures blocked ==> m.account.Some? && m.inputBank.Some?
    ensures blocked ==> m.remainingBorrowsInPeriod.Some? && m.remainingBorrowsInPeriod.value != 0.0
    ensures blocked ==> BorrowAmount(m.account.value.inputDeposits, amountIn) > m.remainingBorrowsInPeriod.value
  {
    if m.account.None? || m.inputBank.None? then false
    else
      var borrow := BorrowAmount(m.account.value.inputDeposits, amountIn);
      match m.remainingBorrowsInPeriod
      case Some(remaining) => if remaining != 0.0 then borrow > remaining else false
      case None => false
  }

  /**
   * The gate compares amounts of different kinds: the borrow is counted in
   * input tokens, while the remaining allowance is a value in the quote
   * currency. A token priced at 100 with 1000 of allowance left lets 20 tokens
   * (a value of 2000) through.
   */
  lemma BorrowLimitIgnoresPrice()
    ensures var m := Snapshot(Some(Bank("ETH", 8, 100.0)), None, Some(Account(0.0, 0.0, 0.0)), Some(1000.0));
            && !BorrowExceedsLimit(m, 20.0)
            && BorrowAmount(0.0, 20.0) * 100.0 > 1000.0
  {
  }

  /**
   * The gate with both sides in the quote currency: the borrow valued at the
   * input bank's oracle price against the remaining allowance, under the same
   * loading and non-zero conditions.
   */
  function BorrowValueExceedsLimit(m: Snapshot, amountIn: real): (blocked: bool)
    ensures blocked <==>
              && m.account.Some? && m.inputBank.Some?
              && m.remainingBorrowsInPeriod.Some? && m.remainingBorrowsInPeriod.value != 0.0
              && BorrowAmount(m.account.value.inputDeposits, amountIn) * m.inputBank.value.uiPrice
                 > m.remainingBorrowsInPeriod.value
  {
    if m.account.None? || m.inputBank.None? then false
    else
      var value := BorrowAmount(m.account.value.inputDeposits, amountIn) * m.inputBank.value.uiPrice;
      match m.remainingBorrowsInPeriod
      case Some(remaining) => if remaining != 0.0 then value > remaining else false
      case None => false
  }

  /** At an oracle price of 1 the value-based gate and the gate as written agree. */
  lemma BorrowGatesAgreeAtUnitPrice(m: Snapshot, amountIn: real)
    requires m.inputBank.Some? && m.inputBank.value.uiPrice == 1.0
    ensures BorrowValueExceedsLimit(m, amountIn) <==> BorrowExceedsLimit(m, amountIn)
  {
  }

  /** The value-based gate never unblocks when the amount or the token's price grows. */
  lemma BorrowValueLimitMonotone(m: Snapshot, a: real, b: real, price: Price)
    requires a <= b
    requires m.inputBank.Some? && m.inputBank.value.uiPrice <= price
    requires BorrowValueExceedsLimit(m, a)
    ensures BorrowValueExceedsLimit(m.(inputBank := Some(m.inputBank.value.(uiPrice := price))), b)
  {
  }

  /** Every condition of the gate together is enough to block. */
  lemma BorrowLimitBlocksWhenExceeded(m: Snapshot, amountIn: real)
    requires m.account.Some? && m.inputBank.Some? && m.remainingBorrowsInPeriod.Some?
    requires m.remainingBorrowsInPeriod.value != 0.0
    requires BorrowAmount(m.account.value.inputDeposits, amountIn) > m.remainingBorrowsInPeriod.value
    ensures BorrowExceedsLimit(m, amountIn)
  {
  }

  /** A remaining allowance of exactly 0, or none at all, never blocks. */
  lemma ZeroOrMissingAllowanceNeverBlocks(m: Snapshot, amountIn: real)
    requires m.remainingBorrowsInPeriod == None || m.remainingBorrowsInPeriod == Some(0.0)
    ensures !BorrowExceedsLimit(m, amountIn)
  {
  }

  /** Asking for more never unblocks an order. */
  lemma BorrowLimitMonotone(m: Snapshot, a: real, b: real)
    requires a <= b
    requires BorrowExceedsLimit(m, a)
    ensures BorrowExceedsLimit(m, b)
  {
  }

  /** The default trigger for a positive quote never draws a trigger-price error. */
  lemma DefaultTriggerPassesValidator(amountIn: real, m: Snapshot, flip: bool, t: OrderType)
    requires QuotePrice(m, flip) > 0.0
    ensures TriggerPriceField !in ValidateForm(amountIn, Some(DefaultTrigger(m, flip, t)), m, flip, t)
  {
  }
}
