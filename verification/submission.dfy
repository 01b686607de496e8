/**
 * `handlePlaceStopLoss` up to the SDK call: validate, record the errors,
 * return early when anything is missing, and otherwise choose which
 * trigger-order call to make and with which arguments.
 */
module Submission {
  import opened Wrappers
  import opened Market
  import opened Trigger
  import opened Validation
  import opened Form

  /** The four SDK entry points for trigger orders. */
  datatype TcsKind = StopLossOnDeposit | StopLossOnBorrow | TakeProfitOnDeposit | TakeProfitOnBorrow

  /**
   * The varying arguments of the chosen call: the two banks in the order
   * passed, the trigger price, the price-direction flag and the amount.
   */
  datatype TcsCall = TcsCall(kind: TcsKind, firstBank: Bank, secondBank: Bank, price: real, flip: bool, amount: real)

  /** What pressing the button leaves behind: the form (with its errors) and the call made, if any. */
  datatype Placement = Placement(form: FormState, call: Option<TcsCall>)

  /**
   * The call for a validated order: reducing a long spends deposits of the
   * input token; reducing a short repays a borrow, so the banks swap places
   * and the price direction is inverted.
   */
  function SelectCall(t: OrderType, reducingShort: bool, input: Bank, output: Bank, price: real, flip: bool, amount: real)
    : (c: TcsCall)
    ensures c.price == price && c.amount == amount
    ensures (c.kind == StopLossOnDeposit || c.kind == StopLossOnBorrow) <==> t == StopLoss
    ensures (c.kind == StopLossOnBorrow || c.kind == TakeProfitOnBorrow) <==> reducingShort
    ensures !reducingShort ==> c.firstBank == input && c.secondBank == output && c.flip == flip
    ensures reducingShort ==> c.firstBank == output && c.secondBank == input && c.flip == !flip
  {
    if !reducingShort then
      TcsCall(if t == StopLoss then StopLossOnDeposit else TakeProfitOnDeposit, input, output, price, flip, amount)
    else
      TcsCall(if t == StopLoss then StopLossOnBorrow else TakeProfitOnBorrow, output, input, price, !flip, amount)
  }

  /**
   * `handlePlaceStopLoss`: the validator's errors replace the form's; any
   * error, or a missing account, group, bank or trigger, ends the submission
   * before a call is made.
   */
  function PlaceOrder(s: FormState, m: Snapshot, groupLoaded: bool): (p: Placement)
    ensures p.form == s.(errors := ValidateForm(AmountInNumber(s.amountIn), s.triggerPrice, m, s.flip, s.orderType))
    ensures p.call.Some? <==>
              && p.form.errors == map[]
              && m.account.Some? && groupLoaded && m.inputBank.Some? && m.outputBank.Some?
    ensures p.call.Some? ==>
              && s.triggerPrice == Some(p.call.value.price)
              && p.call.value.amount == AmountInNumber(s.amountIn)
              && p.call.value.amount != 0.0
              && p.call.value.amount <= Abs(InputTokenBalance(m))
              && OnRequiredSide(s.orderType, ShouldFlip(s.flip, IsReducingShort(m)),
                                p.call.value.price, QuotePrice(m, s.flip))
              && p.call.value == SelectCall(s.orderType, IsReducingShort(m), m.inputBank.value,
                                            m.outputBank.value, p.call.value.price, s.flip, p.call.value.amount)
  {
    var amountIn := AmountInNumber(s.amountIn);
    var errors := ValidateForm(amountIn, s.triggerPrice, m, s.flip, s.orderType);
    ValidIffAllRulesHold(amountIn, s.triggerPrice, m, s.flip, s.orderType);
    var form := s.(errors := errors);
    if errors != map[] then Placement(form, None)
    else if m.account.None? || !groupLoaded || m.inputBank.None? || m.outputBank.None? || s.triggerPrice.None? then
      Placement(form, None)
    else
      Placement(form, Some(SelectCall(s.orderType, IsReducingShort(m), m.inputBank.value, m.outputBank.value,
                                      s.triggerPrice.value, s.flip, amountIn)))
  }

  /**
   * The place-order button: disabled while the order would borrow more input
   * tokens than the remaining allowance, otherwise it runs `PlaceOrder`.
   */
  function PressPlaceOrder(s: FormState, m: Snapshot, groupLoaded: bool): (p: Placement)
    ensures BorrowExceedsLimit(m, AmountInNumber(s.amountIn)) ==> p == Placement(s, None)
    ensures !BorrowExceedsLimit(m, AmountInNumber(s.amountIn)) ==> p == PlaceOrder(s, m, groupLoaded)
    ensures p.call.Some? ==>
              && !BorrowExceedsLimit(m, AmountInNumber(s.amountIn))
              && ValidateForm(AmountInNumber(s.amountIn), s.triggerPrice, m, s.flip, s.orderType) == map[]
  {
    if BorrowExceedsLimit(m, AmountInNumber(s.amountIn)) then Placement(s, None)
    else PlaceOrder(s, m, groupLoaded)
  }

  /**
   * The button with the borrow valued at the input token's oracle price, so
   * that it is compared with the allowance in the currency the allowance is in.
   */
  function PressPlaceOrderByValue(s: FormState, m: Snapshot, groupLoaded: bool): (p: Placement)
    ensures BorrowValueExceedsLimit(m, AmountInNumber(s.amountIn)) ==> p == Placement(s, None)
    ensures !BorrowValueExceedsLimit(m, AmountInNumber(s.amountIn)) ==> p == PlaceOrder(s, m, groupLoaded)
    ensures p.call.Some? ==>
              && !BorrowValueExceedsLimit(m, AmountInNumber(s.amountIn))
              && ValidateForm(AmountInNumber(s.amountIn), s.triggerPrice, m, s.flip, s.orderType) == map[]
  {
    if BorrowValueExceedsLimit(m, AmountInNumber(s.amountIn)) then Placement(s, None)
    else PlaceOrder(s, m, groupLoaded)
  }

  /** An order whose trigger equals the quote is never sent. */
  lemma TriggerAtQuoteNeverSent(s: FormState, m: Snapshot, groupLoaded: bool)
    requires s.triggerPrice == Some(QuotePrice(m, s.flip))
    ensures PressPlaceOrder(s, m, groupLoaded).call.None?
  {
    var p := PressPlaceOrder(s, m, groupLoaded);
    if p.call.Some? {
      TriggerAtQuoteRejected(s.orderType, ShouldFlip(s.flip, IsReducingShort(m)), QuotePrice(m, s.flip));
      assert false;
    }
  }
}
