# Trigger-order reconciliation of the Mango swap form

This project models, in Dafny, the stop-loss / take-profit logic of the swap
form's trigger-order tab (`components/swap/LimitSwapForm.tsx`): the quote
price of the pair, the exposure classifier (is the order reducing a short?),
the multiplier table that places the default trigger 10% beyond the quote on
the safe side, the conversion between input amount, output amount and trigger
price with flooring to each token's decimals, the edit handlers and effects
that keep the three entries consistent, the validator, the borrow-limit gate,
the choice of SDK call on submission, and the content of the order summary.

Everything is pure: the form is an immutable `Form.FormState`, the store,
account and hook values it reads are a `Market.Snapshot`, and every handler or
effect is a function from state to state. Numbers are exact `real`s. A form
entry is `Option<real>`: `None` for empty or unreadable text, `Some(x)` for
text that reads as `x` (so `"0"` is present but zero, as in the source).

Modules, one per component of the logic:

- `Numbers`: `floorToDecimal` as `Floor(x * 10^d) / 10^d`, with its
  characterisation as the greatest `d`-place value not above `x`.
- `Market`: banks, account, snapshot, quote price, exposure classifier.
- `Trigger`: order types, the required side of the quote, the multiplier, the
  default trigger.
- `Amounts`: `getAmountOut` / `getAmountIn`, including the JavaScript
  infinities and NaN a zero price or empty entry produces, and the round trip.
- `Validation`: `isFormValid` and `borrowExceedsLimitInPeriod`.
- `Form`: the state, its setters, handlers and effects. `RecomputeTrigger` is
  the effect that runs when the flip, the order type or the exposure changes
  (a new account snapshot is passed as its `Snapshot`); `FillDefaultTrigger` is
  the effect that only fills an empty trigger.
- `Submission`: `handlePlaceStopLoss` up to the SDK call, and the button gate.
- `Summary`: `orderDescription`.
- `Scenarios`: worked examples on concrete numbers.

Two properties of the conversions and the gate are worth stating plainly.
Converting an input amount to an output amount and back can lose more than
one unit of the input decimals when the output token has fewer decimals than
the price can bridge: `Amounts.RoundTripCanLoseWholeAmount` exhibits one input
token lost entirely, and `Amounts.RoundTripLossBound` states the bound that
does hold (one input unit plus one output unit carried back through the
price). And a remaining borrow allowance of exactly 0 never blocks an order,
because the gate tests the allowance for truthiness before comparing;
`Validation.ZeroOrMissingAllowanceNeverBlocks` records it.

## Model

| member | source | states |
|---|---|---|
| Market.QuotePrice | components/swap/LimitSwapForm.tsx:166-171 | The quote is 0 exactly when a bank is missing, otherwise positive, and it is the ratio of the oracle prices in the direction the flip selects. |
| Market.QuoteFlipIsReciprocal | components/swap/LimitSwapForm.tsx:166-171 | The flipped and unflipped quotes multiply to 1. |
| Market.IsReducingShort | components/swap/LimitSwapForm.tsx:173-177 | The order reduces a short exactly when an account and input bank are loaded and the input balance is negative. |
| Trigger.RequiredSide | components/swap/LimitSwapForm.tsx:277-296 | A trigger must sit above the quote exactly when (stop-loss iff flip XOR reducing-short). |
| Trigger.Multiplier | components/swap/LimitSwapForm.tsx:91-103 | The multiplier is 0.9 or 1.1, and 1.1 exactly when the required side is above. |
| Trigger.MultiplierTable | components/swap/LimitSwapForm.tsx:91-103 | The eight entries of the table for order type, flip and exposure. |
| Trigger.MultiplierFollowsShouldFlip | components/swap/LimitSwapForm.tsx:91-103 | Stop-loss gets 1.1 iff flip XOR reducing-short; take-profit is the mirror. |
| Trigger.DefaultTrigger | components/swap/LimitSwapForm.tsx:180-191 | The default trigger is the quote times 1.1 when the required side is above and times 0.9 when it is below; it is zero exactly when there is no quote, and for a positive quote it lies strictly on the side the validator demands, for every order type, flip and exposure. |
| Trigger.RoundedDefaultTriggerOnRequiredSide | components/swap/LimitSwapForm.tsx:51-54 | Any six-significant-digit rendering of the default trigger (relative error at most 1e-5) stays on the required side. |
| Trigger.TriggerAtQuoteRejected | components/swap/LimitSwapForm.tsx:277-296 | A trigger equal to the quote is never on the required side. |
| Numbers.FloorToDecimal | components/swap/LimitSwapForm.tsx:320-328 | The floored value has at most d decimal places, is at most the input and less than one unit below it. |
| Numbers.FloorToDecimalIsGreatest | components/swap/LimitSwapForm.tsx:320-328 | No d-place value lies strictly between the floored value and the input. |
| Numbers.FloorToDecimalIdempotent | components/swap/LimitSwapForm.tsx:320-328 | Flooring a d-place value returns it unchanged. |
| Numbers.FloorToDecimalMonotone | components/swap/LimitSwapForm.tsx:320-328 | Flooring preserves order. |
| Amounts.Convert | components/swap/LimitSwapForm.tsx:318-349 | A conversion is NaN exactly for an unreadable entry or 0/0, infinite exactly for a non-zero amount over a zero price, and otherwise the exact value floored to the destination decimals. |
| Amounts.AmountOut | components/swap/LimitSwapForm.tsx:318-332 | The output amount is input times price (over price when flipped) floored to the output decimals, at most one unit below the exact value, and finite at any positive price. |
| Amounts.AmountIn | components/swap/LimitSwapForm.tsx:334-349 | The input amount is output over price (times price when flipped) floored to the input decimals, at most one unit below the exact value, and finite at any positive price. |
| Amounts.RoundTripNeverInflates | components/swap/LimitSwapForm.tsx:318-349 | Input to output and back at a fixed positive price never exceeds the original input. |
| Amounts.RoundTripLossBound | components/swap/LimitSwapForm.tsx:318-349 | The round trip loses less than one input unit plus one output unit carried back through the price. |
| Amounts.RoundTripCanLoseWholeAmount | components/swap/LimitSwapForm.tsx:318-349 | One token at a flipped price of 1000 into a 0-decimal token converts to 0 and back to 0. |
| Validation.DirectionError | components/swap/LimitSwapForm.tsx:277-296 | The directional check rejects exactly the triggers not strictly on the required side, with "must be above" or "must be below" as that side dictates. |
| Validation.ValidateForm | components/swap/LimitSwapForm.tsx:260-315 | The amount field errs iff the amount is 0 (required) or exceeds the absolute input balance (insufficient balance, naming the token); the trigger field errs iff the trigger is missing (required) or off the required side; no other field errs; a trigger error names the required side ("must be above" or "must be below"). |
| Validation.ValidIffAllRulesHold | components/swap/LimitSwapForm.tsx:297-305 | The error map is empty iff the amount is non-zero and within the absolute balance and a trigger is present on the required side. |
| Validation.DefaultTriggerPassesValidator | components/swap/LimitSwapForm.tsx:270-296 | The default trigger for a positive quote never draws a trigger-price error. |
| Validation.BorrowAmount | components/swap/LimitSwapForm.tsx:246-248 | The borrow is max(0, amountIn minus deposits). |
| Validation.BorrowExceedsLimit | components/swap/LimitSwapForm.tsx:242-258 | Blocking needs a loaded account and bank, a defined non-zero allowance, and a borrow strictly above it. |
| Validation.BorrowLimitBlocksWhenExceeded | components/swap/LimitSwapForm.tsx:250-252 | Those conditions together block the order. |
| Validation.ZeroOrMissingAllowanceNeverBlocks | components/swap/LimitSwapForm.tsx:250-252 | An allowance of 0 or undefined never blocks. |
| Validation.BorrowLimitIgnoresPrice | components/swap/LimitSwapForm.tsx:246-252 | With a token priced at 100 and 1000 of allowance left, a borrow of 20 tokens (a value of 2000) passes the gate as written. |
| Validation.BorrowValueExceedsLimit | components/swap/LimitSwapForm.tsx:242-258 | The value-based gate blocks exactly when account and bank are loaded, the allowance is defined and non-zero, and the borrow times the input token's oracle price exceeds it. |
| Validation.BorrowGatesAgreeAtUnitPrice | components/swap/LimitSwapForm.tsx:242-258 | At an oracle price of 1 the value-based gate and the gate as written agree. |
| Validation.BorrowValueLimitMonotone | components/swap/LimitSwapForm.tsx:242-258 | A larger amount or a higher token price never unblocks an order under the value-based gate. |
| Validation.BorrowLimitMonotone | components/swap/LimitSwapForm.tsx:242-258 | A larger amount never unblocks an order. |
| Form.SetAmountIn | components/swap/LimitSwapForm.tsx:148-155 | Storing an input entry that is empty or zero clears the output amount; nothing else changes. |
| Form.AmountInNumber | components/swap/LimitSwapForm.tsx:142-146 | The number is positive exactly when the entry is, is the entry's value whenever non-zero, and is 0 for an empty or zero entry. |
| Form.WriteAmountOut | components/swap/LimitSwapForm.tsx:355-356 | Writing a conversion back as text: a non-zero number is stored and keeps the input; "0" is stored and clears the input; "Infinity" leaves the input and no readable output; "NaN" clears both; nothing else changes. |
| Form.WriteAmountIn | components/swap/LimitSwapForm.tsx:394-395 | The mirror for the input amount: a non-zero number keeps the output, "0" clears it, "Infinity" keeps it, "NaN" clears both; nothing else changes. |
| Form.SetAmountOut | components/swap/LimitSwapForm.tsx:157-164 | Storing an output entry that is empty or zero clears the input amount; nothing else changes. |
| Form.EnterAmountIn | components/swap/LimitSwapForm.tsx:351-366 | A cleared amount clears the output; a positive amount without a trigger leaves the output pending; with a positive trigger the output becomes the floored conversion, and a zero conversion clears the input again; a trigger of 0 gives an output of "0" and an empty input, or, flipped, an infinite output stored as empty with the input kept. |
| Form.AmountInChanged | components/swap/LimitSwapForm.tsx:368-386 | Prop updates change nothing; a user edit clears the errors and enters the amount. |
| Form.AmountOutChanged | components/swap/LimitSwapForm.tsx:388-406 | Prop updates change nothing; a user edit clears the errors, a cleared output clears the input, and with a positive trigger the input becomes the floored reverse conversion (a zero result clears the output); with a trigger of "0" the input becomes "0" and the output is cleared when flipped, and unflipped the infinite input is stored as empty with the output kept. |
| Form.AmountInFromSlider | components/swap/LimitSwapForm.tsx:408-425 | The slider clears the errors, recomputes the output whenever a trigger is set (a trigger of "0" counts as set), and ends with an empty input when given an empty one. Without a trigger it stores the amount and clears the output exactly when the amount is empty or zero. Moved to 0 with a trigger set, it leaves the input empty and the output "0" (both empty when a flipped trigger is 0, which gives 0/0); any positive amount with a trigger set goes the way of a typed one. |
| Form.TriggerPriceChanged | components/swap/LimitSwapForm.tsx:427-440 | A user edit stores the trigger and recomputes the output from the existing input only when both are positive. |
| Form.TokenSelectOpened | components/swap/LimitSwapForm.tsx:233-239 | Opening the token list clears the errors and the trigger and nothing else. |
| Form.FillDefaultTrigger | components/swap/LimitSwapForm.tsx:179-199 | With a quote, no trigger and the token list closed, the trigger becomes the default, on the required side; otherwise nothing changes, and nothing but the trigger ever does. |
| Form.RecomputeTrigger | components/swap/LimitSwapForm.tsx:201-223 | With a quote, the trigger is overwritten by the default, which lies on the required side; a positive input amount is kept and the output becomes its floored conversion at the new trigger, unless that is zero, which clears the input and leaves "0"; without a positive input amount the amounts are untouched. |
| Form.FlipToggled | components/swap/LimitSwapForm.tsx:646-655 | Without both token names nothing changes; otherwise the errors clear, the flag is stored and a change of flag recomputes the trigger, while the same flag only clears the errors. |
| Form.SelectOrderType | components/swap/LimitSwapForm.tsx:657-683 | Changing the order type clears the errors and sets the default trigger for the new type, on the required side when there is a quote; a positive input amount gets its output recomputed at that trigger (a zero output clears the input; with no quote the trigger is 0, giving "0" or, flipped, an empty output); otherwise the amounts are untouched. |
| Form.OrderTypeChanged | components/swap/LimitSwapForm.tsx:657-683 | In exact arithmetic, with a quote, the recompute effect after an order-type change leaves the handler's result as it is. |
| Form.RecomputeTriggerIdempotent | components/swap/LimitSwapForm.tsx:201-223 | Recomputing a state that already holds the default trigger and its reconciled output changes nothing. |
| Form.AmountInEditReconciles | components/swap/LimitSwapForm.tsx:368-386 | A positive input edit with a positive trigger leaves the output equal to the non-zero floored conversion, or the input cleared. |
| Form.TriggerEditReconciles | components/swap/LimitSwapForm.tsx:427-440 | A positive trigger edit with a positive input leaves the form reconciled. |
| Form.RecomputeReconciles | components/swap/LimitSwapForm.tsx:201-223 | With a quote, the recompute effect leaves the form reconciled at the new trigger. |
| Form.AmountOutEditNeverInflates | components/swap/LimitSwapForm.tsx:388-406 | The input derived from a typed output, converted forward again, gives at most the typed output. |
| Submission.SelectCall | components/swap/LimitSwapForm.tsx:464-522 | Reducing a long calls the on-deposit variant with (input, output, flip); reducing a short calls the on-borrow variant with (output, input, not flip); stop-loss and take-profit select their own pair. |
| Submission.PlaceOrder | components/swap/LimitSwapForm.tsx:442-462 | The validator's map replaces the errors; a call is made iff the map is empty and account, group and both banks are loaded, and then it carries the validated trigger and amount. |
| Submission.PressPlaceOrder | components/swap/LimitSwapForm.tsx:803-806 | The button does nothing while the borrow in input tokens exceeds the remaining allowance (the gate as written); any call made passed both the gate and the validator. |
| Submission.PressPlaceOrderByValue | components/swap/LimitSwapForm.tsx:803-806 | The button with the value-based gate of Findings: it does nothing while the borrow's value exceeds the allowance; any call made passed that gate and the validator. |
| Submission.TriggerAtQuoteNeverSent | components/swap/LimitSwapForm.tsx:442-449 | An order whose trigger equals the quote is never sent. |
| Summary.QuoteUnit | components/swap/LimitSwapForm.tsx:572-574 | The unit names the two tokens of the pair, one each. |
| Summary.QuoteUnitFlipSwaps | components/swap/LimitSwapForm.tsx:572-574 | Flipping the prices swaps numerator and denominator of the unit. |
| Summary.QuoteIsPricedInUnit | components/swap/LimitSwapForm.tsx:572-574 | The quote counts numerator tokens per denominator token: the quote times the numerator's oracle price is the denominator's, for either flip. |
| Summary.MovementFor | components/swap/LimitSwapForm.tsx:593-602 | The phrase is "rises to" exactly when the required side is above. |
| Summary.BorrowToReduceShort | components/swap/LimitSwapForm.tsx:578-591 | Zero unless reducing a short; output minus a non-negative balance below it; the whole output when the balance is negative; zero when the balance covers the output. |
| Summary.OrderDescription | components/swap/LimitSwapForm.tsx:559-622 | No summary iff an amount, a name or the trigger is missing; otherwise "buy" iff reducing a short, the input amount floored to its decimals, the unit by flip, the phrase by the validator's XOR, and a borrow clause iff the borrow is non-zero. |
| Summary.SummaryAgreesWithValidator | components/swap/LimitSwapForm.tsx:593-602 | The summary says "rises to" exactly when the validator accepts only triggers above the quote. |
| Scenarios.ShortStopLossScenario | components/swap/LimitSwapForm.tsx:91-103 | Balance -50, unflipped stop-loss, quote 2: reducing short, multiplier 1.1, default trigger 2.2, accepted. |
| Scenarios.AmountOutScenario | components/swap/LimitSwapForm.tsx:325-328 | 10 in at trigger 2 into 6 decimals gives exactly 20 out. |
| Scenarios.EmptyFormHasNoSummary | components/swap/LimitSwapForm.tsx:560-567 | An empty form without banks has no summary. |
| Scenarios.BorrowLimitBoundary | components/swap/LimitSwapForm.tsx:250-252 | An allowance of 100 admits a borrow of exactly 100 and blocks 100.01. |

## Findings

| source | as written | input that shows it | evidently intended | confidence | as-written member | corrected member |
|---|---|---|---|---|---|---|
| components/swap/LimitSwapForm.tsx:246-252 | the borrow in input tokens is compared with the remaining allowance, which hooks/useRemainingBorrowsInPeriod.ts:39-43 computes as a value in the quote currency | a token at 100 with 1000 of allowance left: a borrow of 20 tokens (2000 in value) passes | compare the borrow's value (amount times oracle price) with the allowance, as `Submission.PressPlaceOrderByValue` does for the button | medium, not executed | Validation.BorrowLimitIgnoresPrice | Validation.BorrowValueExceedsLimit |

## Left out

- utils/numbers is not part of this model: `Numbers.FloorToDecimal` assumes it keeps `d` places rounding toward negative infinity, as its name and use suggest.
- `priceToDisplayString` and `floorToDecimalSignificance`: the latter lives in utils/numbers, which is not part of this model; triggers set by the form are the exact `quote * multiplier`, and `Trigger.RoundedDefaultTriggerOnRequiredSide` covers any six-significant-digit rendering; the summary carries the trigger unformatted.
- `triggerPriceDifference` and `triggerPriceSuffix`: display-only percentages and labels.
- utils/tokens (`formatTokenSymbol`) is not part of this model; summaries carry bank names unchanged.
- Non-empty text that does not read as a number is treated like empty text. The numeric inputs only produce digits, and the one such text the form writes itself is "NaN" (0/0 at :412-414, a slider at 0 with a flipped trigger of 0); this model stores it as empty, while the source keeps the text, which reads as present to `orderDescription`. The form also clears the input alongside it, so the summary is absent either way.
- Form.WriteAmountOut: a conversion that yields `Infinity` (a non-zero amount divided by a zero trigger) is stored as an empty entry, though the source keeps the text "Infinity"; like the source it does not clear the other amount.
- Form.WriteAmountIn: the same holds for the input amount. An unflipped trigger of "0" (typed, or set by `Form.SelectOrderType` without a quote) with a typed positive output divides by zero, and the source keeps "Infinity" as the input text. That text reads as a non-zero number, so in the source the validator reports an insufficient balance, the borrow gate blocks for any non-zero allowance, and the order summary is shown; in the model the input is empty, so the validator reports a required field, the gate does not block, and there is no summary.
- Market.Price: oracle prices are taken to be positive; the source divides by them without a guard when forming the quote.
- Form.SelectOrderType: with no quote the source formats a zero price with a helper not in this model; the model stores a trigger of 0.
- Amounts.AmountOut and Amounts.AmountIn: the source multiplies or divides IEEE doubles (`parseFloat` of each entry) before flooring, so the product can fall just below a grid value and floor one unit lower; 1.15 times 100 into 6 decimals is 114.99999999999999 in doubles and floors to 114.999999, where the model's exact arithmetic gives 115. The model's bounds hold for the exact product, not for the rounded double.
- Form.OrderTypeChanged: holds with exact reals only. The handler multiplies the quote and multiplier in doubles (:668) and the recompute effect in decimal arithmetic (:210), so after six-significant-digit flooring they can differ (quote 3.3 for a long stop-loss: 2.96999 from the handler, 2.97 from the effect). The handler also reads a stale `amountInAsDecimal`, missing from its dependencies at :682, which the effect then corrects.
- `getOrderTypeMultiplier`'s fallback of 1 for an unknown order type cannot arise with a two-valued order type.
- React scheduling: each handler and effect runs to completion on the current state; stale closures (for example the output decimals captured by `handleTriggerPrice`) are not modelled.
- The SDK calls (`client.tcs*`), `fetchGroup`, `reloadMangoAccount`, notifications and error logging: asynchronous foreign calls; only the choice of call and its varying arguments are modelled, not the trailing constant `null` / `true` arguments.
- Wallet connection and IP gating of the button, and the submitting spinner: UI state.
- `useRemainingBorrowsInPeriod` (I80F48 arithmetic over the bank) and the reset-time message: the remaining allowance is an input of the snapshot.
- Token lists, charts, routes, governance, modals and navigation in the other files: UI and network glue with no trigger-order logic.
