/** Worked examples of the trigger-order rules on concrete inputs. */
module Scenarios {
  import opened Wrappers
  import opened Numbers
  import opened Market
  import opened Trigger
  import opened Amounts
  import opened Validation
  import opened Form
  import opened Summary

  /** A SOL/USDC pair (SOL at 2, USDC at 1) held by an account that is 50 SOL short. */
  function ShortSolSnapshot(): Snapshot
  {
    Snapshot(Some(Bank("SOL", 9, 2.0)), Some(Bank("USDC", 6, 1.0)), Some(Account(-50.0, 0.0, 0.0)), None)
  }

  /**
   * Short position, unflipped stop-loss at a quote of 2: the exposure is
   * reducing-short, the multiplier 1.1, the default trigger 2.2, and the
   * validator accepts it because it must lie above the quote.
   */
  lemma ShortStopLossScenario()
    ensures QuotePrice(ShortSolSnapshot(), false) == 2.0
    ensures IsReducingShort(ShortSolSnapshot())
    ensures Multiplier(StopLoss, false, true) == 1.1
    ensures DefaultTrigger(ShortSolSnapshot(), false, StopLoss) == 2.2
    ensures TriggerPriceField !in ValidateForm(10.0, Some(2.2), ShortSolSnapshot(), false, StopLoss)
  {
  }

  /** Ten input tokens at a trigger of 2, unflipped, into a 6-decimal token: exactly 20 out. */
  lemma {:induction false} AmountOutScenario()
    ensures AmountOut(Some(10.0), false, Some(2.0), 6) == Finite(20.0)
  {
    assert Pow10(6) == 1000000.0;
    assert OnGrid(20.0, 6);
    FloorToDecimalIdempotent(20.0, 6);
  }

  /** With nothing entered and no banks, there is no summary. */
  lemma EmptyFormHasNoSummary(flip: bool, t: OrderType)
    ensures OrderDescription(FormState(None, None, None, flip, t, map[]), Snapshot(None, None, None, None)).None?
  {
  }

  /** A 100 allowance admits a borrow of exactly 100 and blocks 100.01. */
  lemma BorrowLimitBoundary()
    ensures !BorrowExceedsLimit(Snapshot(Some(Bank("SOL", 9, 2.0)), None, Some(Account(0.0, 0.0, 0.0)), Some(100.0)), 100.0)
    ensures BorrowExceedsLimit(Snapshot(Some(Bank("SOL", 9, 2.0)), None, Some(Account(0.0, 0.0, 0.0)), Some(100.0)), 100.01)
  {
  }
}
