/**
 * What the trigger-order form reads from the store and hooks: the two banks of
 * the pair, the connected account's positions in them, and the remaining net
 * borrow allowance of the current window. Each is passed explicitly; `None`
 * means "not loaded" (no bank selected, no account connected, hook undefined).
 */
module Market {
  import opened Wrappers

  /** An oracle price in UI units, taken to be positive: the quote divides by it. */
  type Price = x: real | x > 0.0 witness 1.0

  /** A token bank as the form reads it. */
  datatype Bank = Bank(name: string, mintDecimals: nat, uiPrice: Price)

  /** The connected account's UI balances (negative = borrowed) and input-token deposits. */
  datatype Account = Account(inputBalance: real, outputBalance: real, inputDeposits: real)

  /** Everything outside the form state that the trigger-order logic depends on. */
  datatype Snapshot = Snapshot(
    inputBank: Option<Bank>,
    outputBank: Option<Bank>,
    account: Option<Account>,
    remainingBorrowsInPeriod: Option<real>)

  /** `getInputTokenBalance`: 0 unless both the bank and the account are loaded. */
  function InputTokenBalance(m: Snapshot): (b: real)
    ensures m.inputBank.None? || m.account.None? ==> b == 0.0
    ensures m.inputBank.Some? && m.account.Some? ==> b == m.account.value.inputBalance
  {
    if m.inputBank.None? || m.account.None? then 0.0 else m.account.value.inputBalance
  }

  /** `getOutputTokenBalance`: 0 unless both the bank and the account are loaded. */
  function OutputTokenBalance(m: Snapshot): (b: real)
    ensures m.outputBank.None? || m.account.None? ==> b == 0.0
    ensures m.outputBank.Some? && m.account.Some? ==> b == m.account.value.outputBalance
  {
    if m.outputBank.None? || m.account.None? then 0.0 else m.account.value.outputBalance
  }

  /** The pair's display names, both empty unless both banks are loaded. */
  function PairNames(m: Snapshot): (names: (string, string))
    ensures m.inputBank.None? || m.outputBank.None? ==> names == ("", "")
    ensures m.inputBank.Some? && m.outputBank.Some? ==>
              names == (m.inputBank.value.name, m.outputBank.value.name)
  {
    if m.inputBank.None? || m.outputBank.None? then ("", "")
    else (m.inputBank.value.name, m.outputBank.value.name)
  }

  /** `bank?.mintDecimals || 0`. */
  function MintDecimals(bank: Option<Bank>): nat
  {
    if bank.Some? then bank.value.mintDecimals else 0
  }

  /**
   * The reference price of the pair: output tokens per input token, or input
   * tokens per output token when prices are flipped; 0 ("no quote") when
   * either bank is missing.
   */
  function QuotePrice(m: Snapshot, flip: bool): (q: real)
    ensures q >= 0.0
    ensures q == 0.0 <==> m.inputBank.None? || m.outputBank.None?
    ensures m.inputBank.Some? && m.outputBank.Some? ==>
              q * (if flip then m.inputBank.value.uiPrice else m.outputBank.value.uiPrice)
              == (if flip then m.outputBank.value.uiPrice else m.inputBank.value.uiPrice)
  {
    if m.inputBank.None? || m.outputBank.None? then 0.0
    else
      var inPrice := m.inputBank.value.uiPrice;
      var outPrice := m.outputBank.value.uiPrice;
      if flip then outPrice / inPrice else inPrice / outPrice
  }

  /** The flipped quote is the reciprocal of the unflipped one. */
  lemma QuoteFlipIsReciprocal(m: Snapshot)
    requires m.inputBank.Some? && m.outputBank.Some?
    ensures QuotePrice(m, true) * QuotePrice(m, false) == 1.0
  {
    var a := m.inputBank.value.uiPrice;
    var b := m.outputBank.value.uiPrice;
    assert QuotePrice(m, true) == b / a;
    assert QuotePrice(m, false) == a / b;
    assert (b / a) * (a / b) == (b * a) / (a * b);
  }

  /**
   * The exposure classifier: the order reduces a short position exactly when an
   * account is connected and its input-token balance is negative.
   */
  function IsReducingShort(m: Snapshot): (short: bool)
    ensures short <==> m.account.Some? && m.inputBank.Some? && m.account.value.inputBalance < 0.0
  {
    if m.account.None? || m.inputBank.None? then false
    else InputTokenBalance(m) < 0.0
  }
}
